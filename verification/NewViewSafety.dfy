/** What selectInitialCheckpoint and assignSequenceNumbers guarantee. */
module NewViewSafety {
  import opened PbftTypes
  import opened Quorums
  import opened NewViewSelection

  // ------------------------------------------------------------- shape of X

  ghost predicate EntryPasses(cfg: Config, vset: seq<ViewChange>, n: nat, em: PQ) {
    em in PEntries(vset) && Passes(cfg, vset, n, em)
  }

  lemma SelectMeaning(cfg: Config, vset: seq<ViewChange>, n: nat)
    ensures match Select(cfg, vset, n)
            case Chosen(d) => exists em :: EntryPasses(cfg, vset, n, em) && em.digest == d
            case NullRequest => NullQuorum(cfg, vset, n) && !exists em :: EntryPasses(cfg, vset, n, em)
            case Stuck => !NullQuorum(cfg, vset, n) && !exists em :: EntryPasses(cfg, vset, n, em)
  {
    if SomePasses(cfg, vset, n) {
      var i: nat :| FirstPassing(cfg, vset, n, i) && Select(cfg, vset, n) == Chosen(PEntries(vset)[i].digest);
      assert EntryPasses(cfg, vset, n, PEntries(vset)[i]);
    } else {
      forall em ensures !EntryPasses(cfg, vset, n, em) {
        if EntryPasses(cfg, vset, n, em) {
          var i :| 0 <= i < |PEntries(vset)| && PEntries(vset)[i] == em;
          FirstExists(cfg, vset, n, i);
        }
      }
    }
  }

  lemma FirstExists(cfg: Config, vset: seq<ViewChange>, n: nat, i: nat)
    requires i < |PEntries(vset)| && Passes(cfg, vset, n, PEntries(vset)[i])
    ensures SomePasses(cfg, vset, n)
  {
    if !FirstPassing(cfg, vset, n, i) {
      var j :| 0 <= j < i && Passes(cfg, vset, n, PEntries(vset)[j]);
      FirstExists(cfg, vset, n, j);
    }
  }

  /** Number n is left to the null request: an intersection quorum reports no P entry
      for it and no P entry meets A1 and A2. */
  ghost predicate LeftNull(cfg: Config, vset: seq<ViewChange>, n: nat) {
    NullQuorum(cfg, vset, n) && !exists em :: EntryPasses(cfg, vset, n, em)
  }

  ghost predicate PassedDigest(cfg: Config, vset: seq<ViewChange>, n: nat, d: Digest) {
    exists em :: EntryPasses(cfg, vset, n, em) && em.digest == d
  }

  ghost predicate NeitherRule(cfg: Config, vset: seq<ViewChange>, n: nat) {
    !NullQuorum(cfg, vset, n) && !exists em :: EntryPasses(cfg, vset, n, em)
  }

  ghost predicate ShapedUpTo(cfg: Config, vset: seq<ViewChange>, h: nat, x: map<nat, Digest>, top: nat) {
    && h < top <= h + cfg.L
    && (forall n :: n in x <==> h < n <= top)
    && (forall n | n in x :: PassedDigest(cfg, vset, n, x[n]) || (x[n] == Null && LeftNull(cfg, vset, n)))
    && (top == h + 1 || PassedDigest(cfg, vset, top, x[top]))
    && (forall n | top < n <= h + cfg.L :: LeftNull(cfg, vset, n))
  }

  /** assignSequenceNumbers with L >= 1. No result exactly when some number of the
      window meets neither rule. Otherwise the keys are h+1..top without a hole, every
      value passed A1 and A2 or is the null request of a number most view-changes report
      nothing for, the top number is not a null request unless it is h+1, and only
      null requests lie above it. */
  lemma AssignmentShape(cfg: Config, vset: seq<ViewChange>, h: nat)
    requires cfg.L >= 1
    ensures Assignment(cfg, vset, h).None? <==> exists n | h < n <= h + cfg.L :: NeitherRule(cfg, vset, n)
    ensures Assignment(cfg, vset, h).Some? ==>
            exists top :: ShapedUpTo(cfg, vset, h, Assignment(cfg, vset, h).value, top)
  {
    forall n: nat
      ensures match Select(cfg, vset, n)
              case Chosen(d) => PassedDigest(cfg, vset, n, d)
              case NullRequest => LeftNull(cfg, vset, n)
              case Stuck => NeitherRule(cfg, vset, n)
    {
      SelectMeaning(cfg, vset, n);
    }
    if Assignment(cfg, vset, h).Some? {
      var top := LastChosen(cfg, vset, h, cfg.L);
      assert forall n | h < n <= h + cfg.L :: !Select(cfg, vset, n).Stuck?;
      assert ShapedUpTo(cfg, vset, h, Assignment(cfg, vset, h).value, top);
    }
  }

  // -------------------------------------------------------- well-formedness

  ghost predicate NoRepeats(cset: seq<StableId>) {
    forall i, j | 0 <= i < j < |cset| :: cset[i] != cset[j]
  }

  /** One entry per number and digest, as the qset map gives every correct sender. */
  ghost predicate OnePerDigest(qset: seq<PQ>) {
    forall i, j | 0 <= i < j < |qset| :: qset[i].seqNo != qset[j].seqNo || qset[i].digest != qset[j].digest
  }

  /** What a V set must look like for the counters to count replicas: one view-change per
      replica, none for a view before the new one, no repeated C entry, one Q entry per
      number and digest. recvNewView checks none of this. */
  ghost predicate WellFormedVset(cfg: Config, view: nat, vset: seq<ViewChange>) {
    && DistinctReplicas(vset)
    && (forall m | m in vset ::
          m.replicaId < cfg.N && m.view >= view && NoRepeats(m.cset) && OnePerDigest(m.qset))
  }

  lemma OccurrencesOnce(cset: seq<StableId>, c: StableId)
    requires NoRepeats(cset)
    ensures Occurrences(cset, c) == if c in cset then 1 else 0
  {
    if cset != [] {
      var k := |cset| - 1;
      assert cset == cset[..k] + [cset[k]];
      assert forall i | 0 <= i < k :: cset[..k][i] == cset[i];
      OccurrencesOnce(cset[..k], c);
    }
  }

  lemma QCountNone(qset: seq<PQ>, n: nat, em: PQ)
    requires forall q | q in qset :: !QMatches(q, n, em)
    ensures QCount(qset, n, em) == 0
  {
  }

  lemma QCountOnce(qset: seq<PQ>, n: nat, em: PQ)
    requires OnePerDigest(qset)
    ensures QCount(qset, n, em) <= 1
    ensures QCount(qset, n, em) == 1 ==> exists q :: q in qset && QMatches(q, n, em)
  {
    if qset != [] {
      var k := |qset| - 1;
      var init := qset[..k];
      assert forall i | 0 <= i < k :: init[i] == qset[i];
      QCountOnce(init, n, em);
      if QMatches(qset[k], n, em) {
        assert qset[k] in qset;
        forall q | q in init ensures !QMatches(q, n, em) {
          var i :| 0 <= i < k && qset[i] == q;
        }
        QCountNone(init, n, em);
      }
    }
  }

  /** In a well-formed V set a tally of weights of at most one counts distinct replicas. */
  lemma TallyIsQuorum(cfg: Config, view: nat, vset: seq<ViewChange>, weight: ViewChange -> nat)
    requires WellFormedVset(cfg, view, vset)
    requires forall m | m in vset :: weight(m) <= 1
    ensures |Voters(vset, weight)| == Votes(vset, weight)
    ensures Voters(vset, weight) <= Replicas(cfg.N)
  {
    CountsDistinctReplicasIff(vset, weight);
  }

  // ------------------------------------------------- the initial checkpoint

  /** The view-changes that carry c with a low watermark at or below it. */
  ghost function Carriers(vset: seq<ViewChange>, c: StableId): set<nat> {
    set m | m in vset && m.h <= c.seqNo && c in m.cset :: m.replicaId
  }

  /** In a well-formed V set a qualifying checkpoint is carried by an intersection
      quorum of view-changes from distinct replicas. */
  lemma QualifiesIffQuorum(cfg: Config, view: nat, vset: seq<ViewChange>, c: StableId)
    requires cfg.Valid() && WellFormedVset(cfg, view, vset)
    ensures Qualifies(cfg, vset, c) <==> |Carriers(vset, c)| >= cfg.IntersectionQuorum()
    ensures Carriers(vset, c) <= Replicas(cfg.N)
  {
    forall m | m in vset
      ensures CarryWeight(c)(m) == if c in m.cset then 1 else 0
      ensures LowCarryWeight(c)(m) == if m.h <= c.seqNo && c in m.cset then 1 else 0
    {
      OccurrencesOnce(m.cset, c);
    }
    TallyIsQuorum(cfg, view, vset, CarryWeight(c));
    TallyIsQuorum(cfg, view, vset, LowCarryWeight(c));
    assert Voters(vset, LowCarryWeight(c)) == Carriers(vset, c);
    assert Voters(vset, LowCarryWeight(c)) <= Voters(vset, CarryWeight(c));
    SubsetSize(Voters(vset, LowCarryWeight(c)), Voters(vset, CarryWeight(c)));
  }

  /** One id per number in the C sets of correct replicas, as the chkpts map gives them. */
  ghost predicate OneIdPerNumber(m: ViewChange) {
    forall c, d | c in m.cset && d in m.cset && c.seqNo == d.seqNo :: c == d
  }

  /** selectInitialCheckpoint does not depend on the order in which the Go map is
      visited: there is only one highest qualifying checkpoint, and at least f+1
      correct replicas hold it. */
  lemma InitialCheckpointUnique(cfg: Config, faulty: set<nat>, view: nat, vset: seq<ViewChange>, c: StableId, d: StableId)
    requires cfg.Valid() && |faulty| <= cfg.f && WellFormedVset(cfg, view, vset)
    requires forall m | m in vset && m.replicaId !in faulty :: OneIdPerNumber(m)
    requires InitialCheckpoint(cfg, vset, c) && InitialCheckpoint(cfg, vset, d)
    ensures c == d
    ensures |Carriers(vset, c) - faulty| >= cfg.f + 1
  {
    QualifiesIffQuorum(cfg, view, vset, c);
    QualifiesIffQuorum(cfg, view, vset, d);
    CorrectMembers(cfg, faulty, Carriers(vset, c));
    var r := QuorumsMeet(cfg, faulty, Carriers(vset, c), Carriers(vset, d));
    var m :| m in vset && c in m.cset && m.replicaId == r;
    var m' :| m' in vset && d in m'.cset && m'.replicaId == r;
    assert m == m';
  }

  /** Whatever the V set, the number of the initial checkpoint is determined. */
  lemma InitialNumberUnique(cfg: Config, vset: seq<ViewChange>, c: StableId, d: StableId)
    requires InitialCheckpoint(cfg, vset, c) && InitialCheckpoint(cfg, vset, d)
    ensures c.seqNo == d.seqNo
  {
    assert d.seqNo <= c.seqNo && c.seqNo <= d.seqNo;
  }

  // ------------------------------------------------------ carried requests

  /** What the correct replicas report about number n once a quorum `committers` sent
      commits for d at (v, n): the committers report a P entry of view v or later, unless
      their low watermark has passed n, and nobody correct reports another digest. */
  ghost predicate ReportsOrPassed(faulty: set<nat>, vset: seq<ViewChange>, committers: set<nat>, v: nat, n: nat, d: Digest) {
    forall m | m in vset && m.replicaId !in faulty ::
      && (m.replicaId in committers ==> m.h >= n || exists p :: p in m.pset && p.seqNo == n && p.view >= v)
      && (forall p | p in m.pset && p.seqNo == n && p.view >= v :: p.digest == d)
      && (forall q | q in m.qset && q.seqNo == n && q.view > v :: q.digest == d)
  }

  /** A2 is met only with the Q entry of a correct replica. */
  lemma CorrectWitness(cfg: Config, faulty: set<nat>, view: nat, vset: seq<ViewChange>, n: nat, em: PQ) returns (m: ViewChange, q: PQ)
    requires |faulty| <= cfg.f && WellFormedVset(cfg, view, vset) && Passes(cfg, vset, n, em)
    ensures m in vset && m.replicaId !in faulty && q in m.qset && QMatches(q, n, em)
  {
    forall m | m in vset ensures A2Weight(n, em)(m) <= 1 {
      QCountOnce(m.qset, n, em);
    }
    TallyIsQuorum(cfg, view, vset, A2Weight(n, em));
    var s := Outside(Voters(vset, A2Weight(n, em)), faulty);
    m :| m in vset && A2Weight(n, em)(m) > 0 && m.replicaId == s;
    QCountOnce(m.qset, n, em);
    q :| q in m.qset && QMatches(q, n, em);
  }

  /** A1 and A2 let through only the digest that may have committed. */
  lemma CandidateIsCommitted(cfg: Config, faulty: set<nat>, view: nat, vset: seq<ViewChange>, committers: set<nat>,
                             v: nat, n: nat, d: Digest, em: PQ)
    requires |faulty| <= cfg.f && WellFormedVset(cfg, view, vset)
    requires committers <= Replicas(cfg.N) && |committers| >= cfg.IntersectionQuorum()
    requires ReportsOrPassed(faulty, vset, committers, v, n, d)
    requires Passes(cfg, vset, n, em)
    ensures em.digest == d
  {
    TallyIsQuorum(cfg, view, vset, A1Weight(n, em));
    var r := QuorumsMeet(cfg, faulty, committers, Voters(vset, A1Weight(n, em)));
    var m :| m in vset && A1Weight(n, em)(m) > 0 && m.replicaId == r;
    var p :| p in m.pset && p.seqNo == n && p.view >= v;
    if em.view > v {
      var mq, q := CorrectWitness(cfg, faulty, view, vset, n, em);
    }
  }

  /** m comes from a correct committer that has passed n and no longer lists it. */
  ghost predicate Forgot(faulty: set<nat>, committers: set<nat>, n: nat, m: ViewChange) {
    m.replicaId in committers && m.replicaId !in faulty && m.h >= n && NoPEntry(m, n)
  }

  /** A number with a commit quorum can only fall to the null request through the voice of a
      correct committer whose watermark has passed it. */
  lemma NoNullForCommitted(cfg: Config, faulty: set<nat>, view: nat, vset: seq<ViewChange>, committers: set<nat>,
                           v: nat, n: nat, d: Digest)
    requires |faulty| <= cfg.f && WellFormedVset(cfg, view, vset)
    requires committers <= Replicas(cfg.N) && |committers| >= cfg.IntersectionQuorum()
    requires ReportsOrPassed(faulty, vset, committers, v, n, d)
    ensures NullQuorum(cfg, vset, n) ==> exists m | m in vset :: Forgot(faulty, committers, n, m)
  {
    TallyIsQuorum(cfg, view, vset, NullWeight(n));
    if NullQuorum(cfg, vset, n) {
      var r := QuorumsMeet(cfg, faulty, committers, Voters(vset, NullWeight(n)));
      var m :| m in vset && NullWeight(n)(m) > 0 && m.replicaId == r;
      assert Forgot(faulty, committers, n, m);
    }
  }

  /** When d may have committed at number n and the new view starts below n with n in its
      window, X maps n to d if and only if n is not left to the null request. (If d is the null
      request itself, being left to it does no harm.) */
  lemma AssignmentKeepsCommitted(cfg: Config, faulty: set<nat>, view: nat, vset: seq<ViewChange>, committers: set<nat>,
                                 v: nat, n: nat, d: Digest, h: nat)
    requires |faulty| <= cfg.f && WellFormedVset(cfg, view, vset)
    requires committers <= Replicas(cfg.N) && |committers| >= cfg.IntersectionQuorum()
    requires ReportsOrPassed(faulty, vset, committers, v, n, d)
    requires h < n <= h + cfg.L
    requires Assignment(cfg, vset, h).Some?
    ensures var x := Assignment(cfg, vset, h).value;
            && (!LeftNull(cfg, vset, n) ==> n in x && x[n] == d)
            && (d != Null ==> (n in x && x[n] == d <==> !LeftNull(cfg, vset, n)))
  {
    SelectMeaning(cfg, vset, n);
    assert !Select(cfg, vset, n).Stuck?;
    if !LeftNull(cfg, vset, n) {
      var em :| EntryPasses(cfg, vset, n, em) && Select(cfg, vset, n) == Chosen(em.digest);
      CandidateIsCommitted(cfg, faulty, view, vset, committers, v, n, d, em);
      assert n <= LastChosen(cfg, vset, h, cfg.L);
    }
  }
}
