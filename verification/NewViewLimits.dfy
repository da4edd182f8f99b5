/** Where the new-view selection departs from the protocol it follows, and exactly when. */
module NewViewLimits {
  import opened Common
  import opened PbftTypes
  import opened Quorums
  import opened NewViewSelection
  import opened NewViewSafety

  // --------------------------------------------- repeated checkpoint entries

  function Repeated(c: StableId, k: nat): seq<StableId> { seq(k, _ => c) }

  lemma {:induction false} RepeatedOccurrences(c: StableId, k: nat, d: StableId)
    ensures Occurrences(Repeated(c, k), d) == if d == c then k else 0
  {
    if k > 0 {
      assert Repeated(c, k)[..k - 1] == Repeated(c, k - 1);
      RepeatedOccurrences(c, k - 1, d);
    }
  }

  /** A single view-change, from any one replica, that repeats an entry in its C set makes
      selectInitialCheckpoint return any checkpoint whatever: mentions are counted, not replicas. */
  lemma OneReplicaDecides(cfg: Config, view: nat, c: StableId, r: nat)
    requires cfg.Valid()
    ensures var vset := [ViewChange(view, c.seqNo, Repeated(c, cfg.IntersectionQuorum()), [], [], r)];
            InitialCheckpoint(cfg, vset, c) && |Carriers(vset, c)| == 1
  {
    var m := ViewChange(view, c.seqNo, Repeated(c, cfg.IntersectionQuorum()), [], [], r);
    var vset := [m];
    assert vset[..0] == [];
    forall d ensures Votes(vset, CarryWeight(d)) == if d == c then cfg.IntersectionQuorum() else 0 {
      RepeatedOccurrences(c, cfg.IntersectionQuorum(), d);
    }
    assert Votes(vset, LowCarryWeight(c)) == Occurrences(m.cset, c);
    assert c in m.cset by { assert m.cset[0] == c; }
    assert Carriers(vset, c) == {r};
  }

  // ------------------------------------------------------------ the null rule

  /** The null rule as the protocol states it: the low watermark lies below n, and P has no entry for n. */
  ghost function LowNullWeight(n: nat): ViewChange -> nat {
    (m: ViewChange) => if m.h < n && NoPEntry(m, n) then 1 else 0
  }

  /** The code does not look at the low watermark, so its count is the protocol's count
      exactly when every view-change whose watermark has reached n still lists n in P. */
  lemma {:induction false} NullRuleExact(vset: seq<ViewChange>, n: nat)
    ensures Votes(vset, LowNullWeight(n)) <= Votes(vset, NullWeight(n))
    ensures Votes(vset, NullWeight(n)) == Votes(vset, LowNullWeight(n)) <==>
            forall m | m in vset && m.h >= n :: !NoPEntry(m, n)
  {
    if vset != [] {
      var k := |vset| - 1;
      assert vset == vset[..k] + [vset[k]];
      NullRuleExact(vset[..k], n);
    }
  }

  /** Under the protocol's null rule a committed number never falls to the null request,
      whatever the low watermarks. */
  lemma LowNullNeverLoses(cfg: Config, faulty: set<nat>, view: nat, vset: seq<ViewChange>, committers: set<nat>,
                          v: nat, n: nat, d: Digest)
    requires |faulty| <= cfg.f && WellFormedVset(cfg, view, vset)
    requires committers <= Replicas(cfg.N) && |committers| >= cfg.IntersectionQuorum()
    requires ReportsOrPassed(faulty, vset, committers, v, n, d)
    ensures Votes(vset, LowNullWeight(n)) < cfg.IntersectionQuorum()
  {
    TallyIsQuorum(cfg, view, vset, LowNullWeight(n));
    if Votes(vset, LowNullWeight(n)) >= cfg.IntersectionQuorum() {
      var r := QuorumsMeet(cfg, faulty, committers, Voters(vset, LowNullWeight(n)));
      assert false;
    }
  }

  // ------------------------------------------------------- a lost request

  const FOUR := Config(4, 1, 1, 2)
  const BASE := StableId(0, "")

  /** Replica 0 has moved its watermark past number 1, replica 1, the primary of view 1, is
      faulty and reports nothing, replica 2 reports number 1, and replica 3 never saw it. */
  function Voices(d: Digest, later: StableId): seq<ViewChange> {
    [ViewChange(1, 1, [later], [], [], 0),
     ViewChange(1, 0, [BASE], [], [], 1),
     ViewChange(1, 0, [BASE, later], [PQ(1, d, 0)], [PQ(1, d, 0)], 2),
     ViewChange(1, 0, [BASE], [], [], 3)]
  }

  lemma TallyOfFour(vset: seq<ViewChange>, weight: ViewChange -> nat)
    requires |vset| == 4
    ensures Votes(vset, weight) == weight(vset[0]) + weight(vset[1]) + weight(vset[2]) + weight(vset[3])
  {
    assert vset[..3][..2] == vset[..2] && vset[..3][..2][..1] == vset[..1] && vset[..2][..1] == vset[..1] && vset[..1][..0] == [];
    assert Votes(vset[..1], weight) == weight(vset[0]);
    assert Votes(vset[..2], weight) == weight(vset[0]) + weight(vset[1]);
    assert Votes(vset[..3], weight) == weight(vset[0]) + weight(vset[1]) + weight(vset[2]);
  }

  lemma OneOrTwoEntries(a: StableId, b: StableId, c: StableId)
    ensures Occurrences([a], c) == if a == c then 1 else 0
    ensures Occurrences([a, b], c) == (if a == c then 1 else 0) + (if b == c then 1 else 0)
  {
    assert [a, b][..1] == [a] && [a][..0] == [];
  }

  lemma VoicesStartAtBase(d: Digest, later: StableId)
    requires later.seqNo == 1
    ensures InitialCheckpoint(FOUR, Voices(d, later), BASE)
  {
    var vset := Voices(d, later);
    forall c ensures Qualifies(FOUR, vset, c) <==> c == BASE {
      OneOrTwoEntries(BASE, later, c);
      OneOrTwoEntries(later, later, c);
      TallyOfFour(vset, CarryWeight(c));
      TallyOfFour(vset, LowCarryWeight(c));
    }
  }

  lemma VoicesEntries(d: Digest, later: StableId)
    ensures PEntries(Voices(d, later)) == [PQ(1, d, 0)]
  {
    var vset := Voices(d, later);
    assert vset[..3][..2] == vset[..2] && vset[..2][..1] == vset[..1] && vset[..1][..0] == [];
    assert PEntries(vset[..1]) == [];
    assert PEntries(vset[..2]) == [];
    assert PEntries(vset[..3]) == [PQ(1, d, 0)];
  }

  lemma VoicesFailA2(d: Digest, later: StableId, n: nat)
    requires n > 0
    ensures !Passes(FOUR, Voices(d, later), n, PQ(1, d, 0))
  {
    var em := PQ(1, d, 0);
    TallyOfFour(Voices(d, later), A2Weight(n, em));
    assert [em][..0] == [];
    assert QCount([em], n, em) <= 1;
  }

  lemma VoicesNull(d: Digest, later: StableId, n: nat)
    requires n > 0
    ensures Select(FOUR, Voices(d, later), n) == NullRequest
  {
    var vset := Voices(d, later);
    VoicesEntries(d, later);
    VoicesFailA2(d, later, n);
    TallyOfFour(vset, NullWeight(n));
    SelectNone(FOUR, vset, n);
  }

  lemma OnlyNull(vset: seq<ViewChange>, h: nat)
    requires forall n | h < n :: Select(FOUR, vset, n) == NullRequest
    ensures Assignment(FOUR, vset, h) == Some(map[h + 1 := Null])
  {
    assert LastChosen(FOUR, vset, h, 2) == h + 1;
    assert !SomeStuck(FOUR, vset, h, FOUR.L);
    var x := Assignment(FOUR, vset, h).value;
    assert x.Keys == {h + 1} && x[h + 1] == DigestOf(Select(FOUR, vset, h + 1));
    assert x == map[h + 1 := Null];
  }

  /** A committed request can be lost. All view-changes are well formed, replicas 0, 1 and 2
      are a commit quorum for d at number 1 in view 0, the correct ones among them report
      number 1 or have their watermark past it, and yet the new view, whose primary is the
      faulty replica, starts at 0 and gives number 1 to the null request. */
  lemma CommittedRequestLost(d: Digest, later: StableId)
    requires later.seqNo == 1
    ensures var vset := Voices(d, later);
            && FOUR.Primary(1) == 1 && WellFormedVset(FOUR, 1, vset)
            && ReportsOrPassed({1}, vset, {0, 1, 2}, 0, 1, d)
            && InitialCheckpoint(FOUR, vset, BASE)
            && Assignment(FOUR, vset, 0) == Some(map[1 := Null])
  {
    var vset := Voices(d, later);
    VoicesStartAtBase(d, later);
    assert vset[2].pset[0] == PQ(1, d, 0);
    forall n | 0 < n ensures Select(FOUR, vset, n) == NullRequest { VoicesNull(d, later, n); }
    OnlyNull(vset, 0);
  }

  // --------------------------------------- kept in spite of a passed watermark

  /** As before, but the faulty replica tells what it has prepared. */
  function OpenVoices(d: Digest, later: StableId): seq<ViewChange> {
    [ViewChange(1, 1, [later], [], [], 0),
     ViewChange(1, 0, [BASE], [PQ(1, d, 0)], [PQ(1, d, 0)], 1),
     ViewChange(1, 0, [BASE, later], [PQ(1, d, 0)], [PQ(1, d, 0)], 2),
     ViewChange(1, 0, [BASE], [], [], 3)]
  }

  lemma OpenVoicesStartAtBase(d: Digest, later: StableId)
    requires later.seqNo == 1
    ensures InitialCheckpoint(FOUR, OpenVoices(d, later), BASE)
  {
    var vset := OpenVoices(d, later);
    forall c ensures Qualifies(FOUR, vset, c) <==> c == BASE {
      OneOrTwoEntries(BASE, later, c);
      OneOrTwoEntries(later, later, c);
      TallyOfFour(vset, CarryWeight(c));
      TallyOfFour(vset, LowCarryWeight(c));
    }
  }

  /** The second and the third voice tell of d at number 1, the others of nothing. */
  ghost predicate TwoTell(vset: seq<ViewChange>, d: Digest) {
    && |vset| == 4 && vset[1].h == vset[2].h == vset[3].h == 0
    && vset[0].pset == [] && vset[0].qset == [] && vset[3].pset == [] && vset[3].qset == []
    && vset[1].pset == [PQ(1, d, 0)] && vset[1].qset == [PQ(1, d, 0)]
    && vset[2].pset == [PQ(1, d, 0)] && vset[2].qset == [PQ(1, d, 0)]
  }

  lemma TwoTellEntries(vset: seq<ViewChange>, d: Digest)
    requires TwoTell(vset, d)
    ensures PEntries(vset) == [PQ(1, d, 0), PQ(1, d, 0)]
  {
    assert vset[..3][..2] == vset[..2] && vset[..2][..1] == vset[..1] && vset[..1][..0] == [];
    assert PEntries(vset[..1]) == [];
    assert PEntries(vset[..2]) == [PQ(1, d, 0)];
    assert PEntries(vset[..3]) == [PQ(1, d, 0), PQ(1, d, 0)];
  }

  lemma TwoTellPass(vset: seq<ViewChange>, d: Digest, n: nat)
    requires TwoTell(vset, d) && n > 0
    ensures Passes(FOUR, vset, n, PQ(1, d, 0)) <==> n == 1
  {
    var em := PQ(1, d, 0);
    TallyOfFour(vset, A1Weight(n, em));
    TallyOfFour(vset, A2Weight(n, em));
    assert [em][..0] == [];
    assert QCount([em], n, em) == if n == 1 then 1 else 0;
  }

  lemma TwoTellSelect(vset: seq<ViewChange>, d: Digest, n: nat)
    requires TwoTell(vset, d) && n > 0
    ensures Select(FOUR, vset, n) == if n == 1 then Chosen(d) else NullRequest
  {
    TwoTellEntries(vset, d);
    TwoTellPass(vset, d, n);
    if n == 1 {
      SelectFirst(FOUR, vset, n, 0);
    } else {
      TallyOfFour(vset, NullWeight(n));
      SelectNone(FOUR, vset, n);
    }
  }

  /** Two such voices are enough for X to give number 1 to d. */
  lemma TwoTellAssignment(vset: seq<ViewChange>, d: Digest)
    requires TwoTell(vset, d)
    ensures Assignment(FOUR, vset, 0) == Some(map[1 := d])
  {
    forall n | 0 < n ensures Select(FOUR, vset, n) == if n == 1 then Chosen(d) else NullRequest { TwoTellSelect(vset, d, n); }
    OnlyOneChosen(vset, d);
  }

  lemma OnlyOneChosen(vset: seq<ViewChange>, d: Digest)
    requires Select(FOUR, vset, 1) == Chosen(d) && forall n | 1 < n :: Select(FOUR, vset, n) == NullRequest
    ensures Assignment(FOUR, vset, 0) == Some(map[1 := d])
  {
    assert LastChosen(FOUR, vset, 0, 2) == 1;
    assert !SomeStuck(FOUR, vset, 0, FOUR.L);
    var x := Assignment(FOUR, vset, 0).value;
    assert x.Keys == {1} && x[1] == DigestOf(Select(FOUR, vset, 1));
    assert x == map[1 := d];
  }

  /** A watermark past the number does no harm as long as A1 and A2 are met. */
  lemma CommittedRequestKept(d: Digest, later: StableId)
    requires later.seqNo == 1
    ensures var vset := OpenVoices(d, later);
            && WellFormedVset(FOUR, 1, vset) && (exists m | m in vset :: m.h >= 1)
            && InitialCheckpoint(FOUR, vset, BASE) && !LeftNull(FOUR, vset, 1)
            && Assignment(FOUR, vset, 0) == Some(map[1 := d])
  {
    var vset := OpenVoices(d, later);
    OpenVoicesStartAtBase(d, later);
    TwoTellEntries(vset, d);
    TwoTellPass(vset, d, 1);
    assert PQ(1, d, 0) in PEntries(vset) by { assert PEntries(vset)[0] == PQ(1, d, 0); }
    assert EntryPasses(FOUR, vset, 1, PQ(1, d, 0));
    assert vset[0] in vset;
    TwoTellAssignment(vset, d);
  }

  // -------------------------------------------------- one replica's two voices

  /** Replica 1 is heard twice, for view 2 and for view 3; replicas 0 and 2 know of nothing. */
  function DoubledVoices(d: Digest): seq<ViewChange> {
    [ViewChange(2, 0, [BASE], [], [], 0),
     ViewChange(2, 0, [BASE], [PQ(1, d, 0)], [PQ(1, d, 0)], 1),
     ViewChange(3, 0, [BASE], [PQ(1, d, 0)], [PQ(1, d, 0)], 1),
     ViewChange(2, 0, [BASE], [], [], 2)]
  }

  lemma DoubledStartAtBase(d: Digest)
    ensures InitialCheckpoint(FOUR, DoubledVoices(d), BASE)
  {
    var vset := DoubledVoices(d);
    forall c ensures Qualifies(FOUR, vset, c) <==> c == BASE {
      OneOrTwoEntries(BASE, BASE, c);
      TallyOfFour(vset, CarryWeight(c));
      TallyOfFour(vset, LowCarryWeight(c));
    }
  }

  /** A V set in which the two view-changes of one replica meet A2: every view-change in it is
      acceptable by itself, and only replica 1 tells of d, and yet X gives number 1 to d. */
  lemma DoubledVoiceDecides(d: Digest)
    ensures var vset := DoubledVoices(d);
            && !DistinctReplicas(vset) && (forall m | m in vset && m.replicaId != 1 :: m.pset == [] && m.qset == [])
            && (forall m | m in vset :: NoRepeats(m.cset) && OnePerDigest(m.qset))
            && InitialCheckpoint(FOUR, vset, BASE) && Assignment(FOUR, vset, 0) == Some(map[1 := d])
  {
    var vset := DoubledVoices(d);
    assert vset[1].replicaId == vset[2].replicaId;
    DoubledStartAtBase(d);
    TwoTellAssignment(vset, d);
  }

  // --------------------------------------------------- one voice three times

  /** The same view-change of replica 1 three times. */
  function TripledVoice(c: StableId): seq<ViewChange> {
    var m := ViewChange(1, c.seqNo, [c], [], [], 1);
    [m, m, m]
  }

  lemma TallyOfThree(vset: seq<ViewChange>, weight: ViewChange -> nat)
    requires |vset| == 3
    ensures Votes(vset, weight) == weight(vset[0]) + weight(vset[1]) + weight(vset[2])
  {
    assert vset[..2][..1] == vset[..1] && vset[..1][..0] == [];
    assert Votes(vset[..1], weight) == weight(vset[0]);
    assert Votes(vset[..2], weight) == weight(vset[0]) + weight(vset[1]);
  }

  lemma TripledStartsAt(c: StableId)
    ensures InitialCheckpoint(FOUR, TripledVoice(c), c)
  {
    var vset := TripledVoice(c);
    forall e ensures Qualifies(FOUR, vset, e) <==> e == c {
      OneOrTwoEntries(c, c, e);
      TallyOfThree(vset, CarryWeight(e));
      TallyOfThree(vset, LowCarryWeight(e));
    }
  }

  lemma TripledNull(c: StableId, n: nat)
    ensures Select(FOUR, TripledVoice(c), n) == NullRequest
  {
    var vset := TripledVoice(c);
    assert vset[..2][..1] == vset[..1] && vset[..1][..0] == [];
    assert PEntries(vset[..1]) == [];
    assert PEntries(vset[..2]) == [];
    assert PEntries(vset) == PEntries(vset[..2]) + vset[2].pset;
    TallyOfThree(vset, NullWeight(n));
    SelectNone(FOUR, vset, n);
  }

  /** So one replica alone can make a V set from which a view starts at any checkpoint. */
  lemma TripledVoiceDecides(c: StableId)
    ensures InitialCheckpoint(FOUR, TripledVoice(c), c) && Assignment(FOUR, TripledVoice(c), c.seqNo) == Some(map[c.seqNo + 1 := Null])
  {
    TripledStartsAt(c);
    forall n | c.seqNo < n ensures Select(FOUR, TripledVoice(c), n) == NullRequest { TripledNull(c, n); }
    OnlyNull(TripledVoice(c), c.seqNo);
  }
}
