/** Where V sets come from: what the view-changes of correct replicas look like, when the V set that a
    primary sends is well formed, and from which checkpoint the replicas then start. */
module NewViewSources {
  import opened PbftTypes
  import opened Quorums
  import opened NewViewSelection
  import opened NewViewSafety
  import opened ReplicaModel
  import opened ReplicaInvariant
  import opened PbftSystem
  import opened SystemInvariant
  import opened SystemRuns
  import opened CrossViewSafety
  import opened CheckpointSafety

  // ------------------------------------------------ lists without repetition

  ghost function KeysOf<T, K>(l: seq<T>, key: T -> K): set<K> { set x | x in l :: key(x) }

  ghost predicate KeyedOnce<T, K>(l: seq<T>, key: T -> K) {
    forall i, j | 0 <= i < j < |l| :: key(l[i]) != key(l[j])
  }

  /** A list has as many keys as entries exactly if no two entries share a key. */
  lemma {:induction false} KeyedOnceIff<T, K>(l: seq<T>, key: T -> K)
    ensures |KeysOf(l, key)| <= |l|
    ensures |KeysOf(l, key)| == |l| <==> KeyedOnce(l, key)
  {
    if l == [] {
      assert KeysOf(l, key) == {};
    } else {
      KeyedOnceIff(l[..|l| - 1], key);
      KeysInit(l, key);
      KeyedOnceInit(l, key);
    }
  }

  lemma KeysInit<T, K>(l: seq<T>, key: T -> K)
    requires l != []
    ensures KeysOf(l, key) == KeysOf(l[..|l| - 1], key) + {key(l[|l| - 1])}
  {
    assert l == l[..|l| - 1] + [l[|l| - 1]];
  }

  lemma KeyedOnceInit<T, K>(l: seq<T>, key: T -> K)
    requires l != []
    ensures KeyedOnce(l, key) <==> KeyedOnce(l[..|l| - 1], key) && key(l[|l| - 1]) !in KeysOf(l[..|l| - 1], key)
  {
    var k := |l| - 1;
    var init := l[..k];
    assert forall i | 0 <= i < k :: init[i] == l[i];
    if key(l[k]) in KeysOf(init, key) {
      var x :| x in init && key(x) == key(l[k]);
      var i :| 0 <= i < k && init[i] == x;
      assert key(l[i]) == key(l[k]);
    } else {
      forall i | 0 <= i < k ensures key(l[i]) != key(l[k]) { assert init[i] in init; }
    }
  }

  // -------------------------------------- view-changes of correct replicas

  /** No repeated C entry, one id per number in C, one Q entry per number and digest. */
  ghost predicate Tidy(vc: ViewChange) { NoRepeats(vc.cset) && OneIdPerNumber(vc) && OnePerDigest(vc.qset) }

  lemma AnnouncedCset(s: ReplicaState, vc: ViewChange)
    requires Announces(s, vc)
    ensures NoRepeats(vc.cset) && OneIdPerNumber(vc)
  {
    var key := (c: StableId) => c.seqNo;
    assert KeysOf(vc.cset, key) == s.chkpts.Keys by {
      forall n | n in s.chkpts ensures n in KeysOf(vc.cset, key) { assert key(StableId(n, s.chkpts[n])) == n; }
    }
    KeyedOnceIff(vc.cset, key);
    forall i, j | 0 <= i < j < |vc.cset| ensures vc.cset[i] != vc.cset[j] { assert key(vc.cset[i]) != key(vc.cset[j]); }
  }

  lemma AnnouncedQset(cfg: Config, s: ReplicaState, vc: ViewChange)
    requires QsetOk(cfg, s) && Announces(s, vc)
    ensures OnePerDigest(vc.qset)
  {
    var key := (q: PQ) => QIdx(q.digest, q.seqNo);
    assert KeysOf(vc.qset, key) == s.qset.Keys by {
      forall k | k in s.qset ensures k in KeysOf(vc.qset, key) { assert key(s.qset[k]) == k; }
    }
    KeyedOnceIff(vc.qset, key);
    forall i, j | 0 <= i < j < |vc.qset|
      ensures vc.qset[i].seqNo != vc.qset[j].seqNo || vc.qset[i].digest != vc.qset[j].digest
    {
      assert key(vc.qset[i]) != key(vc.qset[j]);
    }
  }

  ghost predicate ViewChangesTidy(w: World, net: set<Message>) {
    forall vc | MViewChange(vc) in net && w.Correct(vc.replicaId) :: Tidy(vc)
  }

  lemma SentTidy(cfg: Config, s: ReplicaState, vc: ViewChange)
    requires cfg.Valid() && LocalInv(cfg, s) && Enabled(cfg, s, ASendViewChange(vc))
    ensures Tidy(vc)
  {
    ActionKeeps(cfg, s, ASendViewChange(vc));
    var s' := SendViewChange(cfg, s, vc.view);
    AnnouncedCset(s', vc);
    AnnouncedQset(cfg, s', vc);
  }

  lemma TidyStep(w: World, y: Sys, r: nat, a: Action)
    requires w.Valid() && SysInv(w, y) && ViewChangesTidy(w, y.net) && CanStep(w, y, r, a)
    ensures ViewChangesTidy(w, y.net + Sent(w.cfg, y.replicas[r], a))
  {
    var sent := Sent(w.cfg, y.replicas[r], a);
    assert ReplicaInv(w, y, r);
    forall vc | MViewChange(vc) in y.net + sent && w.Correct(vc.replicaId) ensures Tidy(vc) {
      if MViewChange(vc) in sent {
        assert a == ASendViewChange(vc);
        SentTidy(w.cfg, y.replicas[r], vc);
      }
    }
  }

  lemma FaultyTidy(w: World, y: Sys, m: Message, y': Sys)
    requires w.Valid() && ViewChangesTidy(w, y.net) && FaultyNext(w, y, m, y')
    ensures ViewChangesTidy(w, y'.net)
  {
    forall vc | MViewChange(vc) in y'.net && w.Correct(vc.replicaId) ensures MViewChange(vc) in y.net {
      assert m.Sender() in w.faulty && MViewChange(vc).Sender() == vc.replicaId;
    }
  }

  lemma TidyNext(w: World, run: seq<Sys>, i: nat)
    requires w.Valid() && IsRun(w, run) && i + 1 < |run| && ViewChangesTidy(w, run[i].net)
    ensures ViewChangesTidy(w, run[i + 1].net)
  {
    var y, y' := run[i], run[i + 1];
    RunInv(w, run, i);
    assert StepAt(w, run, i);
    if m :| FaultyNext(w, y, m, y') {
      FaultyTidy(w, y, m, y');
    } else {
      var r, a :| LocalNext(w, y, r, a, y');
      TidyStep(w, y, r, a);
    }
  }

  lemma {:induction false} RunTidy(w: World, run: seq<Sys>, i: nat)
    requires w.Valid() && IsRun(w, run) && i < |run|
    ensures ViewChangesTidy(w, run[i].net)
  {
    if i > 0 {
      RunTidy(w, run, i - 1);
      TidyNext(w, run, i - 1);
    }
  }

  // ------------------------------------------------------ well-formed V sets

  ghost predicate Unrepeated(m: ViewChange) { NoRepeats(m.cset) && OnePerDigest(m.qset) }

  /** So of what well-formedness asks, correct replicas satisfy their part: a V set with genuine
      signatures is well formed if and only if no replica is in it twice, no view-change is for an
      earlier view, and those of the faulty replicas repeat no entry. */
  lemma IssuedWellFormedIff(w: World, run: seq<Sys>, i: nat, nv: NewView)
    requires w.Valid() && IsRun(w, run) && i < |run| && Issued(w, run, i, nv)
    ensures WellFormedVset(w.cfg, nv.view, nv.vset) <==>
            && DistinctReplicas(nv.vset) && (forall m | m in nv.vset :: m.view >= nv.view)
            && (forall m | m in nv.vset && m.replicaId in w.faulty :: Unrepeated(m))
  {
    RunInv(w, run, i);
    RunTidy(w, run, i);
    forall m | m in nv.vset ensures m.replicaId < w.cfg.N && (m.replicaId !in w.faulty ==> Unrepeated(m)) {
      if m.replicaId !in w.faulty { assert MViewChange(m).Sender() < w.cfg.N && Tidy(m); }
    }
  }

  /** No replica's view-change is stored for two views. */
  ghost predicate OneViewEach(store: map<VCIdx, ViewChange>) {
    forall k, l | k in store && l in store && k.id == l.id :: k == l
  }

  /** The V set holds every stored view-change exactly once. */
  lemma OwnVsetKeys(cfg: Config, s: ReplicaState, nv: NewView, cp: StableId, key: ViewChange -> VCIdx)
    requires cfg.Valid() && StoresOk(cfg, s) && CanSendNewView(cfg, s, nv, cp)
    requires forall m :: key(m) == VCIdx(m.view, m.replicaId)
    ensures KeyedOnce(nv.vset, key)
  {
    assert KeysOf(nv.vset, key) == s.viewChangeStore.Keys by {
      forall k | k in s.viewChangeStore ensures k in KeysOf(nv.vset, key) { assert key(s.viewChangeStore[k]) == k; }
    }
    KeyedOnceIff(nv.vset, key);
  }

  /** getViewChanges returns the view-changes for all views. Nobody is in the V set of a primary twice
      if and only if nobody's view-changes are stored for two views. */
  lemma OwnVsetDistinctIff(cfg: Config, s: ReplicaState, nv: NewView, cp: StableId)
    requires cfg.Valid() && StoresOk(cfg, s) && CanSendNewView(cfg, s, nv, cp)
    ensures DistinctReplicas(nv.vset) <==> OneViewEach(s.viewChangeStore)
  {
    var store := s.viewChangeStore;
    var key := (m: ViewChange) => VCIdx(m.view, m.replicaId);
    OwnVsetKeys(cfg, s, nv, cp, key);
    if DistinctReplicas(nv.vset) {
      forall k, l | k in store && l in store && k.id == l.id ensures k == l {
        var i :| 0 <= i < |nv.vset| && nv.vset[i] == store[k];
        var j :| 0 <= j < |nv.vset| && nv.vset[j] == store[l];
        assert i == j;
      }
    }
    if OneViewEach(store) {
      forall i, j | 0 <= i < j < |nv.vset| ensures nv.vset[i].replicaId != nv.vset[j].replicaId {
        assert key(nv.vset[i]) != key(nv.vset[j]);
        assert key(nv.vset[i]) in store && key(nv.vset[j]) in store;
      }
    }
  }

  /** In a run, the V set a correct primary sends is well formed if and only if that holds and the
      stored view-changes of faulty replicas repeat no entry. */
  lemma OwnVsetWellFormedIff(w: World, run: seq<Sys>, i: nat, r: nat, nv: NewView, cp: StableId)
    requires w.Valid() && IsRun(w, run) && i < |run| && CanStep(w, run[i], r, ASendNewView(nv, cp))
    ensures var store := run[i].replicas[r].viewChangeStore;
            WellFormedVset(w.cfg, nv.view, nv.vset) <==>
            OneViewEach(store) && forall k | k in store && k.id in w.faulty :: Unrepeated(store[k])
  {
    var s := run[i].replicas[r];
    RunInv(w, run, i);
    assert ReplicaInv(w, run[i], r);
    IssuedWellFormedIff(w, run, i, nv);
    OwnVsetDistinctIff(w.cfg, s, nv, cp);
    OwnVsetMembers(w.cfg, w.faulty, s, nv, cp);
  }

  lemma OwnVsetMembers(cfg: Config, faulty: set<nat>, s: ReplicaState, nv: NewView, cp: StableId)
    requires cfg.Valid() && StoresOk(cfg, s) && CanSendNewView(cfg, s, nv, cp)
    ensures forall m | m in nv.vset :: m.view >= nv.view
    ensures (forall m | m in nv.vset && m.replicaId in faulty :: Unrepeated(m)) <==>
            forall k | k in s.viewChangeStore && k.id in faulty :: Unrepeated(s.viewChangeStore[k])
  {
  }

  // --------------------------------------------------- where a view starts

  /** The correct replicas that have sent the checkpoint; all have the one at number 0. */
  ghost function Backers(w: World, net: set<Message>, c: StableId): set<nat> {
    set k | k in Replicas(w.cfg.N) && w.Correct(k) && (c.seqNo == 0 || MCheckpoint(Checkpoint(c.seqNo, k, c.id)) in net)
  }

  /** selectInitialCheckpoint finds the same checkpoint for everyone in any map order, and more than f
      correct replicas have sent it. */
  lemma StartingPointUnique(w: World, run: seq<Sys>, i: nat, nv: NewView, c: StableId, d: StableId)
    requires w.Valid() && IsRun(w, run) && i < |run| && Issued(w, run, i, nv) && WellFormedVset(w.cfg, nv.view, nv.vset)
    requires InitialCheckpoint(w.cfg, nv.vset, c) && InitialCheckpoint(w.cfg, nv.vset, d)
    ensures c == d && |Backers(w, run[i].net, c)| > w.cfg.f
  {
    RunTidy(w, run, i);
    InitialCheckpointUnique(w.cfg, w.faulty, nv.view, nv.vset, c, d);
    QualifiesIffQuorum(w.cfg, nv.view, nv.vset, c);
    CorrectCarriersBack(w, run, i, nv, c);
  }

  lemma CorrectCarriersBack(w: World, run: seq<Sys>, i: nat, nv: NewView, c: StableId)
    requires w.Valid() && IsRun(w, run) && i < |run| && Issued(w, run, i, nv) && Carriers(nv.vset, c) <= Replicas(w.cfg.N)
    ensures |Carriers(nv.vset, c) - w.faulty| <= |Backers(w, run[i].net, c)|
  {
    RunAttested(w, run, i);
    forall k | k in Carriers(nv.vset, c) - w.faulty ensures k in Backers(w, run[i].net, c) {
      var m :| m in nv.vset && m.h <= c.seqNo && c in m.cset && m.replicaId == k;
      assert CsetAttested(run[i].net, m);
    }
    SubsetSize(Carriers(nv.vset, c) - w.faulty, Backers(w, run[i].net, c));
  }

  /** The new-view came from its primary, was checked, and its signatures are genuine. */
  ghost predicate Genuine(w: World, net: set<Message>, nv: NewView, cp: StableId)
    requires w.Valid()
  {
    && MNewView(nv) in net && nv.replicaId == w.cfg.Primary(nv.view) && NewViewOk(w.cfg, nv, cp)
    && forall m | m in nv.vset :: Authentic(w, net, m)
  }

  ghost predicate AcceptedGenuine(w: World, y: Sys, net: set<Message>)
    requires w.Valid()
  {
    forall a | a in y.accepted :: Genuine(w, net, a.nv, a.cp)
  }

  lemma EnteredGenuine(w: World, y: Sys, r: nat, cp: StableId)
    requires w.Valid() && SysInv(w, y) && CanStep(w, y, r, AEnterView(cp))
    ensures Genuine(w, y.net, y.replicas[r].newViewStore[y.replicas[r].view], cp)
  {
    assert ReplicaInv(w, y, r);
  }

  lemma AcceptedStep(w: World, y: Sys, r: nat, a: Action)
    requires w.Valid() && SysInv(w, y) && AcceptedGenuine(w, y, y.net) && CanStep(w, y, r, a)
    ensures AcceptedGenuine(w, Stepped(w, y, r, a), y.net)
  {
    if a.AEnterView? {
      EnteredGenuine(w, y, r, a.cp);
    }
  }

  lemma AcceptedMore(w: World, y: Sys, net: set<Message>, net': set<Message>)
    requires w.Valid() && AcceptedGenuine(w, y, net) && net <= net'
    ensures AcceptedGenuine(w, y, net')
  {
    forall a | a in y.accepted ensures Genuine(w, net', a.nv, a.cp) {
      assert Genuine(w, net, a.nv, a.cp);
    }
  }

  lemma AcceptedNext(w: World, run: seq<Sys>, i: nat)
    requires w.Valid() && IsRun(w, run) && i + 1 < |run| && AcceptedGenuine(w, run[i], run[i].net)
    ensures AcceptedGenuine(w, run[i + 1], run[i + 1].net)
  {
    var y, y' := run[i], run[i + 1];
    RunInv(w, run, i);
    assert StepAt(w, run, i);
    if m :| FaultyNext(w, y, m, y') {
    } else {
      var r, a :| LocalNext(w, y, r, a, y');
      AcceptedStep(w, y, r, a);
    }
    AcceptedMore(w, y', y.net, y'.net);
  }

  lemma {:induction false} RunAccepted(w: World, run: seq<Sys>, i: nat)
    requires w.Valid() && IsRun(w, run) && i < |run|
    ensures AcceptedGenuine(w, run[i], run[i].net)
  {
    if i > 0 {
      RunAccepted(w, run, i - 1);
      AcceptedNext(w, run, i - 1);
    }
  }

  /** Correct replicas that enter a view with one new-view whose V set is well formed start from the
      same checkpoint. */
  lemma ViewsStartAlike(w: World, run: seq<Sys>, i: nat, a: Acceptance, b: Acceptance)
    requires w.Valid() && IsRun(w, run) && i < |run| && a in run[i].accepted && b in run[i].accepted
    requires a.nv == b.nv && WellFormedVset(w.cfg, a.nv.view, a.nv.vset)
    ensures a.cp == b.cp && |Backers(w, run[i].net, a.cp)| > w.cfg.f
  {
    RunAccepted(w, run, i);
    assert Genuine(w, run[i].net, a.nv, a.cp) && Genuine(w, run[i].net, b.nv, b.cp);
    StartingPointUnique(w, run, i, a.nv, a.cp, b.cp);
  }

  /** With a correct primary they do enter it with one new-view. */
  lemma OneNewViewOfCorrectPrimary(w: World, run: seq<Sys>, i: nat, a: Acceptance, b: Acceptance)
    requires w.Valid() && IsRun(w, run) && i < |run| && a in run[i].accepted && b in run[i].accepted
    requires a.nv.view == b.nv.view && w.Correct(w.cfg.Primary(a.nv.view))
    ensures a.nv == b.nv
  {
    RunAccepted(w, run, i);
    assert Genuine(w, run[i].net, a.nv, a.cp) && Genuine(w, run[i].net, b.nv, b.cp);
    RunInv(w, run, i);
    assert OneNewViewEach(w, run[i].net);
  }

  // -------------------------------------------------------- what X contains

  ghost predicate HeldByCorrect(w: World, y: Sys, n: nat, d: Digest) {
    exists r: nat, v: nat :: w.Correct(r) && Proposal(r, v, n, d) in y.held
  }

  lemma PassingIsHeld(w: World, run: seq<Sys>, i: nat, nv: NewView, n: nat, em: PQ)
    requires w.Valid() && IsRun(w, run) && i < |run| && Issued(w, run, i, nv) && WellFormedVset(w.cfg, nv.view, nv.vset)
    requires Passes(w.cfg, nv.vset, n, em)
    ensures HeldByCorrect(w, run[i], n, em.digest)
  {
    var m, q := CorrectWitness(w.cfg, w.faulty, nv.view, nv.vset, n, em);
    RunInv(w, run, i);
    assert ViewChangeSourced(w.cfg, run[i].net, run[i].held, m);
    assert Proposal(m.replicaId, q.view, n, em.digest) in run[i].held;
  }

  /** A new view invents nothing: with a well-formed V set, what X gives to a number is the null
      request or was proposed for that number before a correct replica. */
  lemma NewViewInventsNothing(w: World, run: seq<Sys>, i: nat, nv: NewView, cp: StableId, n: nat)
    requires w.Valid() && IsRun(w, run) && i < |run| && Issued(w, run, i, nv) && WellFormedVset(w.cfg, nv.view, nv.vset)
    requires NewViewOk(w.cfg, nv, cp) && n in nv.xset
    ensures nv.xset[n] == Null || HeldByCorrect(w, run[i], n, nv.xset[n])
  {
    if Select(w.cfg, nv.vset, n).Chosen? {
      SelectMeaning(w.cfg, nv.vset, n);
      var em :| EntryPasses(w.cfg, nv.vset, n, em) && em.digest == nv.xset[n];
      PassingIsHeld(w, run, i, nv, n, em);
    }
  }
}
