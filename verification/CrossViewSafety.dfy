/** Agreement across view changes. */
module CrossViewSafety {
  import opened PbftTypes
  import opened Quorums
  import opened NewViewSelection
  import opened NewViewSafety
  import opened ReplicaModel
  import opened ReplicaInvariant
  import opened PbftSystem
  import opened SystemInvariant
  import opened SystemRuns
  import opened PbftSafety

  // ------------------------------------------------------------- hypotheses

  /** What the code does not check on a new-view, for number n: its V set is well formed, and if
      the view starts below n then every view-change whose low watermark has reached n still lists
      n in P, or at least n is not left to the null request. */
  ghost predicate GoodStart(cfg: Config, a: Acceptance, n: nat) {
    && WellFormedVset(cfg, a.nv.view, a.nv.vset)
    && (a.cp.seqNo >= n || NoneForgets(a.nv.vset, n) || !LeftNull(cfg, a.nv.vset, n))
  }

  /** Where the code's null rule and the protocol's agree. */
  ghost predicate NoneForgets(vset: seq<ViewChange>, n: nat) {
    forall m | m in vset && m.h >= n :: !NoPEntry(m, n)
  }

  /** All views after v that correct replicas entered were good starts, and every view-change they
      sent was built while the proposed requests were still stored. */
  ghost predicate GoodViews(w: World, y: Sys, v: nat, n: nat) {
    y.retained && forall a | a in y.accepted && a.nv.view > v :: GoodStart(w.cfg, a, n)
  }

  /** The earlier of two views. */
  function FirstOf(v: nat, u: nat): nat { if v < u then v else u }

  // ------------------------------------------------- entered views are recorded

  ghost predicate Recorded(cfg: Config, accepted: set<Acceptance>, s: ReplicaState) {
    s.activeView && s.view > 0 ==>
      exists cp :: EnteredWith(cfg, s, cp) && Acceptance(s.id, s.newViewStore[s.view], cp) in accepted
  }

  ghost predicate AllRecorded(w: World, y: Sys) {
    |y.replicas| == w.cfg.N && forall r: nat | w.Correct(r) :: Recorded(w.cfg, y.accepted, y.replicas[r])
  }

  lemma RecordedMore(cfg: Config, accepted: set<Acceptance>, more: set<Acceptance>, s: ReplicaState)
    requires Recorded(cfg, accepted, s) && accepted <= more
    ensures Recorded(cfg, more, s)
  {
    if s.activeView && s.view > 0 {
      var cp :| EnteredWith(cfg, s, cp) && Acceptance(s.id, s.newViewStore[s.view], cp) in accepted;
      assert Acceptance(s.id, s.newViewStore[s.view], cp) in more;
    }
  }

  lemma MoverRecorded(w: World, y: Sys, r: nat, a: Action)
    requires w.Valid() && SysInv(w, y) && AllRecorded(w, y) && CanStep(w, y, r, a)
    ensures Recorded(w.cfg, Stepped(w, y, r, a).accepted, Stepped(w, y, r, a).replicas[r])
  {
    var s, y' := y.replicas[r], Stepped(w, y, r, a);
    var s' := y'.replicas[r];
    assert ReplicaInv(w, y, r) && Recorded(w.cfg, y.accepted, s);
    InputsOk(w, y, r, a);
    if a.AEnterView? {
      EnterViewKeeps(w.cfg, s, a.cp);
      assert EnteredWith(w.cfg, s', a.cp) && Acceptance(s'.id, s'.newViewStore[s'.view], a.cp) in y'.accepted;
    } else {
      StayerRecorded(w.cfg, y.accepted, s, a);
    }
  }

  lemma StayerRecorded(cfg: Config, accepted: set<Acceptance>, s: ReplicaState, a: Action)
    requires cfg.Valid() && LocalInv(cfg, s) && Enabled(cfg, s, a) && InputOk(s, a) && !a.AEnterView?
    requires Recorded(cfg, accepted, s)
    ensures Recorded(cfg, accepted, Apply(cfg, s, a))
  {
    ActionKeeps(cfg, s, a);
    if !a.ASendViewChange? && s.activeView && s.view > 0 {
      var cp :| EnteredWith(cfg, s, cp) && Acceptance(s.id, s.newViewStore[s.view], cp) in accepted;
      EnteredWithStays(cfg, s, Apply(cfg, s, a), cp);
    }
  }

  lemma RecordedStep(w: World, y: Sys, r: nat, a: Action)
    requires w.Valid() && SysInv(w, y) && AllRecorded(w, y) && CanStep(w, y, r, a)
    ensures AllRecorded(w, Stepped(w, y, r, a))
  {
    MoverRecorded(w, y, r, a);
    var y' := Stepped(w, y, r, a);
    forall q: nat | w.Correct(q) ensures Recorded(w.cfg, y'.accepted, y'.replicas[q]) {
      if q != r {
        RecordedMore(w.cfg, y.accepted, y'.accepted, y.replicas[q]);
      }
    }
  }

  lemma RecordedNext(w: World, run: seq<Sys>, i: nat)
    requires w.Valid() && IsRun(w, run) && i + 1 < |run| && AllRecorded(w, run[i])
    ensures AllRecorded(w, run[i + 1])
  {
    var y, y' := run[i], run[i + 1];
    RunInv(w, run, i);
    assert StepAt(w, run, i);
    if m :| FaultyNext(w, y, m, y') {
      forall r: nat | w.Correct(r) ensures Recorded(w.cfg, y'.accepted, y'.replicas[r]) {
        assert Recorded(w.cfg, y.accepted, y.replicas[r]);
      }
    } else {
      var r, a :| LocalNext(w, y, r, a, y');
      RecordedStep(w, y, r, a);
    }
  }

  lemma {:induction false} RunRecorded(w: World, run: seq<Sys>, i: nat)
    requires w.Valid() && IsRun(w, run) && i < |run|
    ensures AllRecorded(w, run[i])
  {
    if i > 0 {
      RunRecorded(w, run, i - 1);
      RecordedNext(w, run, i - 1);
    }
  }

  // ------------------------------------------- the X set keeps what committed

  /** In the state y every pre-prepare a correct replica ever held at n in a view after v is for d. */
  ghost predicate Settled(w: World, y: Sys, v: nat, n: nat, d: Digest) {
    forall p | p in y.held && w.Correct(p.r) && p.n == n && p.v > v :: p.d == d
  }

  /** d has a commit certificate at (v, n) in the end of the run. */
  ghost predicate Decided(w: World, run: seq<Sys>, v: nat, n: nat, d: Digest)
    requires w.Valid()
  {
    && IsRun(w, run)
    && CommittedCert(w.cfg, run[|run| - 1].net, v, n, d) && GoodViews(w, run[|run| - 1], v, n)
  }

  /** What the end of the run says about a correct replica's view-change for a view after v. */
  lemma ReportOfCommitter(w: World, run: seq<Sys>, m: ViewChange, v: nat, n: nat, d: Digest)
    requires w.Valid() && Decided(w, run, v, n, d)
    requires w.Correct(m.replicaId) && MViewChange(m) in run[|run| - 1].net && m.view > v
    requires m.replicaId in Committers(w.cfg, run[|run| - 1].net, v, n)
    ensures n <= m.h + w.cfg.L
    ensures n <= m.h || exists p :: p in m.pset && p.seqNo == n && p.view >= v
  {
    var fin := run[|run| - 1];
    RunInv(w, run, |run| - 1);
    CommitsMatch(w, fin, v, n, d, m.replicaId);
    var c := Commit(v, n, d, m.replicaId);
    assert MViewChange(m) in fin.net && MCommit(c) in fin.net && c.replicaId == m.replicaId;
    assert Reported(m, c);
  }

  lemma PEntryDigest(w: World, run: seq<Sys>, i: nat, v: nat, n: nat, d: Digest, e: Digest)
    requires w.Valid() && Decided(w, run, v, n, d) && i < |run| && PreparedCert(w.cfg, run[i].net, v, n, e)
    ensures e == d
  {
    var fin := run[|run| - 1];
    RunGrows(w, run, i, |run| - 1);
    CertificatesStay(w.cfg, run[i].net, fin.net, v, n, e);
    CertificatesAgreeAtEnd(w, run, v, n, d, e);
  }

  /** What a correct replica's view-change lists about n is for d. */
  lemma ReportedDigests(w: World, run: seq<Sys>, i: nat, m: ViewChange, v: nat, n: nat, d: Digest)
    requires w.Valid() && Decided(w, run, v, n, d) && i < |run| && Settled(w, run[i], v, n, d)
    requires w.Correct(m.replicaId) && MViewChange(m) in run[i].net
    ensures forall p | p in m.pset && p.seqNo == n && p.view >= v :: p.digest == d
    ensures forall q | q in m.qset && q.seqNo == n && q.view > v :: q.digest == d
  {
    ViewChangeFacts(w, run, i, m);
    forall p | p in m.pset && p.seqNo == n && p.view >= v ensures p.digest == d {
      if p.view == v {
        PEntryDigest(w, run, i, v, n, d, p.digest);
      } else {
        assert Proposal(m.replicaId, p.view, p.seqNo, p.digest) in run[i].held;
      }
    }
    forall q | q in m.qset && q.seqNo == n && q.view > v ensures q.digest == d {
      assert Proposal(m.replicaId, q.view, q.seqNo, q.digest) in run[i].held;
    }
  }

  lemma ViewChangeFacts(w: World, run: seq<Sys>, i: nat, m: ViewChange)
    requires w.Valid() && IsRun(w, run) && i < |run| && w.Correct(m.replicaId) && MViewChange(m) in run[i].net
    ensures ViewChangeSourced(w.cfg, run[i].net, run[i].held, m)
  {
    RunInv(w, run, i);
  }

  /** A new-view whose view-changes were issued by the state run[i]. */
  ghost predicate Issued(w: World, run: seq<Sys>, i: nat, nv: NewView)
    requires i < |run|
  {
    forall m | m in nv.vset :: Authentic(w, run[i].net, m)
  }

  lemma ReportsHold(w: World, run: seq<Sys>, i: nat, nv: NewView, v: nat, n: nat, d: Digest)
    requires w.Valid() && Decided(w, run, v, n, d) && i < |run| && Settled(w, run[i], v, n, d)
    requires Issued(w, run, i, nv) && WellFormedVset(w.cfg, nv.view, nv.vset) && nv.view > v
    ensures ReportsOrPassed(w.faulty, nv.vset, Committers(w.cfg, run[|run| - 1].net, v, n), v, n, d)
  {
    RunGrows(w, run, i, |run| - 1);
    forall m | m in nv.vset && m.replicaId !in w.faulty
      ensures m.replicaId in Committers(w.cfg, run[|run| - 1].net, v, n) ==>
                m.h >= n || exists p :: p in m.pset && p.seqNo == n && p.view >= v
      ensures forall p | p in m.pset && p.seqNo == n && p.view >= v :: p.digest == d
      ensures forall q | q in m.qset && q.seqNo == n && q.view > v :: q.digest == d
    {
      ReportedDigests(w, run, i, m, v, n, d);
      if m.replicaId in Committers(w.cfg, run[|run| - 1].net, v, n) {
        ReportOfCommitter(w, run, m, v, n, d);
      }
    }
  }

  /** The window of the new view reaches every number that may have committed. */
  lemma InWindow(w: World, run: seq<Sys>, i: nat, nv: NewView, cp: StableId, v: nat, n: nat, d: Digest)
    requires w.Valid() && Decided(w, run, v, n, d) && i < |run| && Issued(w, run, i, nv)
    requires WellFormedVset(w.cfg, nv.view, nv.vset) && InitialCheckpoint(w.cfg, nv.vset, cp) && nv.view > v
    ensures n <= cp.seqNo + w.cfg.L
  {
    RunGrows(w, run, i, |run| - 1);
    QualifiesIffQuorum(w.cfg, nv.view, nv.vset, cp);
    var k := QuorumsMeet(w.cfg, w.faulty, Carriers(nv.vset, cp), Committers(w.cfg, run[|run| - 1].net, v, n));
    var m :| m in nv.vset && m.h <= cp.seqNo && m.replicaId == k;
    ReportOfCommitter(w, run, m, v, n, d);
  }

  /** A new-view that a correct replica enters after v, starting below n, assigns d to n. */
  lemma NewViewKeeps(w: World, run: seq<Sys>, i: nat, r: nat, nv: NewView, cp: StableId, v: nat, n: nat, d: Digest)
    requires w.Valid() && Decided(w, run, v, n, d) && i < |run| && Settled(w, run[i], v, n, d)
    requires Issued(w, run, i, nv) && Acceptance(r, nv, cp) in run[|run| - 1].accepted
    requires NewViewOk(w.cfg, nv, cp) && cp.seqNo < n && nv.view > v
    ensures n in nv.xset && nv.xset[n] == d
  {
    assert GoodStart(w.cfg, Acceptance(r, nv, cp), n);
    ReportsHold(w, run, i, nv, v, n, d);
    InWindow(w, run, i, nv, cp, v, n, d);
    NoNullForCommitted(w.cfg, w.faulty, nv.view, nv.vset, Committers(w.cfg, run[|run| - 1].net, v, n), v, n, d);
    AssignmentKeepsCommitted(w.cfg, w.faulty, nv.view, nv.vset, Committers(w.cfg, run[|run| - 1].net, v, n), v, n, d, cp.seqNo);
  }

  // ------------------------------------------------------------ every step

  ghost predicate MakesProposal(a: Action) { a.APropose? || a.AAcceptPrePrepare? || a.AEnterView? }

  /** Only three actions give a certificate a pre-prepare it did not have. */
  lemma HeldBefore(cfg: Config, s: ReplicaState, a: Action, idx: MsgID)
    requires cfg.Valid() && LocalInv(cfg, s) && Enabled(cfg, s, a) && !MakesProposal(a)
    requires idx in Apply(cfg, s, a).certStore && Apply(cfg, s, a).certStore[idx].prePrepare.Some?
    ensures idx in s.certStore && s.certStore[idx].prePrepare == Apply(cfg, s, a).certStore[idx].prePrepare
  {
    if OnWatermark(a) {
      WatermarkCore(cfg, s, a);
    } else if a.ASendPrepare? || a.ASendCommit? || a.AAddPrepare? || a.AAddCommit? {
      FlaggedBefore(cfg, s, a, idx);
    } else if !a.ASendViewChange? {
      assert Apply(cfg, s, a).certStore == s.certStore;
    }
  }

  lemma FlaggedBefore(cfg: Config, s: ReplicaState, a: Action, idx: MsgID)
    requires cfg.Valid() && (a.ASendPrepare? || a.ASendCommit? || a.AAddPrepare? || a.AAddCommit?)
    requires idx in Apply(cfg, s, a).certStore && Apply(cfg, s, a).certStore[idx].prePrepare.Some?
    ensures idx in s.certStore && s.certStore[idx].prePrepare == Apply(cfg, s, a).certStore[idx].prePrepare
  {
  }

  /** processNewView2 only leaves pre-prepares of the X set, above its start. */
  lemma EnterHolds(cfg: Config, s: ReplicaState, cp: StableId, n: nat, e: Digest)
    requires cfg.Valid() && LocalInv(cfg, s) && Checked(cfg, s, cp) && s.h >= cp.seqNo
    requires CertProposes(GetCert(EnterView(cfg, s), s.view, n), s.view, n, e)
    ensures var x := s.newViewStore[s.view].xset; n in x && x[n] == e && n > cp.seqNo
  {
    var nv := s.newViewStore[s.view];
    AssignmentKeys(cfg, nv.vset, cp.seqNo, nv.xset);
    EnterViewCerts(cfg, s, cp);
    assert forall idx | idx in s.certStore :: CertOk(cfg, s, idx, s.certStore[idx]) && s.certStore[idx].prePrepare.None?;
  }

  /** A pre-prepare stored by recvPrePrepare or recvRequest in an entered view was there
      before, or lies above the watermark and does not contradict the view's X set. */
  lemma StoredAgainstX(cfg: Config, s: ReplicaState, a: Action, n: nat, e: Digest)
    requires cfg.Valid() && LocalInv(cfg, s) && Enabled(cfg, s, a) && (a.APropose? || a.AAcceptPrePrepare?)
    requires CertProposes(GetCert(Apply(cfg, s, a), s.view, n), s.view, n, e)
    ensures CertProposes(GetCert(s, s.view, n), s.view, n, e) || (s.activeView && n > s.h)
    ensures forall cp | EnteredWith(cfg, s, cp) && n > s.h ::
              var x := s.newViewStore[s.view].xset; n in x ==> x[n] == e
  {
  }

  lemma EnterSettled(w: World, run: seq<Sys>, i: nat, s: ReplicaState, cp: StableId, v: nat, n: nat, d: Digest, e: Digest)
    requires w.Valid() && Decided(w, run, v, n, d) && i < |run| && Settled(w, run[i], v, n, d)
    requires LocalInv(w.cfg, s) && StoresSourced(w, run[i].net, s) && s.view > v
    requires Checked(w.cfg, s, cp) && s.h >= cp.seqNo
    requires Acceptance(s.id, s.newViewStore[s.view], cp) in run[|run| - 1].accepted
    requires CertProposes(GetCert(EnterView(w.cfg, s), s.view, n), s.view, n, e)
    ensures e == d
  {
    EnterHolds(w.cfg, s, cp, n, e);
    NewViewKeeps(w, run, i, s.id, s.newViewStore[s.view], cp, v, n, d);
  }

  lemma MoverFacts(w: World, run: seq<Sys>, i: nat, r: nat, a: Action)
    requires w.Valid() && IsRun(w, run) && i + 1 < |run| && LocalNext(w, run[i], r, a, run[i + 1])
    ensures r < |run[i].replicas| && r < |run[i + 1].replicas| && run[i].replicas[r].id == r
    ensures run[i + 1].replicas[r] == Apply(w.cfg, run[i].replicas[r], a)
    ensures LocalInv(w.cfg, run[i].replicas[r]) && CertsOk(w.cfg, run[i + 1].replicas[r])
    ensures a.ASendViewChange? || run[i + 1].replicas[r].view == run[i].replicas[r].view
    ensures CertsSourced(w.cfg, run[i].net, run[i].held, run[i].replicas[r]) && StoresSourced(w, run[i].net, run[i].replicas[r])
  {
    var y := run[i];
    RunInv(w, run, i);
    assert ReplicaInv(w, y, r);
    InputsOk(w, y, r, a);
    ActionKeeps(w.cfg, y.replicas[r], a);
  }

  lemma RecordedAtEnd(w: World, run: seq<Sys>, i: nat, r: nat)
    requires w.Valid() && IsRun(w, run) && i < |run| && w.Correct(r) && r < |run[i].replicas|
    ensures Recorded(w.cfg, run[|run| - 1].accepted, run[i].replicas[r])
  {
    RunRecorded(w, run, i);
    RunGrows(w, run, i, |run| - 1);
    RecordedMore(w.cfg, run[i].accepted, run[|run| - 1].accepted, run[i].replicas[r]);
  }

  lemma StoreSettled(w: World, run: seq<Sys>, i: nat, r: nat, a: Action, v: nat, n: nat, d: Digest, e: Digest)
    requires w.Valid() && Decided(w, run, v, n, d) && i < |run| && Settled(w, run[i], v, n, d)
    requires w.Correct(r) && r < |run[i].replicas| && run[i].replicas[r].id == r && run[i].replicas[r].view > v
    requires LocalInv(w.cfg, run[i].replicas[r]) && StoresSourced(w, run[i].net, run[i].replicas[r])
    requires Enabled(w.cfg, run[i].replicas[r], a) && (a.APropose? || a.AAcceptPrePrepare?)
    requires var s := run[i].replicas[r]; CertProposes(GetCert(Apply(w.cfg, s, a), s.view, n), s.view, n, e)
    ensures var s := run[i].replicas[r]; CertProposes(GetCert(s, s.view, n), s.view, n, e) || e == d
  {
    var s := run[i].replicas[r];
    StoredAgainstX(w.cfg, s, a, n, e);
    if !CertProposes(GetCert(s, s.view, n), s.view, n, e) {
      RecordedAtEnd(w, run, i, r);
      var cp :| EnteredWith(w.cfg, s, cp) && Acceptance(r, s.newViewStore[s.view], cp) in run[|run| - 1].accepted;
      NewViewKeeps(w, run, i, r, s.newViewStore[s.view], cp, v, n, d);
    }
  }

  lemma EnteringAccepts(w: World, y: Sys, r: nat, cp: StableId, y': Sys)
    requires w.Valid() && LocalNext(w, y, r, AEnterView(cp), y')
    ensures y.replicas[r].view in y.replicas[r].newViewStore
    ensures Acceptance(r, y.replicas[r].newViewStore[y.replicas[r].view], cp) in y'.accepted
  {
    var s := y.replicas[r];
    assert Checked(w.cfg, s, cp);
    assert y'.accepted == y.accepted + {Acceptance(r, s.newViewStore[s.view], cp)};
  }

  lemma AcceptedAtEnd(w: World, run: seq<Sys>, i: nat, x: Acceptance)
    requires w.Valid() && IsRun(w, run) && i < |run| && x in run[i].accepted
    ensures x in run[|run| - 1].accepted
  {
    RunGrows(w, run, i, |run| - 1);
  }

  /** A pre-prepare that was there before the step. */
  lemma HeldAlready(w: World, run: seq<Sys>, i: nat, s: ReplicaState, v: nat, n: nat, d: Digest, p: Proposal)
    requires w.Valid() && i < |run| && Settled(w, run[i], v, n, d) && w.Correct(s.id)
    requires CertsSourced(w.cfg, run[i].net, run[i].held, s) && CertProposes(GetCert(s, p.v, n), p.v, n, p.d)
    requires p.r == s.id && p.n == n && p.v > v
    ensures p.d == d
  {
    var idx := MsgID(p.v, n);
    assert CertSourced(w.cfg, run[i].net, run[i].held, s.id, idx, s.certStore[idx]);
    assert p in run[i].held;
  }

  /** What it means that a certificate is part of the history. */
  lemma HeldMeans(cfg: Config, s: ReplicaState, p: Proposal)
    requires cfg.Valid() && CertsOk(cfg, s) && p in HeldBy(s)
    ensures p.r == s.id && p.v == s.view && MsgID(p.v, p.n) in s.certStore && CertProposes(GetCert(s, p.v, p.n), p.v, p.n, p.d)
  {
    assert CertOk(cfg, s, MsgID(p.v, p.n), s.certStore[MsgID(p.v, p.n)]);
  }

  /** Entering a view only brings pre-prepares for d. */
  lemma EnterKeepsSettled(w: World, run: seq<Sys>, i: nat, r: nat, cp: StableId, v: nat, n: nat, d: Digest, p: Proposal)
    requires w.Valid() && Decided(w, run, v, n, d) && i + 1 < |run| && Settled(w, run[i], v, n, d)
    requires LocalNext(w, run[i], r, AEnterView(cp), run[i + 1]) && p.v > v && p.n == n
    requires r < |run[i + 1].replicas| && p in HeldBy(run[i + 1].replicas[r])
    ensures p.d == d
  {
    MoverFacts(w, run, i, r, AEnterView(cp));
    var s, s' := run[i].replicas[r], run[i + 1].replicas[r];
    HeldMeans(w.cfg, s', p);
    EnteringAccepts(w, run[i], r, cp, run[i + 1]);
    AcceptedAtEnd(w, run, i + 1, Acceptance(r, s.newViewStore[s.view], cp));
    EnterSettled(w, run, i, s, cp, v, n, d, p.d);
  }

  /** Storing a proposal only brings pre-prepares for d. */
  lemma StoreKeepsSettled(w: World, run: seq<Sys>, i: nat, r: nat, a: Action, v: nat, n: nat, d: Digest, p: Proposal)
    requires w.Valid() && Decided(w, run, v, n, d) && i + 1 < |run| && Settled(w, run[i], v, n, d)
    requires LocalNext(w, run[i], r, a, run[i + 1]) && p.v > v && p.n == n && (a.APropose? || a.AAcceptPrePrepare?)
    requires r < |run[i + 1].replicas| && p in HeldBy(run[i + 1].replicas[r])
    ensures p.d == d
  {
    MoverFacts(w, run, i, r, a);
    var s, s' := run[i].replicas[r], run[i + 1].replicas[r];
    HeldMeans(w.cfg, s', p);
    StoreSettled(w, run, i, r, a, v, n, d, p.d);
    if CertProposes(GetCert(s, p.v, n), p.v, n, p.d) {
      HeldAlready(w, run, i, s, v, n, d, p);
    }
  }

  /** Other actions bring no pre-prepare. */
  lemma OtherKeepsSettled(w: World, run: seq<Sys>, i: nat, r: nat, a: Action, v: nat, n: nat, d: Digest, p: Proposal)
    requires w.Valid() && Decided(w, run, v, n, d) && i + 1 < |run| && Settled(w, run[i], v, n, d)
    requires LocalNext(w, run[i], r, a, run[i + 1]) && p.v > v && p.n == n && !MakesProposal(a)
    requires r < |run[i + 1].replicas| && p in HeldBy(run[i + 1].replicas[r])
    ensures p.d == d
  {
    MoverFacts(w, run, i, r, a);
    var s, s' := run[i].replicas[r], run[i + 1].replicas[r];
    HeldMeans(w.cfg, s', p);
    HeldBefore(w.cfg, s, a, MsgID(p.v, n));
    HeldAlready(w, run, i, s, v, n, d, p);
  }

  /** A pre-prepare a replica holds after a step was held before or is for d. */
  lemma HeldSettled(w: World, run: seq<Sys>, i: nat, r: nat, a: Action, v: nat, n: nat, d: Digest, p: Proposal)
    requires w.Valid() && Decided(w, run, v, n, d) && i + 1 < |run| && Settled(w, run[i], v, n, d)
    requires LocalNext(w, run[i], r, a, run[i + 1]) && p.v > v && p.n == n
    requires r < |run[i + 1].replicas| && p in HeldBy(run[i + 1].replicas[r])
    ensures p.d == d
  {
    if a.AEnterView? {
      EnterKeepsSettled(w, run, i, r, a.cp, v, n, d, p);
    } else if MakesProposal(a) {
      StoreKeepsSettled(w, run, i, r, a, v, n, d, p);
    } else {
      OtherKeepsSettled(w, run, i, r, a, v, n, d, p);
    }
  }

  /** Only the moving replica's certificates enter the history. */
  lemma HeldByMover(w: World, run: seq<Sys>, i: nat, p: Proposal) returns (r: nat, a: Action)
    requires w.Valid() && IsRun(w, run) && i + 1 < |run| && p in run[i + 1].held && p !in run[i].held
    ensures LocalNext(w, run[i], r, a, run[i + 1])
    ensures r < |run[i + 1].replicas| && p in HeldBy(run[i + 1].replicas[r])
  {
    assert StepAt(w, run, i);
    r, a :| LocalNext(w, run[i], r, a, run[i + 1]);
  }

  lemma HeldStep(w: World, run: seq<Sys>, i: nat, v: nat, n: nat, d: Digest, p: Proposal)
    requires w.Valid() && Decided(w, run, v, n, d) && i + 1 < |run| && Settled(w, run[i], v, n, d)
    requires p in run[i + 1].held && w.Correct(p.r) && p.n == n && p.v > v
    ensures p.d == d
  {
    if p !in run[i].held {
      var r, a := HeldByMover(w, run, i, p);
      HeldSettled(w, run, i, r, a, v, n, d, p);
    }
  }

  lemma SettledStep(w: World, run: seq<Sys>, i: nat, v: nat, n: nat, d: Digest)
    requires w.Valid() && Decided(w, run, v, n, d) && i + 1 < |run| && Settled(w, run[i], v, n, d)
    ensures Settled(w, run[i + 1], v, n, d)
  {
    forall p | p in run[i + 1].held && w.Correct(p.r) && p.n == n && p.v > v ensures p.d == d {
      HeldStep(w, run, i, v, n, d, p);
    }
  }

  /** Safety across view changes. If d has a commit certificate at (v, n), then all
      correct replicas that ever pre-prepare number n in a later view pre-prepare d. */
  lemma {:induction false} CommittedStays(w: World, run: seq<Sys>, i: nat, v: nat, n: nat, d: Digest)
    requires w.Valid() && Decided(w, run, v, n, d) && i < |run|
    ensures Settled(w, run[i], v, n, d)
  {
    if i > 0 {
      CommittedStays(w, run, i - 1, v, n, d);
      SettledStep(w, run, i - 1, v, n, d);
    }
  }

  /** All views after v that correct replicas entered rest on well-formed V sets in which every low
      watermark lies below n. */
  ghost predicate LowViews(w: World, y: Sys, v: nat, n: nat) {
    forall a | a in y.accepted && a.nv.view > v :: WellFormedVset(w.cfg, a.nv.view, a.nv.vset) && forall m | m in a.nv.vset :: m.h < n
  }

  /** In particular, low watermarks below n are enough: the null request cannot win there. */
  lemma CommittedStaysBelow(w: World, run: seq<Sys>, i: nat, v: nat, n: nat, d: Digest)
    requires w.Valid() && IsRun(w, run) && i < |run| && CommittedCert(w.cfg, run[|run| - 1].net, v, n, d)
    requires run[|run| - 1].retained && LowViews(w, run[|run| - 1], v, n)
    ensures Settled(w, run[i], v, n, d)
  {
    assert forall a | a in run[|run| - 1].accepted && a.nv.view > v :: NoneForgets(a.nv.vset, n);
    CommittedStays(w, run, i, v, n, d);
  }

  lemma LaterCommitAgrees(w: World, run: seq<Sys>, v: nat, u: nat, n: nat, d: Digest, e: Digest)
    requires w.Valid() && Decided(w, run, v, n, d) && v < u && CommittedCert(w.cfg, run[|run| - 1].net, u, n, e)
    ensures d == e
  {
    var last := |run| - 1;
    RunInv(w, run, last);
    CommitQuorumIsCorrect(w, run[last], u, n, e);
    var k :| k in CommittedCorrectly(w, run[last].net, u, n, e);
    CommittedStays(w, run, last, v, n, d);
    assert Proposal(k, u, n, e) in run[last].held;
  }

  /** Two commit certificates for the same number agree, whatever their views. Within
      one view no hypothesis about view changes is needed. */
  lemma CommitsAgree(w: World, run: seq<Sys>, v: nat, u: nat, n: nat, d: Digest, e: Digest)
    requires w.Valid() && IsRun(w, run)
    requires CommittedCert(w.cfg, run[|run| - 1].net, v, n, d) && CommittedCert(w.cfg, run[|run| - 1].net, u, n, e)
    requires v != u ==> GoodViews(w, run[|run| - 1], FirstOf(v, u), n)
    ensures d == e
  {
    if v == u {
      CertificatesAgreeAtEnd(w, run, v, n, d, e);
    } else if v < u {
      LaterCommitAgrees(w, run, v, u, n, d, e);
    } else {
      LaterCommitAgrees(w, run, u, v, n, e, d);
    }
  }
}
