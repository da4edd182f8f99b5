/** Checkpoints and watermarks over whole runs. */
module CheckpointSafety {
  import opened PbftTypes
  import opened Quorums
  import opened NewViewSafety
  import opened ReplicaModel
  import opened ReplicaInvariant
  import opened PbftSystem
  import opened SystemInvariant
  import opened SystemRuns
  import opened CrossViewSafety

  // --------------------------------------------------- counting checkpoints

  /** The replicas that sent a checkpoint of this id for n. */
  ghost function Attesters(cfg: Config, net: set<Message>, n: nat, id: string): set<nat> {
    set k | k in Replicas(cfg.N) && MCheckpoint(Checkpoint(n, k, id)) in net
  }

  /** The entries of checkpointStore that match n and id come from as many distinct replicas. */
  lemma MatchingCountsReplicas(s: ReplicaState, n: nat, id: string)
    ensures |set c | c in Matching(s, n, id) :: c.replicaId| == |Matching(s, n, id)|
  {
    DistinctSenders(Matching(s, n, id), n, id);
  }

  lemma {:induction false} DistinctSenders(cs: set<Checkpoint>, n: nat, id: string)
    requires forall c | c in cs :: c.seqNo == n && c.id == id
    ensures |set c | c in cs :: c.replicaId| == |cs|
  {
    var ids := set c | c in cs :: c.replicaId;
    if cs == {} {
      assert ids == {};
    } else {
      var x :| x in cs;
      var rest := cs - {x};
      DistinctSenders(rest, n, id);
      assert forall c | c in rest :: c.replicaId != x.replicaId by {
        forall c | c in rest ensures c.replicaId != x.replicaId {
          assert c == Checkpoint(n, c.replicaId, id) && x == Checkpoint(n, x.replicaId, id);
        }
      }
      assert ids == (set c | c in rest :: c.replicaId) + {x.replicaId};
    }
  }

  lemma MatchingAttested(w: World, net: set<Message>, s: ReplicaState, n: nat, id: string)
    requires w.Valid() && CheckpointsSourced(net, s) && forall m | m in net :: m.Sender() < w.cfg.N
    ensures |Attesters(w.cfg, net, n, id)| >= |Matching(s, n, id)|
  {
    MatchingCountsReplicas(s, n, id);
    var ids := set c | c in Matching(s, n, id) :: c.replicaId;
    forall k | k in ids ensures k in Attesters(w.cfg, net, n, id) {
      var c :| c in Matching(s, n, id) && c.replicaId == k;
      assert c == Checkpoint(n, k, id) && MCheckpoint(c).Sender() < w.cfg.N;
    }
    SubsetSize(ids, Attesters(w.cfg, net, n, id));
  }

  // ------------------------------------- where checkpoint ids come from

  ghost predicate OwnCheckpoints(net: set<Message>, s: ReplicaState) {
    forall n | n in s.chkpts && n > 0 :: MCheckpoint(Checkpoint(n, s.id, s.chkpts[n])) in net
  }

  ghost predicate CsetAttested(net: set<Message>, vc: ViewChange) {
    forall c | c in vc.cset && c.seqNo > 0 :: MCheckpoint(Checkpoint(c.seqNo, vc.replicaId, c.id)) in net
  }

  ghost predicate CsetsAttested(w: World, net: set<Message>) {
    forall vc | MViewChange(vc) in net && w.Correct(vc.replicaId) :: CsetAttested(net, vc)
  }

  ghost predicate StableAttested(w: World, y: Sys) {
    forall x | x in y.stable :: |Attesters(w.cfg, y.net, x.n, x.id)| >= w.cfg.IntersectionQuorum()
  }

  ghost predicate Attested(w: World, y: Sys) {
    && |y.replicas| == w.cfg.N
    && (forall r: nat | w.Correct(r) :: y.replicas[r].id == r && OwnCheckpoints(y.net, y.replicas[r]))
    && CsetsAttested(w, y.net) && StableAttested(w, y)
  }

  lemma AttestersGrow(cfg: Config, net: set<Message>, net': set<Message>, n: nat, id: string)
    requires net <= net'
    ensures |Attesters(cfg, net, n, id)| <= |Attesters(cfg, net', n, id)|
  {
    SubsetSize(Attesters(cfg, net, n, id), Attesters(cfg, net', n, id));
  }

  lemma WatermarkChkpts(cfg: Config, s: ReplicaState, a: Action)
    requires cfg.Valid() && OnWatermark(a)
    ensures Apply(cfg, s, a).h == WatermarkOf(a)
    ensures Apply(cfg, s, a).chkpts == MoveWatermarks(s, WatermarkOf(a)).chkpts
  {
    var s' := Apply(cfg, s, a);
    if a.AFallBehind? {
      assert s' == FallBehind(s, a.m);
    } else if a.AWeakSkip? {
      assert s' == WeakSkip(s, a.n);
    } else if a.ASkipToBase? {
      assert s' == MoveWatermarks(s, a.cp.seqNo);
    } else {
      assert s' == MoveWatermarks(s, a.n);
    }
  }

  lemma ViewChkpts(cfg: Config, s: ReplicaState, a: Action)
    requires cfg.Valid() && ChangesView(a)
    ensures Apply(cfg, s, a).chkpts == s.chkpts
  {
    if a.AEnterView? {
      assert Apply(cfg, s, a).chkpts == s.chkpts;
    }
  }

  lemma CertificateChkpts(cfg: Config, s: ReplicaState, a: Action)
    requires cfg.Valid() && OnCertificate(a)
    ensures Apply(cfg, s, a).chkpts == s.chkpts
  {
    if a.APropose? {
      assert Apply(cfg, s, a) == Propose(s, a.req);
    }
  }

  lemma OtherChkpts(cfg: Config, s: ReplicaState, a: Action)
    requires cfg.Valid() && !a.ATakeCheckpoint? && !OnWatermark(a)
    ensures Apply(cfg, s, a).chkpts == s.chkpts
  {
    if ChangesView(a) {
      ViewChkpts(cfg, s, a);
    } else if OnCertificate(a) {
      CertificateChkpts(cfg, s, a);
    }
  }

  /** An action adds at most the checkpoint it sends. */
  lemma ChkptsFrom(cfg: Config, s: ReplicaState, a: Action, n: nat)
    requires cfg.Valid() && n in Apply(cfg, s, a).chkpts
    ensures || (n in s.chkpts && Apply(cfg, s, a).chkpts[n] == s.chkpts[n])
            || MCheckpoint(Checkpoint(n, s.id, Apply(cfg, s, a).chkpts[n])) in Sent(cfg, s, a)
  {
    var s' := Apply(cfg, s, a);
    if a.ATakeCheckpoint? {
      assert s' == TakeCheckpoint(s, a.id);
    } else if OnWatermark(a) {
      WatermarkChkpts(cfg, s, a);
    } else {
      OtherChkpts(cfg, s, a);
    }
  }

  lemma OwnCheckpointsStep(cfg: Config, net: set<Message>, s: ReplicaState, a: Action)
    requires cfg.Valid() && OwnCheckpoints(net, s) && Apply(cfg, s, a).id == s.id
    ensures OwnCheckpoints(net + Sent(cfg, s, a), Apply(cfg, s, a))
  {
    forall n | n in Apply(cfg, s, a).chkpts && n > 0
      ensures MCheckpoint(Checkpoint(n, s.id, Apply(cfg, s, a).chkpts[n])) in net + Sent(cfg, s, a)
    {
      ChkptsFrom(cfg, s, a, n);
    }
  }

  lemma SentCset(cfg: Config, net: set<Message>, s: ReplicaState, a: Action, vc: ViewChange)
    requires cfg.Valid() && Enabled(cfg, s, a) && MViewChange(vc) in Sent(cfg, s, a) && OwnCheckpoints(net, s)
    ensures CsetAttested(net, vc)
  {
    assert a == ASendViewChange(vc);
    var s' := SendViewChange(cfg, s, vc.view);
    assert Announces(s', vc) && s'.chkpts == s.chkpts && s'.id == s.id;
  }

  lemma CsetsStep(w: World, net: set<Message>, s: ReplicaState, a: Action)
    requires w.Valid() && Enabled(w.cfg, s, a) && CsetsAttested(w, net) && OwnCheckpoints(net, s)
    ensures CsetsAttested(w, net + Sent(w.cfg, s, a))
  {
    forall vc | MViewChange(vc) in net + Sent(w.cfg, s, a) && w.Correct(vc.replicaId)
      ensures CsetAttested(net + Sent(w.cfg, s, a), vc)
    {
      if MViewChange(vc) in net {
        assert CsetAttested(net, vc);
      } else {
        SentCset(w.cfg, net, s, a, vc);
      }
    }
  }

  lemma StableStep(w: World, y: Sys, r: nat, a: Action)
    requires w.Valid() && SysInv(w, y) && StableAttested(w, y) && CanStep(w, y, r, a)
    ensures StableAttested(w, Stepped(w, y, r, a))
  {
    var y' := Stepped(w, y, r, a);
    assert ReplicaInv(w, y, r);
    forall x | x in y'.stable ensures |Attesters(w.cfg, y'.net, x.n, x.id)| >= w.cfg.IntersectionQuorum() {
      if x !in y.stable {
        MatchingAttested(w, y.net, y.replicas[r], x.n, x.id);
      }
      AttestersGrow(w.cfg, y.net, y'.net, x.n, x.id);
    }
  }

  lemma AttestedStep(w: World, y: Sys, r: nat, a: Action)
    requires w.Valid() && SysInv(w, y) && Attested(w, y) && CanStep(w, y, r, a)
    ensures Attested(w, Stepped(w, y, r, a))
  {
    var y', s := Stepped(w, y, r, a), y.replicas[r];
    assert ReplicaInv(w, y, r);
    InputsOk(w, y, r, a);
    ActionKeeps(w.cfg, s, a);
    OwnCheckpointsStep(w.cfg, y.net, s, a);
    CsetsStep(w, y.net, s, a);
    StableStep(w, y, r, a);
  }

  lemma FaultyAttested(w: World, y: Sys, m: Message, y': Sys)
    requires w.Valid() && Attested(w, y) && FaultyNext(w, y, m, y')
    ensures Attested(w, y')
  {
    forall vc | MViewChange(vc) in y'.net && w.Correct(vc.replicaId) ensures CsetAttested(y'.net, vc) {
      assert m.Sender() in w.faulty && MViewChange(vc).Sender() == vc.replicaId;
      assert CsetAttested(y.net, vc);
    }
    forall x | x in y'.stable ensures |Attesters(w.cfg, y'.net, x.n, x.id)| >= w.cfg.IntersectionQuorum() {
      AttestersGrow(w.cfg, y.net, y'.net, x.n, x.id);
    }
  }

  lemma AttestedNext(w: World, run: seq<Sys>, i: nat)
    requires w.Valid() && IsRun(w, run) && i + 1 < |run| && Attested(w, run[i])
    ensures Attested(w, run[i + 1])
  {
    var y, y' := run[i], run[i + 1];
    RunInv(w, run, i);
    assert StepAt(w, run, i);
    if m :| FaultyNext(w, y, m, y') {
      FaultyAttested(w, y, m, y');
    } else {
      var r, a :| LocalNext(w, y, r, a, y');
      AttestedStep(w, y, r, a);
    }
  }

  /** In every run, ids in a correct replica's chkpts and C sets were sent as checkpoints,
      and every stabilised id was sent by an intersection quorum of distinct replicas. */
  lemma {:induction false} RunAttested(w: World, run: seq<Sys>, i: nat)
    requires w.Valid() && IsRun(w, run) && i < |run|
    ensures Attested(w, run[i])
  {
    if i > 0 {
      RunAttested(w, run, i - 1);
      AttestedNext(w, run, i - 1);
    }
  }

  // --------------------------------------------------------- stable agreement

  /** Replica k issued two ids for one number. */
  ghost predicate IssuedTwo(net: set<Message>, k: nat, n: nat, id: string, other: string) {
    id != other && MCheckpoint(Checkpoint(n, k, id)) in net && MCheckpoint(Checkpoint(n, k, other)) in net
  }

  /** Stable checkpoints agree: correct replicas move the low watermark on quorums for different
      ids at one number only if some correct replica has issued both ids for that number. */
  lemma StableCheckpointsAgree(w: World, run: seq<Sys>, i: nat, a: Stable, b: Stable)
    requires w.Valid() && IsRun(w, run) && i < |run|
    requires a in run[i].stable && b in run[i].stable && a.n == b.n
    ensures a.id == b.id || exists k | w.Correct(k) :: IssuedTwo(run[i].net, k, a.n, a.id, b.id)
  {
    var y := run[i];
    RunAttested(w, run, i);
    var k := QuorumsMeet(w.cfg, w.faulty, Attesters(w.cfg, y.net, a.n, a.id), Attesters(w.cfg, y.net, b.n, b.id));
    assert a.id != b.id ==> w.Correct(k) && IssuedTwo(y.net, k, a.n, a.id, b.id);
  }

  /** A correct replica may do so: a callback files its id under lastExec, so two callbacks
      without an execution in between issue two ids for one number. */
  lemma TwoIdsForOneNumber(cfg: Config, s: ReplicaState, id: string, other: string)
    requires cfg.Valid()
    ensures var s' := Apply(cfg, s, ATakeCheckpoint(id));
            && MCheckpoint(Checkpoint(s.lastExec, s.id, id)) in Sent(cfg, s, ATakeCheckpoint(id))
            && MCheckpoint(Checkpoint(s.lastExec, s.id, other)) in Sent(cfg, s', ATakeCheckpoint(other))
  {
    var s' := Apply(cfg, s, ATakeCheckpoint(id));
    assert s'.lastExec == s.lastExec && s'.id == s.id;
  }

  // ------------------------------------------------ who moves the watermark

  /** A correct replica sent a checkpoint at n or later. */
  ghost predicate Vouched(w: World, net: set<Message>, n: nat) {
    exists c :: MCheckpoint(c) in net && w.Correct(c.replicaId) && c.seqNo >= n
  }

  lemma AttestedVouched(w: World, net: set<Message>, n: nat, id: string)
    requires w.Valid() && |Attesters(w.cfg, net, n, id)| > w.cfg.f
    ensures Vouched(w, net, n)
  {
    var k := Outside(Attesters(w.cfg, net, n, id), w.faulty);
    assert MCheckpoint(Checkpoint(n, k, id)) in net;
  }

  /** Falling behind is never caused by faulty replicas alone: when the watermark jumps to
      m, some correct replica sent a checkpoint at m or later. */
  lemma FallBehindVouched(w: World, run: seq<Sys>, i: nat, r: nat, m: nat)
    requires w.Valid() && IsRun(w, run) && i < |run| && w.Correct(r) && r < |run[i].replicas|
    requires CanFallBehind(w.cfg, run[i].replicas[r], m)
    ensures Vouched(w, run[i].net, m)
  {
    RunInv(w, run, i);
    assert ReplicaInv(w, run[i], r);
    var s := run[i].replicas[r];
    var k := Outside(ReportedFrom(s, m), w.faulty);
    var id :| MCheckpoint(Checkpoint(s.hChkpts[k], k, id)) in run[i].net;
    assert MCheckpoint(Checkpoint(s.hChkpts[k], k, id)).Sender() < w.cfg.N;
  }

  /** A skip on a weak certificate goes to a checkpoint some correct replica sent. */
  lemma WeakSkipVouched(w: World, run: seq<Sys>, i: nat, r: nat, n: nat, id: string)
    requires w.Valid() && IsRun(w, run) && i < |run| && w.Correct(r) && r < |run[i].replicas|
    requires CanWeakSkip(w.cfg, run[i].replicas[r], n, id)
    ensures exists k :: w.Correct(k) && MCheckpoint(Checkpoint(n, k, id)) in run[i].net
  {
    RunInv(w, run, i);
    assert ReplicaInv(w, run[i], r);
    MatchingAttested(w, run[i].net, run[i].replicas[r], n, id);
    var k := Outside(Attesters(w.cfg, run[i].net, n, id), w.faulty);
    assert w.Correct(k) && MCheckpoint(Checkpoint(n, k, id)) in run[i].net;
  }

  lemma StabilizeVouched(w: World, run: seq<Sys>, i: nat, r: nat, n: nat, id: string)
    requires w.Valid() && IsRun(w, run) && i < |run| && w.Correct(r) && r < |run[i].replicas|
    requires CanStabilize(w.cfg, run[i].replicas[r], n, id)
    ensures Vouched(w, run[i].net, n)
  {
    RunInv(w, run, i);
    assert ReplicaInv(w, run[i], r);
    MatchingAttested(w, run[i].net, run[i].replicas[r], n, id);
    AttestedVouched(w, run[i].net, n, id);
  }

  /** The base checkpoint of a new-view that more than f replicas carry was sent by a correct one. */
  lemma BaseVouched(w: World, run: seq<Sys>, i: nat, nv: NewView, cp: StableId)
    requires w.Valid() && IsRun(w, run) && i < |run| && cp.seqNo > 0
    requires |Carriers(nv.vset, cp) * Replicas(w.cfg.N)| > w.cfg.f && Issued(w, run, i, nv)
    ensures Vouched(w, run[i].net, cp.seqNo)
  {
    RunAttested(w, run, i);
    var k := Outside(Carriers(nv.vset, cp) * Replicas(w.cfg.N), w.faulty);
    var m :| m in nv.vset && cp in m.cset && m.replicaId == k;
    assert CsetAttested(run[i].net, m);
    assert MCheckpoint(Checkpoint(cp.seqNo, k, cp.id)) in run[i].net;
  }

  /** What the code does not check, because it counts mentions: the base checkpoint to which a
      replica that is behind is about to skip is carried by more than f replicas. */
  ghost predicate BasesCarried(w: World, y: Sys) {
    forall r: nat, cp | w.Correct(r) && r < |y.replicas| && BehindBase(w.cfg, y.replicas[r], cp) ::
      |Carriers(y.replicas[r].newViewStore[y.replicas[r].view].vset, cp) * Replicas(w.cfg.N)| > w.cfg.f
  }

  ghost predicate BehindBase(cfg: Config, s: ReplicaState, cp: StableId) { Checked(cfg, s, cp) && s.h < cp.seqNo }

  /** In a well-formed V set it is. */
  lemma WellFormedBaseCarried(cfg: Config, s: ReplicaState, cp: StableId)
    requires cfg.Valid() && BehindBase(cfg, s, cp)
    requires WellFormedVset(cfg, s.newViewStore[s.view].view, s.newViewStore[s.view].vset)
    ensures |Carriers(s.newViewStore[s.view].vset, cp) * Replicas(cfg.N)| > cfg.f
  {
    var vset := s.newViewStore[s.view].vset;
    QualifiesIffQuorum(cfg, s.newViewStore[s.view].view, vset, cp);
    assert Carriers(vset, cp) * Replicas(cfg.N) == Carriers(vset, cp);
  }

  ghost predicate Grounded(w: World, y: Sys) {
    |y.replicas| == w.cfg.N && forall r: nat | w.Correct(r) :: GroundedAt(w, y.net, y.replicas[r].h)
  }

  lemma WatermarkActionVouched(w: World, run: seq<Sys>, i: nat, r: nat, a: Action)
    requires w.Valid() && IsRun(w, run) && i < |run| && BasesCarried(w, run[i])
    requires CanStep(w, run[i], r, a) && OnWatermark(a) && !a.ACleanUp?
    ensures Vouched(w, run[i].net, WatermarkOf(a))
  {
    if a.AFallBehind? {
      FallBehindVouched(w, run, i, r, a.m);
    } else if a.AWeakSkip? {
      WeakSkipVouched(w, run, i, r, a.n, a.id);
    } else if a.AStabilize? {
      StabilizeVouched(w, run, i, r, a.n, a.id);
    } else {
      SkipToBaseVouched(w, run, i, r, a.cp);
    }
  }

  lemma SkipToBaseVouched(w: World, run: seq<Sys>, i: nat, r: nat, cp: StableId)
    requires w.Valid() && IsRun(w, run) && i < |run| && BasesCarried(w, run[i])
    requires CanStep(w, run[i], r, ASkipToBase(cp))
    ensures Vouched(w, run[i].net, cp.seqNo)
  {
    RunInv(w, run, i);
    assert ReplicaInv(w, run[i], r);
    var s := run[i].replicas[r];
    assert BehindBase(w.cfg, s, cp);
    BaseVouched(w, run, i, s.newViewStore[s.view], cp);
  }

  lemma OnlyWatermarkMovesH(cfg: Config, s: ReplicaState, a: Action)
    requires cfg.Valid() && Enabled(cfg, s, a)
    ensures Apply(cfg, s, a).h == if OnWatermark(a) then WatermarkOf(a) else s.h
  {
    if OnWatermark(a) { WatermarkChkpts(cfg, s, a); }
  }

  lemma VouchedStays(w: World, net: set<Message>, net': set<Message>, n: nat)
    requires Vouched(w, net, n) && net <= net'
    ensures Vouched(w, net', n)
  {
    var c :| MCheckpoint(c) in net && w.Correct(c.replicaId) && c.seqNo >= n;
    assert MCheckpoint(c) in net';
  }

  ghost predicate GroundedAt(w: World, net: set<Message>, h: nat) { h == 0 || Vouched(w, net, h) }

  lemma MoverGrounded(w: World, run: seq<Sys>, i: nat, r: nat, a: Action)
    requires w.Valid() && IsRun(w, run) && i < |run| && Grounded(w, run[i]) && BasesCarried(w, run[i])
    requires CanStep(w, run[i], r, a)
    ensures GroundedAt(w, run[i].net, Apply(w.cfg, run[i].replicas[r], a).h)
  {
    OnlyWatermarkMovesH(w.cfg, run[i].replicas[r], a);
    if OnWatermark(a) && !a.ACleanUp? {
      WatermarkActionVouched(w, run, i, r, a);
    } else {
      assert GroundedAt(w, run[i].net, run[i].replicas[r].h);
    }
  }

  lemma GroundedStays(w: World, y: Sys, y': Sys)
    requires |y'.replicas| == w.cfg.N && y.net <= y'.net
    requires forall r: nat | w.Correct(r) :: GroundedAt(w, y.net, y'.replicas[r].h)
    ensures Grounded(w, y')
  {
    forall r: nat | w.Correct(r) ensures GroundedAt(w, y'.net, y'.replicas[r].h) {
      if y'.replicas[r].h > 0 { VouchedStays(w, y.net, y'.net, y'.replicas[r].h); }
    }
  }

  lemma GroundedStep(w: World, run: seq<Sys>, i: nat, r: nat, a: Action)
    requires w.Valid() && IsRun(w, run) && i < |run| && Grounded(w, run[i]) && BasesCarried(w, run[i])
    requires CanStep(w, run[i], r, a)
    ensures Grounded(w, Stepped(w, run[i], r, a))
  {
    MoverGrounded(w, run, i, r, a);
    var y, y' := run[i], Stepped(w, run[i], r, a);
    forall q: nat | w.Correct(q) ensures GroundedAt(w, y.net, y'.replicas[q].h) {
      if q != r { assert GroundedAt(w, y.net, y.replicas[q].h); }
    }
    GroundedStays(w, y, y');
  }

  lemma GroundedNext(w: World, run: seq<Sys>, i: nat)
    requires w.Valid() && IsRun(w, run) && i + 1 < |run| && Grounded(w, run[i]) && BasesCarried(w, run[i])
    ensures Grounded(w, run[i + 1])
  {
    var y, y' := run[i], run[i + 1];
    assert StepAt(w, run, i);
    if m :| FaultyNext(w, y, m, y') {
      GroundedStays(w, y, y');
    } else {
      var r, a :| LocalNext(w, y, r, a, y');
      GroundedStep(w, run, i, r, a);
    }
  }

  /** In every run, the low watermark of a correct replica is 0 or was reached by a correct
      replica: some correct replica sent a checkpoint at or above it. */
  lemma {:induction false} WatermarksVouched(w: World, run: seq<Sys>, i: nat)
    requires w.Valid() && IsRun(w, run) && i < |run| && forall j | 0 <= j < i :: BasesCarried(w, run[j])
    ensures Grounded(w, run[i])
  {
    if i > 0 {
      WatermarksVouched(w, run, i - 1);
      GroundedNext(w, run, i - 1);
    }
  }

  // --------------------------------------------------------- nothing goes back

  lemma LocalAdvances(w: World, y: Sys, q: nat, a: Action, r: nat)
    requires w.Valid() && SysInv(w, y) && CanStep(w, y, q, a) && w.Correct(r)
    ensures |Stepped(w, y, q, a).replicas| == w.cfg.N && Advances(y.replicas[r], Stepped(w, y, q, a).replicas[r])
  {
    assert ReplicaInv(w, y, q);
    InputsOk(w, y, q, a);
    ActionKeeps(w.cfg, y.replicas[q], a);
  }

  lemma StepAdvances(w: World, run: seq<Sys>, i: nat, r: nat)
    requires w.Valid() && IsRun(w, run) && i + 1 < |run| && w.Correct(r)
    ensures |run[i].replicas| == |run[i + 1].replicas| == w.cfg.N && Advances(run[i].replicas[r], run[i + 1].replicas[r])
  {
    var y, y' := run[i], run[i + 1];
    RunInv(w, run, i);
    assert StepAt(w, run, i);
    if m :| FaultyNext(w, y, m, y') {
      assert y'.replicas == y.replicas;
    } else {
      var q, a :| LocalNext(w, y, q, a, y');
      LocalAdvances(w, y, q, a, r);
    }
  }

  /** In every run the view, the low watermark and the sequence number of a correct
      replica never decrease. */
  lemma {:induction false} RunAdvances(w: World, run: seq<Sys>, i: nat, j: nat, r: nat)
    requires w.Valid() && IsRun(w, run) && i <= j < |run| && w.Correct(r)
    ensures |run[i].replicas| == |run[j].replicas| == w.cfg.N && Advances(run[i].replicas[r], run[j].replicas[r])
  {
    if i < j {
      RunAdvances(w, run, i, j - 1, r);
      StepAdvances(w, run, j - 1, r);
    } else {
      RunInv(w, run, i);
    }
  }
}
