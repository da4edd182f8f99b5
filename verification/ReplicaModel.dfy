/** The state of one PBFT replica and the atomic changes its handlers are made of. */
module ReplicaModel {
  import opened Common
  import opened PbftTypes
  import opened NewViewSelection

  datatype MsgID = MsgID(v: nat, n: nat)
  datatype QIdx = QIdx(d: Digest, n: nat)
  datatype VCIdx = VCIdx(v: nat, id: nat)

  datatype Cert = Cert(prePrepare: Option<PrePrepare>, sentPrepare: bool, prepare: seq<Prepare>,
                       sentCommit: bool, commit: seq<Commit>)

  const EMPTY_CERT := Cert(None, false, [], false, [])

  /** A call into the consumer: one executed number, or a jump of lastExec. */
  datatype Delivery = Executed(n: nat, digest: Digest, view: nat) | Skipped(n: nat)

  datatype ReplicaState = ReplicaState(
    id: nat, view: nat, activeView: bool, h: nat, seqNo: nat, lastExec: nat, skipInProgress: bool,
    chkpts: map<nat, string>, pset: map<nat, PQ>, qset: map<QIdx, PQ>, hChkpts: map<nat, nat>,
    outstandingReqs: map<Digest, Request>, missingReqs: set<Digest>,
    reqStore: map<Digest, Request>, certStore: map<MsgID, Cert>, checkpointStore: set<Checkpoint>,
    viewChangeStore: map<VCIdx, ViewChange>, newViewStore: map<nat, NewView>,
    deliveries: seq<Delivery>)

  /** newPbftCore. */
  function Initial(id: nat, startupId: string): ReplicaState {
    ReplicaState(id, 0, true, 0, 0, 0, false, map[0 := startupId], map[], map[], map[],
                 map[], {}, map[], map[], {}, map[], map[], [])
  }

  function HashReq(req: Request): Digest { HashOf(req) }

  // ------------------------------------------------------------- predicates

  predicate InW(cfg: Config, s: ReplicaState, n: nat) { s.h < n <= s.h + cfg.L }

  predicate InWV(cfg: Config, s: ReplicaState, v: nat, n: nat) { s.view == v && InW(cfg, s, n) }

  function GetCert(s: ReplicaState, v: nat, n: nat): Cert {
    if MsgID(v, n) in s.certStore then s.certStore[MsgID(v, n)] else EMPTY_CERT
  }

  predicate CertProposes(c: Cert, v: nat, n: nat, d: Digest) {
    && c.prePrepare.Some? && c.prePrepare.value.digest == d
    && c.prePrepare.value.view == v && c.prePrepare.value.seqNo == n
  }

  predicate PrePrepared(s: ReplicaState, d: Digest, v: nat, n: nat) {
    && (d == Null || d in s.reqStore)
    && (|| (QIdx(d, n) in s.qset && s.qset[QIdx(d, n)].view == v)
        || CertProposes(GetCert(s, v, n), v, n, d))
  }

  function PrepareCount(ps: seq<Prepare>, v: nat, n: nat, d: Digest): nat {
    if ps == [] then 0
    else
      var p := ps[|ps| - 1];
      PrepareCount(ps[..|ps| - 1], v, n, d) + if p.view == v && p.seqNo == n && p.digest == d then 1 else 0
  }

  function CommitCount(cs: seq<Commit>, v: nat, n: nat): nat {
    if cs == [] then 0
    else
      var c := cs[|cs| - 1];
      CommitCount(cs[..|cs| - 1], v, n) + if c.view == v && c.seqNo == n then 1 else 0
  }

  predicate Prepared(cfg: Config, s: ReplicaState, d: Digest, v: nat, n: nat) {
    && PrePrepared(s, d, v, n)
    && (|| (n in s.pset && s.pset[n].view == v && s.pset[n].digest == d)
        || (MsgID(v, n) in s.certStore
            && PrepareCount(GetCert(s, v, n).prepare, v, n, d) >= cfg.IntersectionQuorum() - 1))
  }

  predicate Committed(cfg: Config, s: ReplicaState, d: Digest, v: nat, n: nat) {
    && Prepared(cfg, s, d, v, n)
    && MsgID(v, n) in s.certStore
    && CommitCount(GetCert(s, v, n).commit, v, n) >= cfg.IntersectionQuorum()
  }

  // ------------------------------------------------------- requests

  function StoreRequest(s: ReplicaState, req: Request): ReplicaState {
    s.(reqStore := s.reqStore[HashReq(req) := req], outstandingReqs := s.outstandingReqs[HashReq(req) := req])
  }

  /** recvRequest by the primary: assign the next number. */
  predicate CanPropose(cfg: Config, s: ReplicaState, req: Request)
    requires cfg.Valid()
  {
    && cfg.Primary(s.view) == s.id && s.activeView
    && InWV(cfg, s, s.view, s.seqNo + 1)
    && HashReq(req) in s.reqStore
    && forall idx | idx in s.certStore && s.certStore[idx].prePrepare.Some? ::
         var p := s.certStore[idx].prePrepare.value;
         !(p.view == s.view && p.seqNo != s.seqNo + 1 && p.digest == HashReq(req))
  }

  function ProposalFor(s: ReplicaState, req: Request): PrePrepare {
    PrePrepare(s.view, s.seqNo + 1, HashReq(req), Some(req), s.id)
  }

  function WithCert(s: ReplicaState, v: nat, n: nat, c: Cert): ReplicaState {
    s.(certStore := s.certStore[MsgID(v, n) := c])
  }

  function Propose(s: ReplicaState, req: Request): ReplicaState {
    var pp := ProposalFor(s, req);
    WithCert(s.(seqNo := pp.seqNo), pp.view, pp.seqNo, GetCert(s, pp.view, pp.seqNo).(prePrepare := Some(pp)))
  }

  // ------------------------------------------- pre-prepare, prepare, commit

  /** recvPrePrepare stores the proposal unless another digest is stored already. */
  predicate CanAcceptPrePrepare(cfg: Config, s: ReplicaState, pp: PrePrepare)
    requires cfg.Valid()
  {
    && s.activeView && cfg.Primary(s.view) == pp.replicaId && InWV(cfg, s, pp.view, pp.seqNo)
    && var c := GetCert(s, pp.view, pp.seqNo);
       c.prePrepare.None? || c.prePrepare.value.digest == pp.digest
  }

  function AcceptPrePrepare(s: ReplicaState, pp: PrePrepare): ReplicaState {
    WithCert(s, pp.view, pp.seqNo, GetCert(s, pp.view, pp.seqNo).(prePrepare := Some(pp)))
  }

  predicate CanSendPrepare(cfg: Config, s: ReplicaState, d: Digest, v: nat, n: nat)
    requires cfg.Valid()
  {
    && s.activeView && InWV(cfg, s, v, n) && cfg.Primary(s.view) != s.id
    && PrePrepared(s, d, v, n) && !GetCert(s, v, n).sentPrepare
  }

  function SendPrepare(s: ReplicaState, v: nat, n: nat): ReplicaState {
    WithCert(s, v, n, GetCert(s, v, n).(sentPrepare := true))
  }

  predicate CanAddPrepare(cfg: Config, s: ReplicaState, p: Prepare)
    requires cfg.Valid()
  {
    && cfg.Primary(p.view) != p.replicaId && InWV(cfg, s, p.view, p.seqNo)
    && forall q | q in GetCert(s, p.view, p.seqNo).prepare :: q.replicaId != p.replicaId
  }

  function AddPrepare(s: ReplicaState, p: Prepare): ReplicaState {
    var c := GetCert(s, p.view, p.seqNo);
    WithCert(s, p.view, p.seqNo, c.(prepare := c.prepare + [p]))
  }

  predicate CanSendCommit(cfg: Config, s: ReplicaState, d: Digest, v: nat, n: nat) {
    InWV(cfg, s, v, n) && Prepared(cfg, s, d, v, n) && !GetCert(s, v, n).sentCommit
  }

  function SendCommit(s: ReplicaState, v: nat, n: nat): ReplicaState {
    WithCert(s, v, n, GetCert(s, v, n).(sentCommit := true))
  }

  predicate CanAddCommit(cfg: Config, s: ReplicaState, c: Commit) {
    && InWV(cfg, s, c.view, c.seqNo)
    && forall d | d in GetCert(s, c.view, c.seqNo).commit :: d.replicaId != c.replicaId
  }

  function AddCommit(s: ReplicaState, m: Commit): ReplicaState {
    var c := GetCert(s, m.view, m.seqNo);
    WithCert(s, m.view, m.seqNo, c.(commit := c.commit + [m]))
  }

  // -------------------------------------------------------------- execution

  /** executeOne. */
  predicate CanExecute(cfg: Config, s: ReplicaState, idx: MsgID) {
    && idx.n == s.lastExec + 1 && idx in s.certStore && s.certStore[idx].prePrepare.Some?
    && !s.skipInProgress
    && Committed(cfg, s, s.certStore[idx].prePrepare.value.digest, idx.v, idx.n)
  }

  function Execute(s: ReplicaState, idx: MsgID): ReplicaState
    requires idx in s.certStore && s.certStore[idx].prePrepare.Some?
  {
    var d := s.certStore[idx].prePrepare.value.digest;
    s.(lastExec := idx.n,
       outstandingReqs := if d == Null then s.outstandingReqs else s.outstandingReqs - {d},
       deliveries := s.deliveries + [Executed(idx.n, d, idx.v)])
  }

  // ------------------------------------------------ checkpoints, watermarks

  function Matching(s: ReplicaState, n: nat, id: string): set<Checkpoint> {
    set c | c in s.checkpointStore && c.seqNo == n && c.id == id
  }

  /** moveWatermarks, without resubmitRequests. */
  function MoveWatermarks(s: ReplicaState, h: nat): ReplicaState {
    s.(certStore := map idx | idx in s.certStore && idx.n > h :: s.certStore[idx],
       reqStore := s.reqStore - (set idx | idx in s.certStore && idx.n <= h && s.certStore[idx].prePrepare.Some? ::
                                   s.certStore[idx].prePrepare.value.digest),
       checkpointStore := (set c | c in s.checkpointStore && c.seqNo > h),
       pset := map n | n in s.pset && n > h :: s.pset[n],
       qset := map k | k in s.qset && k.n > h :: s.qset[k],
       chkpts := map n | n in s.chkpts && n >= h :: s.chkpts[n],
       h := h)
  }

  /** The callback Checkpoint: the id is filed under lastExec. */
  function TakeCheckpoint(s: ReplicaState, id: string): ReplicaState {
    s.(chkpts := s.chkpts[s.lastExec := id])
  }

  /** weakCheckpointSetOutOfRange once it decides to jump to m. */
  function FallBehind(s: ReplicaState, m: nat): ReplicaState {
    MoveWatermarks(s.(reqStore := map[]), m)
  }

  /** From now on a starting point is looked for. */
  function BeginSkip(s: ReplicaState): ReplicaState { s.(skipInProgress := true) }

  /** lastExec jumps to the low watermark and the consumer is told. */
  function SkipTo(s: ReplicaState, n: nat): ReplicaState {
    s.(lastExec := n, deliveries := s.deliveries + [Skipped(n)])
  }

  /** The replicas whose last checkpoint beyond the high watermark was at m or later. */
  function ReportedFrom(s: ReplicaState, m: nat): set<nat> {
    set r | r in s.hChkpts && s.hChkpts[r] >= m
  }

  predicate CanFallBehind(cfg: Config, s: ReplicaState, m: nat) {
    m > s.h + cfg.L && |ReportedFrom(s, m)| >= cfg.f + 1
  }

  function AddCheckpoint(s: ReplicaState, c: Checkpoint): ReplicaState {
    s.(checkpointStore := s.checkpointStore + {c})
  }

  /** witnessCheckpointWeakCert while a starting point is being looked for. */
  predicate CanWeakSkip(cfg: Config, s: ReplicaState, n: nat, id: string) {
    s.skipInProgress && InW(cfg, s, n) && |Matching(s, n, id)| == cfg.f + 1
  }

  function WeakSkip(s: ReplicaState, n: nat): ReplicaState {
    MoveWatermarks(s.(skipInProgress := false), n)
  }

  predicate CanStabilize(cfg: Config, s: ReplicaState, n: nat, id: string) {
    && InW(cfg, s, n) && |Matching(s, n, id)| >= cfg.IntersectionQuorum() && n in s.chkpts
  }

  // -------------------------------------------------------------- view change

  predicate CorrectViewChange(cfg: Config, vc: ViewChange) {
    && (forall p | p in vc.pset + vc.qset :: p.view < vc.view && vc.h < p.seqNo <= vc.h + cfg.L)
    && (forall c | c in vc.cset :: vc.h <= c.seqNo <= vc.h + cfg.L)
  }

  /** The P set after the certificates of the view being left are taken in. */
  function NextPset(cfg: Config, s: ReplicaState): map<nat, PQ> {
    map n | n in s.pset.Keys + (set idx | idx in s.certStore :: idx.n)
         && (n in s.pset || EntersP(cfg, s, n)) ::
      if EntersP(cfg, s, n) then PQ(n, s.certStore[MsgID(s.view, n)].prePrepare.value.digest, s.view) else s.pset[n]
  }

  predicate EntersP(cfg: Config, s: ReplicaState, n: nat) {
    && MsgID(s.view, n) in s.certStore
    && s.certStore[MsgID(s.view, n)].prePrepare.Some?
    && Prepared(cfg, s, s.certStore[MsgID(s.view, n)].prePrepare.value.digest, s.view, n)
    && !(n in s.pset && s.pset[n].view > s.view)
  }

  predicate EntersQ(s: ReplicaState, k: QIdx) {
    && MsgID(s.view, k.n) in s.certStore
    && s.certStore[MsgID(s.view, k.n)].prePrepare.Some?
    && s.certStore[MsgID(s.view, k.n)].prePrepare.value.digest == k.d
    && PrePrepared(s, k.d, s.view, k.n)
    && !(k in s.qset && s.qset[k].view > s.view)
  }

  function NextQset(s: ReplicaState): map<QIdx, PQ> {
    map k | k in s.qset.Keys + (set idx | idx in s.certStore && s.certStore[idx].prePrepare.Some? ::
                                  QIdx(s.certStore[idx].prePrepare.value.digest, idx.n))
         && (k in s.qset || EntersQ(s, k)) ::
      if EntersQ(s, k) then PQ(k.n, k.d, s.view) else s.qset[k]
  }

  /** sendViewChange to view `target`; the view counter may have been raised to
      target - 1 just before. */
  function SendViewChange(cfg: Config, s: ReplicaState, target: nat): ReplicaState
    requires target > s.view
  {
    s.(newViewStore := s.newViewStore - {target - 1},
       view := target, activeView := false,
       pset := NextPset(cfg, s), qset := NextQset(s),
       certStore := map idx | idx in s.certStore && idx.v >= target :: s.certStore[idx],
       viewChangeStore := map k | k in s.viewChangeStore && k.v >= target :: s.viewChangeStore[k])
  }

  /** vc is the view-change message of state s; its lists are in the arbitrary
      order in which the maps are visited. */
  predicate Announces(s: ReplicaState, vc: ViewChange) {
    && vc.view == s.view && vc.h == s.h && vc.replicaId == s.id
    && (forall c | c in vc.cset :: c.seqNo in s.chkpts && s.chkpts[c.seqNo] == c.id)
    && (forall n | n in s.chkpts :: StableId(n, s.chkpts[n]) in vc.cset)
    && (forall p | p in vc.pset :: p.seqNo in s.pset && s.pset[p.seqNo] == p)
    && (forall n | n in s.pset :: s.pset[n] in vc.pset)
    && (forall q | q in vc.qset :: QIdx(q.digest, q.seqNo) in s.qset && s.qset[QIdx(q.digest, q.seqNo)] == q)
    && (forall k | k in s.qset :: s.qset[k] in vc.qset)
    && |vc.cset| == |s.chkpts| && |vc.pset| == |s.pset| && |vc.qset| == |s.qset|
  }

  /** The requests of all proposals above the low watermark are still stored. */
  predicate RequestsRetained(s: ReplicaState) {
    forall idx | idx in s.certStore && idx.n > s.h && s.certStore[idx].prePrepare.Some? ::
      var d := s.certStore[idx].prePrepare.value.digest;
      d == Null || d in s.reqStore
  }

  predicate CanStoreViewChange(cfg: Config, s: ReplicaState, vc: ViewChange) {
    vc.view >= s.view && CorrectViewChange(cfg, vc) && VCIdx(vc.view, vc.replicaId) !in s.viewChangeStore
  }

  function StoreViewChange(s: ReplicaState, vc: ViewChange): ReplicaState {
    s.(viewChangeStore := s.viewChangeStore[VCIdx(vc.view, vc.replicaId) := vc])
  }

  // ---------------------------------------------------------------- new view

  function ForView(s: ReplicaState, v: nat): set<VCIdx> {
    set k | k in s.viewChangeStore && k.v == v
  }

  /** The checks of processNewView: the X set is the one computed from the V set. */
  ghost predicate NewViewOk(cfg: Config, nv: NewView, cp: StableId) {
    InitialCheckpoint(cfg, nv.vset, cp) && Assignment(cfg, nv.vset, cp.seqNo) == Some(nv.xset)
  }

  /** sendNewView. */
  ghost predicate CanSendNewView(cfg: Config, s: ReplicaState, nv: NewView, cp: StableId)
    requires cfg.Valid()
  {
    && cfg.Primary(s.view) == s.id && s.view !in s.newViewStore
    && |ForView(s, s.view)| == cfg.AllCorrectReplicasQuorum()
    && nv.view == s.view && nv.replicaId == s.id
    && (forall m | m in nv.vset :: VCIdx(m.view, m.replicaId) in s.viewChangeStore
                                   && s.viewChangeStore[VCIdx(m.view, m.replicaId)] == m)
    && (forall k | k in s.viewChangeStore :: s.viewChangeStore[k] in nv.vset)
    && |nv.vset| == |s.viewChangeStore|
    && NewViewOk(cfg, nv, cp)
  }

  /** recvNewView, its view-change signatures checked. */
  predicate CanStoreNewView(cfg: Config, s: ReplicaState, nv: NewView)
    requires cfg.Valid()
  {
    nv.view > 0 && nv.view >= s.view && cfg.Primary(nv.view) == nv.replicaId && nv.view !in s.newViewStore
  }

  function StoreNewView(s: ReplicaState, nv: NewView): ReplicaState {
    s.(newViewStore := s.newViewStore[nv.view := nv])
  }

  ghost predicate Checked(cfg: Config, s: ReplicaState, cp: StableId) {
    s.view in s.newViewStore && !s.activeView && NewViewOk(cfg, s.newViewStore[s.view], cp)
  }

  function NoteMissing(s: ReplicaState, d: Digest): ReplicaState {
    s.(missingReqs := s.missingReqs + {d})
  }

  function ReturnRequest(s: ReplicaState, req: Request): ReplicaState {
    s.(reqStore := s.reqStore[HashReq(req) := req], missingReqs := s.missingReqs - {HashReq(req)})
  }

  /** The certificate processNewView2 leaves for a number n of the X set. */
  function NewViewCert(cfg: Config, s: ReplicaState, n: nat, d: Digest): Cert
    requires cfg.Valid()
  {
    var c := GetCert(s, s.view, n).(prePrepare := Some(PrePrepare(s.view, n, d, None, s.id)));
    if cfg.Primary(s.view) == s.id then c
    else c.(prepare := c.prepare + [Prepare(s.view, n, d, s.id)], sentPrepare := true)
  }

  /** The largest of seqNo and the given numbers. */
  ghost function Raised(seqNo: nat, keys: set<nat>): (r: nat)
    ensures r >= seqNo
    ensures forall n | n in keys :: n <= r
    ensures r == seqNo || r in keys
  {
    if keys == {} then seqNo
    else
      var n :| n in keys;
      assert forall m | m in keys :: m == n || m in keys - {n};
      var r := Raised(seqNo, keys - {n});
      if n > r then n else r
  }

  /** processNewView2. */
  ghost function EnterView(cfg: Config, s: ReplicaState): ReplicaState
    requires cfg.Valid() && s.view in s.newViewStore
  {
    var x := s.newViewStore[s.view].xset;
    s.(activeView := true,
       newViewStore := if s.view == 0 then s.newViewStore else s.newViewStore - {s.view - 1},
       certStore := map idx | idx in s.certStore.Keys + (set n | n in x :: MsgID(s.view, n)) ::
                      if idx.v == s.view && idx.n in x then NewViewCert(cfg, s, idx.n, x[idx.n]) else s.certStore[idx],
       seqNo := Raised(s.seqNo, x.Keys))
  }

  // ------------------------------------------------------------------ actions

  datatype Action =
    | AStoreRequest(req: Request)
    | APropose(req: Request)
    | AAcceptPrePrepare(pp: PrePrepare)
    | ASendPrepare(d: Digest, v: nat, n: nat)
    | AAddPrepare(p: Prepare)
    | ASendCommit(d: Digest, v: nat, n: nat)
    | AAddCommit(c: Commit)
    | AExecute(idx: MsgID)
    | ATakeCheckpoint(id: string)
    | ANoteHigh(chkpt: Checkpoint)
    | AForgetHigh(ids: set<nat>)
    | AFallBehind(m: nat)
    | ABeginSkip
    | ASkipTo(n: nat)
    | ACleanUp(n: nat)
    | AAddCheckpoint(chkpt: Checkpoint)
    | AWeakSkip(n: nat, id: string)
    | AStabilize(n: nat, id: string)
    | ASendViewChange(vc: ViewChange)
    | AStoreViewChange(vc: ViewChange)
    | ASendNewView(nv: NewView, cp: StableId)
    | AStoreNewView(nv: NewView)
    | ASkipToBase(cp: StableId)
    | ANoteMissing(d: Digest)
    | AReturnRequest(req: Request)
    | AEnterView(cp: StableId)

  ghost predicate Enabled(cfg: Config, s: ReplicaState, a: Action)
    requires cfg.Valid()
  {
    match a
    case AStoreRequest(req) => true
    case APropose(req) => CanPropose(cfg, s, req)
    case AAcceptPrePrepare(pp) => CanAcceptPrePrepare(cfg, s, pp)
    case ASendPrepare(d, v, n) => CanSendPrepare(cfg, s, d, v, n)
    case AAddPrepare(p) => CanAddPrepare(cfg, s, p)
    case ASendCommit(d, v, n) => CanSendCommit(cfg, s, d, v, n)
    case AAddCommit(c) => CanAddCommit(cfg, s, c)
    case AExecute(idx) => CanExecute(cfg, s, idx)
    case ATakeCheckpoint(id) => true
    case ANoteHigh(c) => true
    case AForgetHigh(ids) => true
    case AFallBehind(m) => CanFallBehind(cfg, s, m)
    case ABeginSkip => true
    case ASkipTo(n) => n == s.h
    case ACleanUp(n) => n == s.h
    case AAddCheckpoint(c) => InW(cfg, s, c.seqNo)
    case AWeakSkip(n, id) => CanWeakSkip(cfg, s, n, id)
    case AStabilize(n, id) => CanStabilize(cfg, s, n, id)
    case ASendViewChange(vc) => vc.view > s.view && Announces(SendViewChange(cfg, s, vc.view), vc)
    case AStoreViewChange(vc) => CanStoreViewChange(cfg, s, vc)
    case ASendNewView(nv, cp) => CanSendNewView(cfg, s, nv, cp)
    case AStoreNewView(nv) => CanStoreNewView(cfg, s, nv)
    case ASkipToBase(cp) => Checked(cfg, s, cp) && s.h < cp.seqNo
    case ANoteMissing(d) => true
    case AReturnRequest(req) => HashReq(req) in s.missingReqs
    case AEnterView(cp) => Checked(cfg, s, cp) && s.h >= cp.seqNo && s.missingReqs == {}
  }

  /** The state after an enabled action. */
  ghost function Apply(cfg: Config, s: ReplicaState, a: Action): ReplicaState
    requires cfg.Valid()
  {
    match a
    case AStoreRequest(req) => StoreRequest(s, req)
    case APropose(req) => Propose(s, req)
    case AAcceptPrePrepare(pp) => AcceptPrePrepare(s, pp)
    case ASendPrepare(d, v, n) => SendPrepare(s, v, n)
    case AAddPrepare(p) => AddPrepare(s, p)
    case ASendCommit(d, v, n) => SendCommit(s, v, n)
    case AAddCommit(c) => AddCommit(s, c)
    case AExecute(idx) =>
      if idx in s.certStore && s.certStore[idx].prePrepare.Some? then Execute(s, idx) else s
    case ATakeCheckpoint(id) => TakeCheckpoint(s, id)
    case ANoteHigh(c) => s.(hChkpts := s.hChkpts[c.replicaId := c.seqNo])
    case AForgetHigh(ids) => s.(hChkpts := s.hChkpts - ids)
    case AFallBehind(m) => FallBehind(s, m)
    case ABeginSkip => BeginSkip(s)
    case ASkipTo(n) => SkipTo(s, n)
    case ACleanUp(n) => MoveWatermarks(s, n)
    case AAddCheckpoint(c) => AddCheckpoint(s, c)
    case AWeakSkip(n, id) => WeakSkip(s, n)
    case AStabilize(n, id) => MoveWatermarks(s, n)
    case ASendViewChange(vc) => if vc.view > s.view then SendViewChange(cfg, s, vc.view) else s
    case AStoreViewChange(vc) => StoreViewChange(s, vc)
    case ASendNewView(nv, cp) => StoreNewView(s, nv)
    case AStoreNewView(nv) => StoreNewView(s, nv)
    case ASkipToBase(cp) => MoveWatermarks(s, cp.seqNo)
    case ANoteMissing(d) => NoteMissing(s, d)
    case AReturnRequest(req) => ReturnRequest(s, req)
    case AEnterView(cp) => if s.view in s.newViewStore then EnterView(cfg, s) else s
  }

  /** The messages an action broadcasts. */
  ghost function Sent(cfg: Config, s: ReplicaState, a: Action): set<Message>
    requires cfg.Valid()
  {
    match a
    case APropose(req) => {MPrePrepare(ProposalFor(s, req))}
    case ASendPrepare(d, v, n) => {MPrepare(Prepare(v, n, d, s.id))}
    case ASendCommit(d, v, n) => {MCommit(Commit(v, n, d, s.id))}
    case ATakeCheckpoint(id) => {MCheckpoint(Checkpoint(s.lastExec, s.id, id))}
    case ASendViewChange(vc) => {MViewChange(vc)}
    case ASendNewView(nv, cp) => {MNewView(nv)}
    case AEnterView(cp) =>
      if cfg.Primary(s.view) == s.id || s.view !in s.newViewStore then {}
      else var x := s.newViewStore[s.view].xset;
           set n | n in x :: MPrepare(Prepare(s.view, n, x[n], s.id))
    case _ => {}
  }
}
