/** N replicas, at most f of them faulty, over a growing set of messages. */
module PbftSystem {
  import opened PbftTypes
  import opened Quorums
  import opened ReplicaModel

  datatype World = World(cfg: Config, faulty: set<nat>, startupId: string) {
    ghost predicate Valid() {
      cfg.Valid() && faulty <= Replicas(cfg.N) && |faulty| <= cfg.f
    }

    predicate Correct(r: nat) { r < cfg.N && r !in faulty }
  }

  /** History: replica r held a pre-prepare for d at (v, n). */
  datatype Proposal = Proposal(r: nat, v: nat, n: nat, d: Digest)

  /** History: replica r entered a view with this new-view, starting from cp. */
  datatype Acceptance = Acceptance(r: nat, nv: NewView, cp: StableId)

  /** History: replica r moved its low watermark to n on a quorum for id. */
  datatype Stable = Stable(r: nat, n: nat, id: string)

  /** The history variables only record; no action reads them. `retained` says whether
      every view-change so far was sent with the proposed requests still stored. */
  datatype Sys = Sys(replicas: seq<ReplicaState>, net: set<Message>, held: set<Proposal>,
                     accepted: set<Acceptance>, stable: set<Stable>, retained: bool)

  ghost function Start(w: World): Sys {
    Sys(seq(w.cfg.N, i requires 0 <= i < w.cfg.N => Initial(i, w.startupId)), {}, {}, {}, {}, true)
  }

  /** An ideal signature: only the signer itself can have issued the view-change. */
  ghost predicate Authentic(w: World, net: set<Message>, vc: ViewChange) {
    vc.replicaId in w.faulty || MViewChange(vc) in net
  }

  /** The messages an action consumes have been sent by their claimed senders. */
  ghost predicate Delivered(w: World, net: set<Message>, a: Action) {
    match a
    case AAcceptPrePrepare(pp) => MPrePrepare(pp) in net
    case AAddPrepare(p) => MPrepare(p) in net
    case AAddCommit(c) => MCommit(c) in net
    case ANoteHigh(c) => MCheckpoint(c) in net
    case AAddCheckpoint(c) => MCheckpoint(c) in net
    case AStoreViewChange(vc) => MViewChange(vc) in net
    case AStoreNewView(nv) => MNewView(nv) in net && forall m | m in nv.vset :: Authentic(w, net, m)
    case _ => true
  }

  ghost function HeldBy(s: ReplicaState): set<Proposal> {
    set idx | idx in s.certStore && s.certStore[idx].prePrepare.Some? ::
      Proposal(s.id, idx.v, idx.n, s.certStore[idx].prePrepare.value.digest)
  }

  ghost predicate CanStep(w: World, y: Sys, r: nat, a: Action)
    requires w.Valid()
  {
    w.Correct(r) && r < |y.replicas| && Enabled(w.cfg, y.replicas[r], a) && Delivered(w, y.net, a)
  }

  /** A correct replica performs an action. */
  ghost function Stepped(w: World, y: Sys, r: nat, a: Action): Sys
    requires w.Valid() && CanStep(w, y, r, a)
  {
    var s := y.replicas[r];
    var s' := Apply(w.cfg, s, a);
    Sys(y.replicas[r := s'], y.net + Sent(w.cfg, s, a), y.held + HeldBy(s'),
        if a.AEnterView? then y.accepted + {Acceptance(r, s.newViewStore[s.view], a.cp)} else y.accepted,
        if a.AStabilize? then y.stable + {Stable(r, a.n, a.id)} else y.stable,
        y.retained && (a.ASendViewChange? ==> RequestsRetained(s)))
  }

  ghost predicate LocalNext(w: World, y: Sys, r: nat, a: Action, y': Sys)
    requires w.Valid()
  {
    CanStep(w, y, r, a) && y' == Stepped(w, y, r, a)
  }

  /** A faulty replica sends anything under its own id. */
  ghost predicate FaultyNext(w: World, y: Sys, m: Message, y': Sys) {
    m.Sender() in w.faulty && y' == y.(net := y.net + {m})
  }

  ghost predicate Next(w: World, y: Sys, y': Sys)
    requires w.Valid()
  {
    (exists r, a :: LocalNext(w, y, r, a, y')) || (exists m :: FaultyNext(w, y, m, y'))
  }

  ghost predicate StepAt(w: World, run: seq<Sys>, i: nat)
    requires w.Valid() && i + 1 < |run|
  {
    Next(w, run[i], run[i + 1])
  }

  ghost predicate IsRun(w: World, run: seq<Sys>)
    requires w.Valid()
  {
    run != [] && run[0] == Start(w) && forall i: nat | i + 1 < |run| :: StepAt(w, run, i)
  }

  // ------------------------------------------------------------ certificates

  ghost predicate ByPrePrepare(cfg: Config, net: set<Message>, pp: PrePrepare, v: nat, n: nat, d: Digest)
    requires cfg.Valid()
  {
    MPrePrepare(pp) in net && pp.view == v && pp.seqNo == n && pp.digest == d && pp.replicaId == cfg.Primary(v)
  }

  ghost predicate ByNewView(cfg: Config, net: set<Message>, nv: NewView, v: nat, n: nat, d: Digest)
    requires cfg.Valid()
  {
    MNewView(nv) in net && nv.view == v && nv.replicaId == cfg.Primary(v) && n in nv.xset && nv.xset[n] == d
  }

  /** The primary of v assigned d to n, by a pre-prepare or by its new-view. */
  ghost predicate Proposed(cfg: Config, net: set<Message>, v: nat, n: nat, d: Digest)
    requires cfg.Valid()
  {
    (exists pp :: ByPrePrepare(cfg, net, pp, v, n, d)) || (exists nv :: ByNewView(cfg, net, nv, v, n, d))
  }

  ghost function Preparers(cfg: Config, net: set<Message>, v: nat, n: nat, d: Digest): set<nat>
    requires cfg.Valid()
  {
    set b | b in Replicas(cfg.N) && b != cfg.Primary(v) && MPrepare(Prepare(v, n, d, b)) in net
  }

  /** A prepared certificate: the proposal and prepares from all but one of an
      intersection quorum of distinct backups. */
  ghost predicate PreparedCert(cfg: Config, net: set<Message>, v: nat, n: nat, d: Digest)
    requires cfg.Valid()
  {
    Proposed(cfg, net, v, n, d) && |Preparers(cfg, net, v, n, d)| + 1 >= cfg.IntersectionQuorum()
  }

  ghost predicate HasCommit(net: set<Message>, v: nat, n: nat, b: nat) {
    exists d :: MCommit(Commit(v, n, d, b)) in net
  }

  ghost function Committers(cfg: Config, net: set<Message>, v: nat, n: nat): set<nat> {
    set b | b in Replicas(cfg.N) && HasCommit(net, v, n, b)
  }

  /** A commit certificate as `committed` sees it: the digests of the commits are not compared. */
  ghost predicate CommittedCert(cfg: Config, net: set<Message>, v: nat, n: nat, d: Digest)
    requires cfg.Valid()
  {
    PreparedCert(cfg, net, v, n, d) && |Committers(cfg, net, v, n)| >= cfg.IntersectionQuorum()
  }

  lemma CertificatesStay(cfg: Config, net: set<Message>, net': set<Message>, v: nat, n: nat, d: Digest)
    requires cfg.Valid() && net <= net'
    ensures Proposed(cfg, net, v, n, d) ==> Proposed(cfg, net', v, n, d)
    ensures PreparedCert(cfg, net, v, n, d) ==> PreparedCert(cfg, net', v, n, d)
    ensures CommittedCert(cfg, net, v, n, d) ==> CommittedCert(cfg, net', v, n, d)
  {
    if pp :| ByPrePrepare(cfg, net, pp, v, n, d) { assert ByPrePrepare(cfg, net', pp, v, n, d); }
    if nv :| ByNewView(cfg, net, nv, v, n, d) { assert ByNewView(cfg, net', nv, v, n, d); }
    SubsetSize(Preparers(cfg, net, v, n, d), Preparers(cfg, net', v, n, d));
    SubsetSize(Committers(cfg, net, v, n), Committers(cfg, net', v, n));
  }
}
