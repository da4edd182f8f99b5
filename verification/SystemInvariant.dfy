/** The invariant of the replica system. */
module SystemInvariant {
  import opened PbftTypes
  import opened ReplicaModel
  import opened ReplicaInvariant
  import opened PbftSystem

  // ------------------------------------ where the contents of a state come from

  ghost predicate DistinctPrepares(ps: seq<Prepare>) {
    forall i, j | 0 <= i < j < |ps| :: ps[i].replicaId != ps[j].replicaId
  }

  ghost predicate DistinctCommits(cs: seq<Commit>) {
    forall i, j | 0 <= i < j < |cs| :: cs[i].replicaId != cs[j].replicaId
  }

  ghost predicate CertSourced(cfg: Config, net: set<Message>, held: set<Proposal>, r: nat, idx: MsgID, c: Cert)
    requires cfg.Valid()
  {
    && (forall p | p in c.prepare :: MPrepare(p) in net) && DistinctPrepares(c.prepare)
    && (forall m | m in c.commit :: MCommit(m) in net) && DistinctCommits(c.commit)
    && (c.prePrepare.Some? ==>
          && Proposed(cfg, net, idx.v, idx.n, c.prePrepare.value.digest)
          && Proposal(r, idx.v, idx.n, c.prePrepare.value.digest) in held)
  }

  ghost predicate CertsSourced(cfg: Config, net: set<Message>, held: set<Proposal>, s: ReplicaState)
    requires cfg.Valid()
  {
    forall idx | idx in s.certStore :: CertSourced(cfg, net, held, s.id, idx, s.certStore[idx])
  }

  ghost predicate PQSourced(cfg: Config, net: set<Message>, held: set<Proposal>, s: ReplicaState)
    requires cfg.Valid()
  {
    && (forall n | n in s.pset ::
          && PreparedCert(cfg, net, s.pset[n].view, n, s.pset[n].digest)
          && Proposal(s.id, s.pset[n].view, n, s.pset[n].digest) in held)
    && (forall k | k in s.qset :: Proposal(s.id, s.qset[k].view, k.n, k.d) in held)
  }

  ghost predicate StoresSourced(w: World, net: set<Message>, s: ReplicaState) {
    && (forall v | v in s.newViewStore ::
          && MNewView(s.newViewStore[v]) in net
          && forall m | m in s.newViewStore[v].vset :: Authentic(w, net, m))
    && (forall k | k in s.viewChangeStore :: MViewChange(s.viewChangeStore[k]) in net)
  }

  ghost predicate CheckpointsSourced(net: set<Message>, s: ReplicaState) {
    && (forall c | c in s.checkpointStore :: MCheckpoint(c) in net)
    && (forall k | k in s.hChkpts :: exists id :: MCheckpoint(Checkpoint(s.hChkpts[k], k, id)) in net)
  }

  ghost predicate Sourced(w: World, net: set<Message>, held: set<Proposal>, s: ReplicaState)
    requires w.cfg.Valid()
  {
    && CertsSourced(w.cfg, net, held, s) && PQSourced(w.cfg, net, held, s)
    && StoresSourced(w, net, s) && CheckpointsSourced(net, s)
  }

  // --------------------------------------- what a replica's own messages say of it

  ghost predicate OwnPrepare(cfg: Config, s: ReplicaState, p: Prepare)
    requires cfg.Valid()
  {
    && p.view <= s.view && cfg.Primary(p.view) != s.id
    && (p.view == s.view ==>
          && s.activeView
          && (p.seqNo <= s.h ||
              var c := GetCert(s, p.view, p.seqNo);
              c.sentPrepare && c.prePrepare.Some? && c.prePrepare.value.digest == p.digest))
  }

  ghost predicate OwnMessage(cfg: Config, s: ReplicaState, m: Message)
    requires cfg.Valid()
  {
    match m
    case MPrepare(p) => OwnPrepare(cfg, s, p)
    case MPrePrepare(pp) =>
      && cfg.Primary(pp.view) == s.id && pp.view <= s.view
      && (pp.view == s.view ==> s.activeView && pp.seqNo <= s.seqNo)
    case MNewView(nv) =>
      && cfg.Primary(nv.view) == s.id && 0 < nv.view <= s.view
      && (nv.view == s.view ==> s.view in s.newViewStore && s.newViewStore[s.view] == nv)
    case MViewChange(vc) => 0 < vc.view <= s.view && vc.h <= s.h
    case MCommit(c) => c.view <= s.view && c.seqNo <= s.h + cfg.L
    case MCheckpoint(c) => true
  }

  ghost predicate OwnMessages(cfg: Config, net: set<Message>, s: ReplicaState)
    requires cfg.Valid()
  {
    forall m | m in net && m.Sender() == s.id :: OwnMessage(cfg, s, m)
  }

  /** A replica still knows that it prepared what it sent a commit for. */
  ghost predicate RemembersCommit(cfg: Config, s: ReplicaState, c: Commit) {
    || c.seqNo <= s.h
    || (c.view == s.view && CertProposes(GetCert(s, c.view, c.seqNo), c.view, c.seqNo, c.digest)
        && PrepareCount(GetCert(s, c.view, c.seqNo).prepare, c.view, c.seqNo, c.digest) + 1 >= cfg.IntersectionQuorum())
    || (c.view < s.view && c.seqNo in s.pset && s.pset[c.seqNo].view >= c.view)
  }

  ghost predicate RemembersCommits(cfg: Config, net: set<Message>, s: ReplicaState) {
    forall c | MCommit(c) in net && c.replicaId == s.id :: RemembersCommit(cfg, s, c)
  }

  // ------------------------------------------- what correct replicas ever sent

  ghost predicate OnePrepareEach(w: World, net: set<Message>) {
    forall p, q | MPrepare(p) in net && MPrepare(q) in net && w.Correct(p.replicaId) && q.replicaId == p.replicaId
                  && q.view == p.view && q.seqNo == p.seqNo :: q.digest == p.digest
  }

  ghost predicate OnePrePrepareEach(w: World, net: set<Message>) {
    forall p, q | MPrePrepare(p) in net && MPrePrepare(q) in net && w.Correct(p.replicaId) && q.replicaId == p.replicaId
                  && q.view == p.view && q.seqNo == p.seqNo :: q.digest == p.digest
  }

  ghost predicate OneNewViewEach(w: World, net: set<Message>) {
    forall p, q | MNewView(p) in net && MNewView(q) in net && w.Correct(p.replicaId) && q.replicaId == p.replicaId
                  && q.view == p.view :: q == p
  }

  ghost predicate ProposalsApart(w: World, net: set<Message>) {
    forall p, q | MPrePrepare(p) in net && MNewView(q) in net && w.Correct(p.replicaId) && q.replicaId == p.replicaId
                  && q.view == p.view :: p.seqNo !in q.xset
  }

  ghost predicate CommitsPrepared(w: World, net: set<Message>, held: set<Proposal>)
    requires w.cfg.Valid()
  {
    forall c | MCommit(c) in net && w.Correct(c.replicaId) ::
      && PreparedCert(w.cfg, net, c.view, c.seqNo, c.digest)
      && Proposal(c.replicaId, c.view, c.seqNo, c.digest) in held
  }

  ghost predicate ViewChangeSourced(cfg: Config, net: set<Message>, held: set<Proposal>, vc: ViewChange)
    requires cfg.Valid()
  {
    && (forall p | p in vc.pset ::
          && PreparedCert(cfg, net, p.view, p.seqNo, p.digest)
          && Proposal(vc.replicaId, p.view, p.seqNo, p.digest) in held)
    && (forall q | q in vc.qset :: Proposal(vc.replicaId, q.view, q.seqNo, q.digest) in held)
  }

  ghost predicate ViewChangesSourced(w: World, net: set<Message>, held: set<Proposal>)
    requires w.cfg.Valid()
  {
    forall vc | MViewChange(vc) in net && w.Correct(vc.replicaId) :: ViewChangeSourced(w.cfg, net, held, vc)
  }

  /** A view-change sent after a commit stays within reach of its number. */
  ghost predicate ViewChangesReach(w: World, net: set<Message>) {
    forall vc, c | MViewChange(vc) in net && MCommit(c) in net && w.Correct(vc.replicaId)
                   && c.replicaId == vc.replicaId && c.view < vc.view :: c.seqNo <= vc.h + w.cfg.L
  }

  ghost predicate Reported(vc: ViewChange, c: Commit) {
    c.seqNo <= vc.h || exists p :: p in vc.pset && p.seqNo == c.seqNo && p.view >= c.view
  }

  /** A view-change sent after a commit reports it, unless the watermark passed it. */
  ghost predicate ViewChangesReport(w: World, net: set<Message>) {
    forall vc, c | MViewChange(vc) in net && MCommit(c) in net && w.Correct(vc.replicaId)
                   && c.replicaId == vc.replicaId && c.view < vc.view :: Reported(vc, c)
  }

  // ------------------------------------------------------------ the invariant

  ghost predicate ReplicaInv(w: World, y: Sys, r: nat)
    requires w.Valid() && r < |y.replicas|
  {
    var s := y.replicas[r];
    && s.id == r && LocalInv(w.cfg, s) && Sourced(w, y.net, y.held, s) && OwnMessages(w.cfg, y.net, s)
    && (y.retained ==> RemembersCommits(w.cfg, y.net, s))
  }

  ghost predicate MessageInv(w: World, y: Sys)
    requires w.Valid()
  {
    && (forall m | m in y.net :: m.Sender() < w.cfg.N)
    && OnePrepareEach(w, y.net) && OnePrePrepareEach(w, y.net) && OneNewViewEach(w, y.net) && ProposalsApart(w, y.net)
    && CommitsPrepared(w, y.net, y.held) && ViewChangesSourced(w, y.net, y.held)
    && ViewChangesReach(w, y.net) && (y.retained ==> ViewChangesReport(w, y.net))
  }

  ghost predicate SysInv(w: World, y: Sys)
    requires w.Valid()
  {
    && |y.replicas| == w.cfg.N
    && (forall r | w.Correct(r) :: ReplicaInv(w, y, r))
    && MessageInv(w, y)
  }

  lemma StartInv(w: World)
    requires w.Valid()
    ensures SysInv(w, Start(w))
  {
  }

  // ------------------------------------------------------ growth of the net

  lemma SourcedStays(w: World, net: set<Message>, net': set<Message>, held: set<Proposal>, held': set<Proposal>, s: ReplicaState)
    requires w.Valid() && Sourced(w, net, held, s) && net <= net' && held <= held'
    ensures Sourced(w, net', held', s)
  {
    forall idx | idx in s.certStore ensures CertSourced(w.cfg, net', held', s.id, idx, s.certStore[idx]) {
      var c := s.certStore[idx];
      assert CertSourced(w.cfg, net, held, s.id, idx, c);
      if c.prePrepare.Some? {
        CertificatesStay(w.cfg, net, net', idx.v, idx.n, c.prePrepare.value.digest);
      }
    }
    forall n | n in s.pset ensures PreparedCert(w.cfg, net', s.pset[n].view, n, s.pset[n].digest) {
      CertificatesStay(w.cfg, net, net', s.pset[n].view, n, s.pset[n].digest);
    }
  }
}
