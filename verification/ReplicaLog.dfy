/** Loops over certificates, and how each action extends the chain of a handler. */
module ReplicaLog {
  import opened Common
  import opened PbftTypes
  import opened Quorums
  import opened ReplicaModel
  import opened ReplicaInvariant
  import opened ReplicaChains

  // ---------------------------------------------------------------- counting

  /** The counting loop of `prepared`. */
  method CountPrepares(ps: seq<Prepare>, v: nat, n: nat, d: Digest) returns (quorum: nat)
    ensures quorum == PrepareCount(ps, v, n, d)
  {
    quorum := 0;
    var i := 0;
    while i < |ps|
      invariant 0 <= i <= |ps| && quorum == PrepareCount(ps[..i], v, n, d)
    {
      assert ps[..i + 1][..i] == ps[..i];
      if ps[i].view == v && ps[i].seqNo == n && ps[i].digest == d {
        quorum := quorum + 1;
      }
      i := i + 1;
    }
    assert ps[..i] == ps;
  }

  /** The counting loop of `committed`, which does not compare digests. */
  method CountCommits(cs: seq<Commit>, v: nat, n: nat) returns (quorum: nat)
    ensures quorum == CommitCount(cs, v, n)
  {
    quorum := 0;
    var i := 0;
    while i < |cs|
      invariant 0 <= i <= |cs| && quorum == CommitCount(cs[..i], v, n)
    {
      assert cs[..i + 1][..i] == cs[..i];
      if cs[i].view == v && cs[i].seqNo == n {
        quorum := quorum + 1;
      }
      i := i + 1;
    }
    assert cs[..i] == cs;
  }

  /** The certificates that may still be executed. */
  ghost function Ahead(s: ReplicaState): set<MsgID> {
    set idx | idx in s.certStore && idx.n > s.lastExec
  }

  lemma ExecuteAdvances(cfg: Config, s: ReplicaState, idx: MsgID)
    requires CanExecute(cfg, s, idx)
    ensures |Ahead(Execute(s, idx))| < |Ahead(s)|
  {
    var a, b := Ahead(Execute(s, idx)), Ahead(s);
    assert idx in b && idx !in a && a <= b;
    SubsetSize(a, b - {idx});
  }

  /** No certificate can be executed. */
  ghost predicate Drained(cfg: Config, s: ReplicaState) {
    forall idx :: !CanExecute(cfg, s, idx)
  }

  /** What execution leaves alone. */
  ghost predicate SameButExecuted(s: ReplicaState, s': ReplicaState) {
    && s' == s.(lastExec := s'.lastExec, outstandingReqs := s'.outstandingReqs, deliveries := s'.deliveries)
    && Fewer(s.outstandingReqs, s'.outstandingReqs)
  }

  /** Requests are only struck off. */
  ghost predicate Fewer(a: map<Digest, Request>, b: map<Digest, Request>) {
    forall d :: StruckOff(a, b, d)
  }

  ghost predicate StruckOff(a: map<Digest, Request>, b: map<Digest, Request>, d: Digest) {
    d in b ==> d in a && b[d] == a[d]
  }

  lemma FewerStill(a: map<Digest, Request>, b: map<Digest, Request>, c: map<Digest, Request>)
    requires Fewer(a, b) && Fewer(b, c)
    ensures Fewer(a, c)
  {
    forall d ensures StruckOff(a, c, d) {
      assert StruckOff(a, b, d) && StruckOff(b, c, d);
    }
  }

  /** s is where the legal chain leads, and keeps the invariant. */
  ghost predicate Reached(cfg: Config, verified: ViewChange -> bool, c: Chain, s: ReplicaState) {
    cfg.Valid() && LocalInv(cfg, s) && Legal(cfg, verified, c) && c.Last() == s
  }

  lemma ReachOneMore(cfg: Config, verified: ViewChange -> bool, c: Chain, s: ReplicaState, a: Action)
    requires Reached(cfg, verified, c, s) && Continues(cfg, verified, c.Known(), s, a)
    ensures Reached(cfg, verified, Grown(c, a, Apply(cfg, s, a), Sent(cfg, s, a)), Apply(cfg, s, a))
  {
    GrowLegal(cfg, verified, c, a);
    ActionKeeps(cfg, s, a);
  }

  /** Leaving for a later view is possible with every message that announces it. */
  lemma CanLeave(cfg: Config, s: ReplicaState, t: ReplicaState, vc: ViewChange)
    requires cfg.Valid() && vc.view > s.view && SendViewChange(cfg, s, vc.view) == t && Announces(t, vc)
    ensures Enabled(cfg, s, ASendViewChange(vc)) && Apply(cfg, s, ASendViewChange(vc)) == t
    ensures Sent(cfg, s, ASendViewChange(vc)) == {MViewChange(vc)}
  {
  }

  /** The prepares a backup broadcasts when it enters a view. */
  ghost function NewViewPrepares(cfg: Config, s: ReplicaState): set<Message>
    requires cfg.Valid() && s.view in s.newViewStore
  {
    if cfg.Primary(s.view) == s.id then {}
    else var x := s.newViewStore[s.view].xset; set n | n in x :: MPrepare(Prepare(s.view, n, x[n], s.id))
  }

  /** The checks of executeOne. */
  method Executable(cfg: Config, s: ReplicaState, idx: MsgID) returns (b: bool)
    ensures b <==> CanExecute(cfg, s, idx)
  {
    if idx.n != s.lastExec + 1 || idx !in s.certStore || s.certStore[idx].prePrepare.None? || s.skipInProgress {
      return false;
    }
    b := CommittedIn(cfg, s, s.certStore[idx].prePrepare.value.digest, idx.v, idx.n);
  }

  method PreparedIn(cfg: Config, s: ReplicaState, d: Digest, v: nat, n: nat) returns (b: bool)
    ensures b == Prepared(cfg, s, d, v, n)
  {
    if !PrePrepared(s, d, v, n) {
      return false;
    }
    if n in s.pset && s.pset[n].view == v && s.pset[n].digest == d {
      return true;
    }
    if MsgID(v, n) !in s.certStore {
      return false;
    }
    var quorum := CountPrepares(s.certStore[MsgID(v, n)].prepare, v, n, d);
    return quorum >= cfg.IntersectionQuorum() - 1;
  }

  method CommittedIn(cfg: Config, s: ReplicaState, d: Digest, v: nat, n: nat) returns (b: bool)
    ensures b == Committed(cfg, s, d, v, n)
  {
    b := PreparedIn(cfg, s, d, v, n);
    if !b || MsgID(v, n) !in s.certStore {
      return false;
    }
    var quorum := CountCommits(s.certStore[MsgID(v, n)].commit, v, n);
    return quorum >= cfg.IntersectionQuorum();
  }

  /** What requests, prepares and commits leave alone. */
  ghost predicate SameControl(s: ReplicaState, s': ReplicaState) {
    s' == s.(seqNo := s'.seqNo, lastExec := s'.lastExec, outstandingReqs := s'.outstandingReqs, reqStore := s'.reqStore,
             certStore := s'.certStore, deliveries := s'.deliveries)
  }

  method PreparedFrom(ps: seq<Prepare>, r: nat) returns (b: bool)
    ensures b <==> exists p :: p in ps && p.replicaId == r
  {
    var i := 0;
    while i < |ps|
      invariant 0 <= i <= |ps| && forall j | 0 <= j < i :: ps[j].replicaId != r
    {
      if ps[i].replicaId == r {
        return true;
      }
      i := i + 1;
    }
    return false;
  }

  /** The checks of recvPrepare. */
  method TakesPrepare(cfg: Config, s: ReplicaState, p: Prepare) returns (b: bool)
    requires cfg.Valid()
    ensures b <==> CanAddPrepare(cfg, s, p)
  {
    if cfg.Primary(p.view) == p.replicaId || !InWV(cfg, s, p.view, p.seqNo) {
      return false;
    }
    var duplicate := PreparedFrom(GetCert(s, p.view, p.seqNo).prepare, p.replicaId);
    return !duplicate;
  }

  /** The checks of recvCommit. */
  method TakesCommit(cfg: Config, s: ReplicaState, m: Commit) returns (b: bool)
    ensures b <==> CanAddCommit(cfg, s, m)
  {
    if !InWV(cfg, s, m.view, m.seqNo) {
      return false;
    }
    var duplicate := CommittedFrom(GetCert(s, m.view, m.seqNo).commit, m.replicaId);
    return !duplicate;
  }

  method CommittedFrom(cs: seq<Commit>, r: nat) returns (b: bool)
    ensures b <==> exists c :: c in cs && c.replicaId == r
  {
    var i := 0;
    while i < |cs|
      invariant 0 <= i <= |cs| && forall j | 0 <= j < i :: cs[j].replicaId != r
    {
      if cs[i].replicaId == r {
        return true;
      }
      i := i + 1;
    }
    return false;
  }

  predicate OtherNumber(c: Cert, v: nat, n: nat, d: Digest) {
    c.prePrepare.Some? && c.prePrepare.value.view == v && c.prePrepare.value.seqNo != n && c.prePrepare.value.digest == d
  }

  /** Is there a pre-prepare for the digest at another number of the view? */
  method HaveOther(certs: map<MsgID, Cert>, v: nat, n: nat, d: Digest) returns (b: bool)
    ensures b <==> exists idx :: idx in certs && OtherNumber(certs[idx], v, n, d)
  {
    var todo := certs.Keys;
    while todo != {}
      invariant todo <= certs.Keys && forall idx | idx in certs && idx !in todo :: !OtherNumber(certs[idx], v, n, d)
      decreases |todo|
    {
      var idx :| idx in todo;
      if OtherNumber(certs[idx], v, n, d) {
        return true;
      }
      todo := todo - {idx};
    }
    return false;
  }

  /** Some certificate holds a proposal of d. */
  ghost predicate Proposes(certs: map<MsgID, Cert>, d: Digest) {
    exists idx :: ProposesAt(certs, idx, d)
  }

  ghost predicate ProposesAt(certs: map<MsgID, Cert>, idx: MsgID, d: Digest) {
    idx in certs && certs[idx].prePrepare.Some? && certs[idx].prePrepare.value.digest == d
  }

  method HaveProposal(certs: map<MsgID, Cert>, d: Digest) returns (b: bool)
    ensures b <==> Proposes(certs, d)
  {
    var todo := certs.Keys;
    while todo != {}
      invariant todo <= certs.Keys
      invariant forall idx | idx !in todo :: !ProposesAt(certs, idx, d)
      decreases |todo|
    {
      var idx :| idx in todo;
      if certs[idx].prePrepare.Some? && certs[idx].prePrepare.value.digest == d {
        assert ProposesAt(certs, idx, d);
        return true;
      }
      todo := todo - {idx};
    }
    return false;
  }

  /** The checks recvRequest makes before the primary assigns a number. */
  method MayPropose(cfg: Config, s: ReplicaState, req: Request) returns (b: bool)
    requires cfg.Valid() && HashReq(req) in s.reqStore
    ensures b <==> CanPropose(cfg, s, req)
  {
    if cfg.Primary(s.view) != s.id || !s.activeView {
      return false;
    }
    var n := s.seqNo + 1;
    var haveOther := HaveOther(s.certStore, s.view, n, HashReq(req));
    return InWV(cfg, s, s.view, n) && !haveOther;
  }

  // ------------------------------------------ the effect of whole handlers
  // These leave out execution, which only moves lastExec, outstandingReqs and deliveries.

  /** maybeSendCommit: the commit is sent and taken in by its sender. */
  ghost function WithCommit(cfg: Config, s: ReplicaState, d: Digest, v: nat, n: nat): ReplicaState {
    if Prepared(cfg, s, d, v, n) && !GetCert(s, v, n).sentCommit then
      var sent, own := SendCommit(s, v, n), Commit(v, n, d, s.id);
      if CanAddCommit(cfg, sent, own) then AddCommit(sent, own) else sent
    else s
  }

  /** recvPrepare. */
  ghost function WithPrepare(cfg: Config, s: ReplicaState, p: Prepare): ReplicaState
    requires cfg.Valid()
  {
    if CanAddPrepare(cfg, s, p) then WithCommit(cfg, AddPrepare(s, p), p.digest, p.view, p.seqNo) else s
  }

  /** The prepare by which a backup answers a proposal, sent and taken in by its sender. */
  ghost function WithAnswer(cfg: Config, s: ReplicaState, d: Digest, v: nat, n: nat): ReplicaState
    requires cfg.Valid()
  {
    if cfg.Primary(s.view) != s.id && PrePrepared(s, d, v, n) && !GetCert(s, v, n).sentPrepare
    then WithPrepare(cfg, SendPrepare(s, v, n), Prepare(v, n, d, s.id)) else s
  }

  /** The request that comes with a proposal is taken if it is wanted and fits. */
  function WithRequest(s: ReplicaState, pp: PrePrepare, acceptable: Request -> bool): ReplicaState {
    if pp.digest !in s.reqStore && pp.request.Some? && HashReq(pp.request.value) == pp.digest && acceptable(pp.request.value)
    then StoreRequest(s, pp.request.value) else s
  }

  /** recvPrePrepare. */
  ghost function WithPrePrepare(cfg: Config, s: ReplicaState, pp: PrePrepare, acceptable: Request -> bool): ReplicaState
    requires cfg.Valid()
  {
    if !FromPrimary(cfg, s, pp) then s
    else
      var known := WithRequest(WithProposed(s, pp), pp, acceptable);
      if pp.digest in known.reqStore then WithAnswer(cfg, known, pp.digest, pp.view, pp.seqNo) else known
  }

  /** A proposal of the primary for the current view and window. */
  predicate FromPrimary(cfg: Config, s: ReplicaState, pp: PrePrepare)
    requires cfg.Valid()
  {
    s.activeView && cfg.Primary(s.view) == pp.replicaId && InWV(cfg, s, pp.view, pp.seqNo)
  }

  /** The proposal is stored unless it contradicts the one already stored. */
  function WithProposed(s: ReplicaState, pp: PrePrepare): ReplicaState {
    var cert := GetCert(s, pp.view, pp.seqNo);
    if cert.prePrepare.None? || cert.prePrepare.value.digest == pp.digest then AcceptPrePrepare(s, pp) else s
  }

  /** The primary's part of recvRequest. */
  ghost function WithProposal(cfg: Config, s: ReplicaState, req: Request): ReplicaState
    requires cfg.Valid()
  {
    if CanPropose(cfg, s, req) then WithCommit(cfg, Propose(s, req), HashReq(req), s.view, s.seqNo + 1) else s
  }

  /** maybeSendCommit at a prepared number leaves it with a commit sent. */
  lemma CommitSent(cfg: Config, s: ReplicaState, d: Digest, v: nat, n: nat)
    requires Prepared(cfg, s, d, v, n)
    ensures GetCert(WithCommit(cfg, s, d, v, n), v, n).sentCommit
  {
    var sent := SendCommit(s, v, n);
    assert GetCert(sent, v, n).sentCommit;
    assert GetCert(AddCommit(sent, Commit(v, n, d, s.id)), v, n).sentCommit;
  }

  lemma CommitControl(cfg: Config, s: ReplicaState, d: Digest, v: nat, n: nat)
    ensures SameControl(s, WithCommit(cfg, s, d, v, n))
  {
    var sent := SendCommit(s, v, n);
    assert SameControl(s, sent) && SameControl(s, AddCommit(sent, Commit(v, n, d, s.id)));
  }

  lemma ProposeControl(s: ReplicaState, req: Request)
    ensures SameControl(s, StoreRequest(s, req)) && SameControl(s, Propose(s, req))
  {
  }

  lemma ProposedInWindow(cfg: Config, s: ReplicaState, req: Request)
    requires cfg.Valid() && CanPropose(cfg, s, req)
    ensures InWV(cfg, Propose(s, req), s.view, s.seqNo + 1)
  {
  }

  lemma ControlTwice(a: ReplicaState, b: ReplicaState, c: ReplicaState)
    requires SameControl(a, b) && (SameControl(b, c) || SameButExecuted(b, c))
    ensures SameControl(a, c)
  {
  }

  /** A proposal and its request leave the view, the window and the watermark alone. */
  lemma ProposedControl(cfg: Config, s: ReplicaState, pp: PrePrepare, acceptable: Request -> bool)
    requires cfg.Valid() && FromPrimary(cfg, s, pp)
    ensures var known := WithRequest(WithProposed(s, pp), pp, acceptable);
            known.activeView && InWV(cfg, known, pp.view, pp.seqNo) && known.view == s.view && known.id == s.id
  {
    var stored := WithProposed(s, pp);
    assert stored == s || stored == AcceptPrePrepare(s, pp);
    assert stored.activeView && stored.view == s.view && stored.id == s.id && stored.h == s.h;
    var known := WithRequest(stored, pp, acceptable);
    assert known.activeView == stored.activeView && known.view == stored.view && known.id == stored.id && known.h == stored.h;
  }

  // ------------------------------------------------------------- resubmission

  /** The request is filed as outstanding. */
  ghost predicate Filed(reqs: map<Digest, Request>, req: Request) {
    HashReq(req) in reqs && reqs[HashReq(req)] == req
  }

  /** Nothing is left to do for the request: it is no longer outstanding, not acceptable or
      proposed, or there is no number for it. */
  ghost predicate Attended(cfg: Config, acceptable: Request -> bool, s: ReplicaState, req: Request) {
    || HashReq(req) !in s.outstandingReqs || !acceptable(req)
    || Proposes(s.certStore, HashReq(req)) || !InWV(cfg, s, s.view, s.seqNo + 1)
  }

  /** s' is what recvRequest makes of s. */
  ghost predicate RequestTaken(cfg: Config, acceptable: Request -> bool, s: ReplicaState, req: Request, s': ReplicaState)
    requires cfg.Valid()
  {
    if acceptable(req) then SameButExecuted(WithProposal(cfg, StoreRequest(s, req), req), s') else s' == s
  }

  /** Every proposal is still held. */
  ghost predicate ProposalsStay(a: map<MsgID, Cert>, b: map<MsgID, Cert>) {
    forall idx, d | ProposesAt(a, idx, d) :: ProposesAt(b, idx, d)
  }

  lemma CertUpdateStays(s: ReplicaState, v: nat, n: nat, c: Cert)
    requires GetCert(s, v, n).prePrepare.Some? ==> c.prePrepare == GetCert(s, v, n).prePrepare
    ensures ProposalsStay(s.certStore, WithCert(s, v, n, c).certStore)
  {
    var certs := WithCert(s, v, n, c).certStore;
    forall idx, d | ProposesAt(s.certStore, idx, d) ensures ProposesAt(certs, idx, d) {
      if idx == MsgID(v, n) {
        assert GetCert(s, v, n) == s.certStore[idx];
      }
    }
  }

  lemma CommitStays(cfg: Config, s: ReplicaState, d: Digest, v: nat, n: nat)
    ensures ProposalsStay(s.certStore, WithCommit(cfg, s, d, v, n).certStore)
  {
    var sent := SendCommit(s, v, n);
    CertUpdateStays(s, v, n, GetCert(s, v, n).(sentCommit := true));
    var c := GetCert(sent, v, n);
    CertUpdateStays(sent, v, n, c.(commit := c.commit + [Commit(v, n, d, s.id)]));
  }

  /** A primary's next number is free. */
  lemma NextNumberFree(cfg: Config, s: ReplicaState)
    requires cfg.Valid() && CertsOk(cfg, s) && cfg.Primary(s.view) == s.id
    ensures GetCert(s, s.view, s.seqNo + 1).prePrepare.None?
  {
    var idx := MsgID(s.view, s.seqNo + 1);
    if idx in s.certStore {
      assert CertOk(cfg, s, idx, s.certStore[idx]);
    }
  }

  lemma ProposeStays(cfg: Config, s: ReplicaState, req: Request)
    requires cfg.Valid() && CertsOk(cfg, s) && cfg.Primary(s.view) == s.id
    ensures ProposalsStay(s.certStore, Propose(s, req).certStore)
    ensures ProposesAt(Propose(s, req).certStore, MsgID(s.view, s.seqNo + 1), HashReq(req))
  {
    NextNumberFree(cfg, s);
    var n := s.seqNo + 1;
    CertUpdateStays(s.(seqNo := n), s.view, n, GetCert(s, s.view, n).(prePrepare := Some(ProposalFor(s, req))));
  }

  /** No other number has the request only if some certificate proposes it. */
  lemma ElseProposed(cfg: Config, s: ReplicaState, req: Request)
    requires cfg.Valid() && cfg.Primary(s.view) == s.id && s.activeView && HashReq(req) in s.reqStore
    requires InWV(cfg, s, s.view, s.seqNo + 1) && !CanPropose(cfg, s, req)
    ensures Proposes(s.certStore, HashReq(req))
  {
    var idx :| idx in s.certStore && s.certStore[idx].prePrepare.Some? && s.certStore[idx].prePrepare.value.digest == HashReq(req);
    assert ProposesAt(s.certStore, idx, HashReq(req));
  }

  /** recvRequest keeps every proposal; with a number free, the request is proposed afterwards. */
  lemma RequestProposed(cfg: Config, s: ReplicaState, req: Request)
    requires cfg.Valid() && CertsOk(cfg, s) && cfg.Primary(s.view) == s.id && s.activeView && HashReq(req) in s.reqStore
    ensures ProposalsStay(s.certStore, WithProposal(cfg, s, req).certStore)
    ensures InWV(cfg, s, s.view, s.seqNo + 1) ==> Proposes(WithProposal(cfg, s, req).certStore, HashReq(req))
  {
    if CanPropose(cfg, s, req) {
      ProposeStays(cfg, s, req);
      CommitStays(cfg, Propose(s, req), HashReq(req), s.view, s.seqNo + 1);
    } else if InWV(cfg, s, s.view, s.seqNo + 1) {
      ElseProposed(cfg, s, req);
    }
  }

  /** s' has the watermark and the view of s, its outstanding requests, and no more free numbers. */
  ghost predicate SameWindow(s: ReplicaState, s': ReplicaState) {
    s'.h == s.h && s'.view == s.view && s'.seqNo >= s.seqNo && s'.outstandingReqs == s.outstandingReqs
  }

  lemma CommitWindow(cfg: Config, s: ReplicaState, d: Digest, v: nat, n: nat)
    ensures SameWindow(s, WithCommit(cfg, s, d, v, n))
  {
    var sent := SendCommit(s, v, n);
    assert SameWindow(s, sent) && SameWindow(s, AddCommit(sent, Commit(v, n, d, s.id)));
  }

  lemma ProposeWindow(s: ReplicaState, req: Request)
    ensures SameWindow(s, Propose(s, req))
  {
  }

  lemma ProposalWindow(cfg: Config, s: ReplicaState, req: Request)
    requires cfg.Valid()
    ensures SameWindow(s, WithProposal(cfg, s, req))
  {
    if CanPropose(cfg, s, req) {
      var p := Propose(s, req);
      ProposeWindow(s, req);
      CommitWindow(cfg, p, HashReq(req), s.view, s.seqNo + 1);
      assert WithProposal(cfg, s, req) == WithCommit(cfg, p, HashReq(req), s.view, s.seqNo + 1);
    }
  }

  /** Whatever request is taken, what was attended to stays so, and so is this one. */
  lemma RequestKeepsAttended(cfg: Config, acceptable: Request -> bool, s: ReplicaState, req: Request, s': ReplicaState, other: Request)
    requires cfg.Valid() && CertsOk(cfg, s) && RequestTaken(cfg, acceptable, s, req, s')
    requires cfg.Primary(s.view) == s.id && s.activeView
    ensures Attended(cfg, acceptable, s, other) || other == req ==> Attended(cfg, acceptable, s', other)
  {
    if acceptable(req) {
      var stored := StoreRequest(s, req);
      assert stored.certStore == s.certStore && SameWindow(s.(outstandingReqs := stored.outstandingReqs), stored);
      StoredCertsOk(cfg, s, req);
      RequestProposed(cfg, stored, req);
      ProposalWindow(cfg, stored, req);
      assert StruckOff(stored.outstandingReqs, s'.outstandingReqs, HashReq(other));
    }
  }

  lemma StoredCertsOk(cfg: Config, s: ReplicaState, req: Request)
    requires cfg.Valid() && CertsOk(cfg, s)
    ensures CertsOk(cfg, StoreRequest(s, req))
  {
    var s' := StoreRequest(s, req);
    forall idx | idx in s'.certStore ensures CertOk(cfg, s', idx, s'.certStore[idx]) {
      assert CertOk(cfg, s, idx, s.certStore[idx]);
    }
  }

  lemma RequestKeepsFiled(cfg: Config, acceptable: Request -> bool, s: ReplicaState, req: Request, s': ReplicaState, other: Request)
    requires cfg.Valid() && RequestTaken(cfg, acceptable, s, req, s')
    requires HashReq(other) in s.outstandingReqs ==> Filed(s.outstandingReqs, other)
    ensures HashReq(other) in s'.outstandingReqs ==> Filed(s'.outstandingReqs, other)
  {
    if acceptable(req) {
      var stored := StoreRequest(s, req);
      ProposalWindow(cfg, stored, req);
      assert StruckOff(stored.outstandingReqs, s'.outstandingReqs, HashReq(other));
    }
  }

  /** The request is still filed or no longer outstanding, and attended to unless its turn is to come. */
  ghost predicate AttendedIfDue(cfg: Config, acceptable: Request -> bool, s: ReplicaState, req: Request, todo: set<Digest>) {
    && (HashReq(req) in s.outstandingReqs ==> Filed(s.outstandingReqs, req))
    && (HashReq(req) in todo || Attended(cfg, acceptable, s, req))
  }

  ghost predicate AttendedBut(cfg: Config, acceptable: Request -> bool, reqs: map<Digest, Request>, s: ReplicaState, todo: set<Digest>) {
    forall req | Filed(reqs, req) :: AttendedIfDue(cfg, acceptable, s, req, todo)
  }

  /** One more request, d, has had its turn. */
  lemma OneMoreAttended(cfg: Config, acceptable: Request -> bool, reqs: map<Digest, Request>, s: ReplicaState, s': ReplicaState,
                        d: Digest, todo: set<Digest>)
    requires cfg.Valid() && CertsOk(cfg, s) && cfg.Primary(s.view) == s.id && s.activeView
    requires AttendedBut(cfg, acceptable, reqs, s, todo + {d})
    requires if d in s.outstandingReqs && !Proposes(s.certStore, d) then RequestTaken(cfg, acceptable, s, s.outstandingReqs[d], s') else s' == s
    ensures AttendedBut(cfg, acceptable, reqs, s', todo)
  {
    forall req | Filed(reqs, req) ensures AttendedIfDue(cfg, acceptable, s', req, todo) {
      assert AttendedIfDue(cfg, acceptable, s, req, todo + {d});
      if d in s.outstandingReqs && !Proposes(s.certStore, d) {
        RequestKeepsAttended(cfg, acceptable, s, s.outstandingReqs[d], s', req);
        RequestKeepsFiled(cfg, acceptable, s, s.outstandingReqs[d], s', req);
      }
    }
  }
}
