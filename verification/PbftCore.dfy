/** A replica: the handlers of the PBFT core. Every handler is a legal chain of actions. */
module PbftCore {
  import opened Common
  import opened PbftTypes
  import opened NewViewSelection
  import opened NewViewMethods
  import opened ReplicaModel
  import opened ReplicaInvariant
  import opened ReplicaChains
  import opened ReplicaLog
  import opened ReplicaViewChange
  import opened ReplicaWatermarks

  // ------------------------------------------- what the view-change handlers do

  /** The k-th action of the chain is a view-change for view v. */
  ghost predicate Asks(d: Chain, k: nat, v: nat) {
    k < |d.acts| && d.acts[k].ASendViewChange? && d.acts[k].vc.view == v
  }

  /** The view-change that is the k-th action is taken in by its sender as well, which is in
      state t by then, if it verifies and is acceptable. */
  ghost predicate TakesOwn(cfg: Config, verified: ViewChange -> bool, t: ReplicaState, d: Chain, k: nat) {
    k < |d.acts| && d.acts[k].ASendViewChange? &&
    var vc := d.acts[k].vc;
    verified(vc) && CanStoreViewChange(cfg, t, vc) ==> k + 1 < |d.acts| && d.acts[k + 1] == AStoreViewChange(vc)
  }

  /** The new-view of the current view passes the checks. */
  ghost predicate Passing(cfg: Config, t: ReplicaState) {
    t.view in t.newViewStore && exists cp :: NewViewOk(cfg, t.newViewStore[t.view], cp)
  }

  /** It starts from a checkpoint this replica has not reached and cannot decode. */
  ghost predicate Unreadable(cfg: Config, decodes: string -> bool, t: ReplicaState) {
    t.view in t.newViewStore && exists cp :: NewViewOk(cfg, t.newViewStore[t.view], cp) && t.h < cp.seqNo && !decodes(cp.id)
  }

  /** processNewView from state t to state s, with k actions before it: nothing happens
      without a new-view for an inactive view; one that fails the checks makes the replica ask
      for the next view; one that passes is entered, unless requests are missing or its base
      checkpoint does not decode. */
  ghost predicate Processed(cfg: Config, decodes: string -> bool, t: ReplicaState, s: ReplicaState, d: Chain, k: nat) {
    if t.view !in t.newViewStore || t.activeView then s == t && |d.acts| == k
    else if Passing(cfg, t) then s.view == t.view && (s.activeView || s.missingReqs != {} || Unreadable(cfg, decodes, t))
    else s.view > t.view && Asks(d, k, t.view + 1)
  }

  /** All stored view-changes, in some order. */
  ghost predicate Lists(t: ReplicaState, vset: seq<ViewChange>) {
    && |vset| == |t.viewChangeStore|
    && (forall k | k in t.viewChangeStore :: t.viewChangeStore[k] in vset)
    && forall m | m in vset :: VCIdx(m.view, m.replicaId) in t.viewChangeStore && t.viewChangeStore[VCIdx(m.view, m.replicaId)] == m
  }

  /** The view-changes leave no starting point or no assignment. */
  ghost predicate Uncomposable(cfg: Config, vset: seq<ViewChange>) {
    forall c | InitialCheckpoint(cfg, vset, c) :: Assignment(cfg, vset, c.seqNo).None?
  }

  /** sendNewView from t to s: a new-view is sent and processed unless there is one already or
      none can be composed. */
  ghost predicate Composed(cfg: Config, decodes: string -> bool, t: ReplicaState, s: ReplicaState, d: Chain, k: nat) {
    || (k < |d.acts| && d.acts[k].ASendNewView? && Processed(cfg, decodes, StoreNewView(t, d.acts[k].nv), s, d, k + 1))
    || (s == t && |d.acts| == k && (t.view in t.newViewStore || exists vset :: Lists(t, vset) && Uncomposable(cfg, vset)))
  }

  /** Enough view-changes for the current view have arrived at its primary. */
  ghost predicate NewViewDue(cfg: Config, t: ReplicaState, vc: ViewChange)
    requires cfg.Valid()
  {
    vc.view == t.view && |ForView(t, t.view)| == cfg.AllCorrectReplicasQuorum() && cfg.Primary(t.view) == t.id
  }

  /** v is the smallest later view somebody asks for. */
  ghost predicate SmallestLater(t: ReplicaState, v: nat) {
    v > t.view && (exists k :: k in t.viewChangeStore && k.v == v) && forall k | k in Above(t.viewChangeStore, t.view) :: v <= k.v
  }

  /** recvViewChange from the state t in which the view-change is stored. */
  ghost predicate Reacted(cfg: Config, decodes: string -> bool, t: ReplicaState, vc: ViewChange, s: ReplicaState, d: Chain, k: nat)
    requires cfg.Valid()
  {
    if Overtaken(cfg, t) then s.view > t.view && exists v :: Asks(d, k, v) && SmallestLater(t, v)
    else if NewViewDue(cfg, t, vc) then Composed(cfg, decodes, t, s, d, k)
    else Processed(cfg, decodes, t, s, d, k)
  }

  /** The new-view a primary composes from all the view-changes it has stored. */
  method OwnNewView(cfg: Config, s: ReplicaState) returns (nv: Option<NewView>, cp: StableId)
    requires cfg.Valid() && StoresOk(cfg, s) && s.view !in s.newViewStore
    requires cfg.Primary(s.view) == s.id && |ForView(s, s.view)| == cfg.AllCorrectReplicasQuorum()
    ensures nv.Some? ==> CanSendNewView(cfg, s, nv.value, cp)
    ensures nv.None? ==> exists vset :: Lists(s, vset) && Uncomposable(cfg, vset)
  {
    var vset := GetViewChanges(s.viewChangeStore);
    var xset;
    cp, xset := ComposeNewView(cfg, vset);
    if xset.None? {
      assert Lists(s, vset) && Uncomposable(cfg, vset);
      return None, cp;
    }
    return Some(NewView(s.view, vset, xset.value, s.id)), cp;
  }

  class Replica {
    const cfg: Config

    /** Whether a view-change's signature verifies, whether the consumer validates a
        request, and whether a checkpoint id decodes. */
    const verified: ViewChange -> bool
    const acceptable: Request -> bool
    const decodes: string -> bool

    /** The instance's fields: view, activeView, h, seqNo, the stores and the rest. */
    var s: ReplicaState

    /** What the handler at work has done. */
    ghost var chain: Chain

    /** The state is where a legal chain of actions leads, and keeps the invariant. */
    ghost predicate Valid()
      reads this
    {
      Reached(cfg, verified, chain, s)
    }

    /** Adds to the chain the action that has led from the state before to the present one. */
    ghost method Track(before: ReplicaState, a: Action, sent: set<Message>)
      requires Reached(cfg, verified, chain, before) && Continues(cfg, verified, chain.Known(), before, a)
      requires s == Apply(cfg, before, a) && sent == Sent(cfg, before, a)
      modifies this`chain
      ensures Valid() && Adds(old(chain), chain, a) && sent <= chain.Known()
    {
      ReachOneMore(cfg, verified, chain, before, a);
      GrownAdds(chain, a, s, sent);
      chain := Grown(chain, a, s, sent);
    }

    /** The messages the handler may take in: those it was given and its own. */
    ghost predicate Has(m: Message)
      reads this
    {
      chain.Shaped() && m in chain.Known()
    }

    constructor (cfg: Config, id: nat, startupId: string, verified: ViewChange -> bool, acceptable: Request -> bool, decodes: string -> bool)
      requires cfg.Valid()
      ensures Valid() && s == Initial(id, startupId)
      ensures this.cfg == cfg && this.verified == verified && this.acceptable == acceptable && this.decodes == decodes
    {
      this.cfg, this.verified, this.acceptable, this.decodes := cfg, verified, acceptable, decodes;
      s := Initial(id, startupId);
      chain := NewChain(Initial(id, startupId), {});
    }

    /** The whole effect since state t is a legal chain that took in only the given
        messages and this replica's own. */
    ghost predicate Handled(t: ReplicaState, messages: set<Message>)
      reads this
    {
      cfg.Valid() && Legal(cfg, verified, chain) && chain.Start() == t && chain.known[0] == messages && chain.Last() == s
    }

    /** A handler starts. */
    ghost method Begin(messages: set<Message>)
      requires Valid()
      modifies this`chain
      ensures Valid() && chain == NewChain(s, messages)
    {
      chain := NewChain(s, messages);
    }

    // ------------------------------------------------------ single changes

    method StoreReq(req: Request)
      requires Valid()
      modifies this`s, this`chain
      ensures Valid() && s == StoreRequest(old(s), req) && Adds(old(chain), chain, AStoreRequest(req))
    {
      ghost var before := s;
      s := s.(reqStore := s.reqStore[HashReq(req) := req]).(outstandingReqs := s.outstandingReqs[HashReq(req) := req]);
      Track(before, AStoreRequest(req), {});
    }

    method AssignNumber(req: Request) returns (pp: PrePrepare)
      requires Valid() && CanPropose(cfg, s, req)
      modifies this`s, this`chain
      ensures Valid() && s == Propose(old(s), req) && pp == ProposalFor(old(s), req)
      ensures Adds(old(chain), chain, APropose(req)) && Has(MPrePrepare(pp))
    {
      pp := PrePrepare(s.view, s.seqNo + 1, HashReq(req), Some(req), s.id);
      ghost var before := s;
      var cert := GetCert(s, pp.view, pp.seqNo);
      s := s.(seqNo := pp.seqNo).(certStore := s.certStore[MsgID(pp.view, pp.seqNo) := cert.(prePrepare := Some(pp))]);
      Track(before, APropose(req), {MPrePrepare(pp)});
    }

    method KeepPrePrepare(pp: PrePrepare)
      requires Valid() && CanAcceptPrePrepare(cfg, s, pp) && Has(MPrePrepare(pp)) && (pp.replicaId == s.id ==> pp.seqNo <= s.seqNo)
      modifies this`s, this`chain
      ensures Valid() && s == AcceptPrePrepare(old(s), pp) && Adds(old(chain), chain, AAcceptPrePrepare(pp))
    {
      ghost var before := s;
      var cert := GetCert(s, pp.view, pp.seqNo);
      s := s.(certStore := s.certStore[MsgID(pp.view, pp.seqNo) := cert.(prePrepare := Some(pp))]);
      Track(before, AAcceptPrePrepare(pp), {});
    }

    method BroadcastPrepare(d: Digest, v: nat, n: nat)
      requires Valid() && CanSendPrepare(cfg, s, d, v, n)
      modifies this`s, this`chain
      ensures Valid() && s == SendPrepare(old(s), v, n)
      ensures Adds(old(chain), chain, ASendPrepare(d, v, n)) && Has(MPrepare(Prepare(v, n, d, s.id)))
    {
      ghost var before := s;
      s := s.(certStore := s.certStore[MsgID(v, n) := GetCert(s, v, n).(sentPrepare := true)]);
      Track(before, ASendPrepare(d, v, n), {MPrepare(Prepare(v, n, d, s.id))});
    }

    method KeepPrepare(p: Prepare)
      requires Valid() && CanAddPrepare(cfg, s, p) && Has(MPrepare(p)) && (p.replicaId == s.id ==> s.activeView)
      modifies this`s, this`chain
      ensures Valid() && s == AddPrepare(old(s), p) && Adds(old(chain), chain, AAddPrepare(p))
    {
      ghost var before := s;
      var cert := GetCert(s, p.view, p.seqNo);
      s := s.(certStore := s.certStore[MsgID(p.view, p.seqNo) := cert.(prepare := cert.prepare + [p])]);
      Track(before, AAddPrepare(p), {});
    }

    method BroadcastCommit(d: Digest, v: nat, n: nat)
      requires Valid() && CanSendCommit(cfg, s, d, v, n)
      modifies this`s, this`chain
      ensures Valid() && s == SendCommit(old(s), v, n)
      ensures Adds(old(chain), chain, ASendCommit(d, v, n)) && Has(MCommit(Commit(v, n, d, s.id)))
    {
      ghost var before := s;
      s := s.(certStore := s.certStore[MsgID(v, n) := GetCert(s, v, n).(sentCommit := true)]);
      Track(before, ASendCommit(d, v, n), {MCommit(Commit(v, n, d, s.id))});
    }

    method KeepCommit(m: Commit)
      requires Valid() && CanAddCommit(cfg, s, m) && Has(MCommit(m))
      modifies this`s, this`chain
      ensures Valid() && s == AddCommit(old(s), m) && Adds(old(chain), chain, AAddCommit(m))
    {
      ghost var before := s;
      var cert := GetCert(s, m.view, m.seqNo);
      s := s.(certStore := s.certStore[MsgID(m.view, m.seqNo) := cert.(commit := cert.commit + [m])]);
      Track(before, AAddCommit(m), {});
    }

    // --------------------------------------------------------------- execution

    /** executeOne. */
    method ExecuteOne(idx: MsgID) returns (done: bool)
      requires Valid()
      modifies this`s, this`chain
      ensures Valid() && (done <==> CanExecute(cfg, old(s), idx))
      ensures done ==> s == Execute(old(s), idx) && Adds(old(chain), chain, AExecute(idx))
      ensures !done ==> s == old(s) && chain == old(chain)
    {
      done := Executable(cfg, s, idx);
      if !done {
        return;
      }
      ghost var before := s;
      var digest := s.certStore[idx].prePrepare.value.digest;
      s := s.(lastExec := idx.n, deliveries := s.deliveries + [Executed(idx.n, digest, idx.v)]);
      if digest != Null {
        s := s.(outstandingReqs := s.outstandingReqs - {digest});
      }
      Track(before, AExecute(idx), {});
    }

    /** One pass of executeOutstanding over the certificates: stops at the first that executes. */
    method ExecuteAny() returns (retry: bool)
      requires Valid()
      modifies this`s, this`chain
      ensures Valid() && SameButExecuted(old(s), s) && Longer(old(chain), chain)
      ensures !retry ==> s == old(s) && chain == old(chain) && Drained(cfg, s)
      ensures retry ==> |Ahead(s)| < |Ahead(old(s))|
    {
      var todo := s.certStore.Keys;
      while todo != {}
        invariant todo <= s.certStore.Keys && Valid() && s == old(s) && chain == old(chain)
        invariant forall idx | idx in s.certStore && idx !in todo :: !CanExecute(cfg, s, idx)
        decreases |todo|
      {
        var idx :| idx in todo;
        var done := ExecuteOne(idx);
        if done {
          ExecuteAdvances(cfg, old(s), idx);
          return true;
        }
        todo := todo - {idx};
      }
      return false;
    }

    /** executeOutstanding: terminates, because the certificates ahead of lastExec get fewer,
        and leaves nothing that could be executed. */
    method ExecuteOutstanding()
      requires Valid()
      modifies this`s, this`chain
      ensures Valid() && SameButExecuted(old(s), s) && Longer(old(chain), chain)
      ensures Drained(cfg, s)
    {
      var retry := true;
      while retry
        invariant Valid() && SameButExecuted(old(s), s) && Longer(old(chain), chain)
        invariant !retry ==> Drained(cfg, s)
        decreases |Ahead(s)|, retry
      {
        ghost var before := s.outstandingReqs;
        retry := ExecuteAny();
        FewerStill(old(s.outstandingReqs), before, s.outstandingReqs);
      }
    }

    // ------------------------------------------------- commits and prepares

    /** recvCommit: a commit that is taken in leaves nothing that could be executed. */
    method HandleCommit(m: Commit) returns (added: bool)
      requires Valid() && Has(MCommit(m))
      modifies this`s, this`chain
      ensures Valid() && Longer(old(chain), chain)
      ensures added <==> CanAddCommit(cfg, old(s), m)
      ensures added ==> SameButExecuted(AddCommit(old(s), m), s) && Drained(cfg, s)
      ensures !added ==> s == old(s) && chain == old(chain)
    {
      added := TakesCommit(cfg, s, m);
      if added {
        KeepCommit(m);
        ExecuteOutstanding();
      }
    }

    /** maybeSendCommit. */
    method MaybeSendCommit(d: Digest, v: nat, n: nat)
      requires Valid() && InWV(cfg, s, v, n)
      modifies this`s, this`chain
      ensures Valid() && Longer(old(chain), chain)
      ensures SameButExecuted(WithCommit(cfg, old(s), d, v, n), s) && SameControl(old(s), s)
    {
      CommitControl(cfg, s, d, v, n);
      var prepared := PreparedIn(cfg, s, d, v, n);
      if prepared && !GetCert(s, v, n).sentCommit {
        BroadcastCommit(d, v, n);
        var added := HandleCommit(Commit(v, n, d, s.id));
      }
      ControlTwice(old(s), WithCommit(cfg, old(s), d, v, n), s);
    }

    /** recvPrepare. */
    method HandlePrepare(p: Prepare)
      requires Valid() && Has(MPrepare(p)) && (p.replicaId == s.id ==> s.activeView)
      modifies this`s, this`chain
      ensures Valid() && Longer(old(chain), chain) && SameButExecuted(WithPrepare(cfg, old(s), p), s)
      ensures !CanAddPrepare(cfg, old(s), p) ==> s == old(s) && chain == old(chain)
    {
      var added := TakesPrepare(cfg, s, p);
      if added {
        KeepPrepare(p);
        MaybeSendCommit(p.digest, p.view, p.seqNo);
      }
    }

    // ----------------------------------------------------------- pre-prepares

    method StoreProposal(pp: PrePrepare)
      requires Valid() && Has(MPrePrepare(pp)) && (pp.replicaId == s.id ==> pp.seqNo <= s.seqNo) && FromPrimary(cfg, s, pp)
      modifies this`s, this`chain
      ensures Valid() && Longer(old(chain), chain) && s == WithProposed(old(s), pp)
    {
      var cert := GetCert(s, pp.view, pp.seqNo);
      if cert.prePrepare.None? || cert.prePrepare.value.digest == pp.digest {
        KeepPrePrepare(pp);
      }
    }

    /** The request of a proposal. */
    method TakeRequest(pp: PrePrepare) returns (have: bool)
      requires Valid()
      modifies this`s, this`chain
      ensures Valid() && Longer(old(chain), chain)
      ensures s == WithRequest(old(s), pp, acceptable) && (have <==> pp.digest in s.reqStore)
    {
      if pp.digest in s.reqStore {
        return true;
      }
      if pp.request.None? || HashReq(pp.request.value) != pp.digest || !acceptable(pp.request.value) {
        return false;
      }
      StoreReq(pp.request.value);
      return true;
    }

    /** The prepare for a proposal whose request is known. */
    method Answer(d: Digest, v: nat, n: nat)
      requires Valid() && s.activeView && InWV(cfg, s, v, n)
      modifies this`s, this`chain
      ensures Valid() && Longer(old(chain), chain) && SameButExecuted(WithAnswer(cfg, old(s), d, v, n), s)
    {
      if cfg.Primary(s.view) != s.id && PrePrepared(s, d, v, n) && !GetCert(s, v, n).sentPrepare {
        SendAndTakePrepare(d, v, n);
      }
    }

    method SendAndTakePrepare(d: Digest, v: nat, n: nat)
      requires Valid() && CanSendPrepare(cfg, s, d, v, n)
      modifies this`s, this`chain
      ensures Valid() && Longer(old(chain), chain)
      ensures SameButExecuted(WithPrepare(cfg, SendPrepare(old(s), v, n), Prepare(v, n, d, old(s.id))), s)
    {
      BroadcastPrepare(d, v, n);
      HandlePrepare(Prepare(v, n, d, s.id));
    }

    method KeepProposal(pp: PrePrepare) returns (have: bool)
      requires Valid() && Has(MPrePrepare(pp)) && (pp.replicaId == s.id ==> pp.seqNo <= s.seqNo) && FromPrimary(cfg, s, pp)
      modifies this`s, this`chain
      ensures Valid() && Longer(old(chain), chain)
      ensures s == WithRequest(WithProposed(old(s), pp), pp, acceptable) && (have <==> pp.digest in s.reqStore)
    {
      StoreProposal(pp);
      have := TakeRequest(pp);
    }

    method TakeProposal(pp: PrePrepare)
      requires Valid() && Has(MPrePrepare(pp)) && (pp.replicaId == s.id ==> pp.seqNo <= s.seqNo) && FromPrimary(cfg, s, pp)
      modifies this`s, this`chain
      ensures Valid() && Longer(old(chain), chain) && SameButExecuted(WithPrePrepare(cfg, old(s), pp, acceptable), s)
    {
      ProposedControl(cfg, s, pp, acceptable);
      var have := KeepProposal(pp);
      if have {
        Answer(pp.digest, pp.view, pp.seqNo);
      }
    }

    /** recvPrePrepare: a proposal of the primary for the current view and window is stored
        unless it contradicts one already stored; if its request is known or comes with it, it
        is answered by a prepare. */
    method HandlePrePrepare(pp: PrePrepare)
      requires Valid() && Has(MPrePrepare(pp)) && (pp.replicaId == s.id ==> pp.seqNo <= s.seqNo)
      modifies this`s, this`chain
      ensures Valid() && Longer(old(chain), chain) && SameButExecuted(WithPrePrepare(cfg, old(s), pp, acceptable), s)
    {
      if FromPrimary(cfg, s, pp) {
        TakeProposal(pp);
      }
    }

    // ---------------------------------------------------------------- requests

    method ProposeIfPrimary(req: Request)
      requires Valid() && HashReq(req) in s.reqStore
      modifies this`s, this`chain
      ensures Valid() && Longer(old(chain), chain)
      ensures SameButExecuted(WithProposal(cfg, old(s), req), s) && SameControl(old(s), s)
    {
      var proposed := MayPropose(cfg, s, req);
      if proposed {
        ProposeControl(s, req);
        ProposedInWindow(cfg, s, req);
        var pp := AssignNumber(req);
        MaybeSendCommit(pp.digest, pp.view, pp.seqNo);
        ControlTwice(old(s), Propose(old(s), req), s);
      }
    }

    /** recvRequest: an acceptable request is stored, and the primary gives it the next
        number of its window unless it already has one in this view. */
    method HandleRequest(req: Request)
      requires Valid()
      modifies this`s, this`chain
      ensures Valid() && Longer(old(chain), chain) && SameControl(old(s), s)
      ensures RequestTaken(cfg, acceptable, old(s), req, s) && (!acceptable(req) ==> chain == old(chain))
    {
      if !acceptable(req) {
        return;
      }
      ProposeControl(s, req);
      StoreReq(req);
      ProposeIfPrimary(req);
      ControlTwice(old(s), StoreRequest(old(s), req), s);
    }

    /** Goes on to the next outstanding request. */
    method Resubmit(d: Digest)
      requires Valid()
      modifies this`s, this`chain
      ensures Valid() && Longer(old(chain), chain) && SameControl(old(s), s)
      ensures d in old(s.outstandingReqs) && !Proposes(old(s.certStore), d) ==>
                RequestTaken(cfg, acceptable, old(s), old(s.outstandingReqs)[d], s)
      ensures d !in old(s.outstandingReqs) || Proposes(old(s.certStore), d) ==> s == old(s)
    {
      if d in s.outstandingReqs {
        var have := HaveProposal(s.certStore, d);
        if !have {
          HandleRequest(s.outstandingReqs[d]);
        }
      }
    }

    /** The primary of an active view has attended to the requests. */
    ghost predicate Resubmitted(reqs: map<Digest, Request>)
      reads this
    {
      cfg.Valid() && cfg.Primary(s.view) == s.id && s.activeView ==> AttendedBut(cfg, acceptable, reqs, s, {})
    }

    /** resubmitRequests: a primary goes again through the outstanding requests that no
        certificate proposes. Afterwards, if its view is active, each of them has been executed,
        is proposed or is not acceptable, unless the window is used up. */
    method ResubmitRequests()
      requires Valid()
      modifies this`s, this`chain
      ensures Valid() && Longer(old(chain), chain) && SameControl(old(s), s)
      ensures cfg.Primary(old(s.view)) != old(s.id) ==> s == old(s) && chain == old(chain)
      ensures Resubmitted(old(s.outstandingReqs))
    {
      if cfg.Primary(s.view) != s.id {
        return;
      }
      var todo := s.outstandingReqs.Keys;
      while todo != {}
        invariant Valid() && Longer(old(chain), chain) && SameControl(old(s), s)
        invariant old(s.activeView) ==> AttendedBut(cfg, acceptable, old(s.outstandingReqs), s, todo)
        decreases |todo|
      {
        var d :| d in todo;
        ghost var before := s;
        todo := todo - {d};
        Resubmit(d);
        if old(s.activeView) {
          OneMoreAttended(cfg, acceptable, old(s.outstandingReqs), before, s, d, todo);
        }
      }
    }

    // ------------------------------------------------- moving the watermark

    /** moveWatermarks on a quorum for the checkpoint. */
    method Stabilize(n: nat, id: string)
      requires Valid() && CanStabilize(cfg, s, n, id)
      modifies this`s, this`chain
      ensures Valid() && GoesOn(old(chain), chain, AStabilize(n, id)) && SameControl(MoveWatermarks(old(s), n), s)
      ensures Resubmitted(old(s.outstandingReqs))
    {
      ghost var before := s;
      s := Trim(s, n);
      Track(before, AStabilize(n, id), {});
      ResubmitRequests();
    }

    /** moveWatermarks to the watermark already reached. */
    method CleanUp()
      requires Valid()
      modifies this`s, this`chain
      ensures Valid() && Longer(old(chain), chain) && SameControl(MoveWatermarks(old(s), old(s.h)), s)
      ensures Resubmitted(old(s.outstandingReqs))
    {
      ghost var before := s;
      s := Trim(s, s.h);
      Track(before, ACleanUp(s.h), {});
      ResubmitRequests();
    }

    method LookForStart()
      requires Valid()
      modifies this`s, this`chain
      ensures Valid() && s == BeginSkip(old(s)) && Adds(old(chain), chain, ABeginSkip)
    {
      ghost var before := s;
      s := s.(skipInProgress := true);
      Track(before, ABeginSkip, {});
    }

    method MoveBehind(m: nat)
      requires Valid() && CanFallBehind(cfg, s, m)
      modifies this`s, this`chain
      ensures Valid() && GoesOn(old(chain), chain, AFallBehind(m)) && SameControl(FallBehind(old(s), m), s)
      ensures Resubmitted(old(s.outstandingReqs))
    {
      ghost var before := s;
      s := Trim(s.(reqStore := map[]), m);
      Track(before, AFallBehind(m), {});
      ResubmitRequests();
    }

    /** The jump of weakCheckpointSetOutOfRange. */
    method FallTo(m: nat)
      requires Valid() && CanFallBehind(cfg, s, m)
      modifies this`s, this`chain
      ensures Valid() && GoesOn(old(chain), chain, AFallBehind(m))
      ensures SameControl(BeginSkip(FallBehind(old(s), m)), s) && s.h == m && s.skipInProgress && s.view == old(s.view)
      ensures Resubmitted(old(s.outstandingReqs))
    {
      MoveBehind(m);
      LookForStart();
    }

    method Skip(n: nat)
      requires Valid() && n == s.h
      modifies this`s, this`chain
      ensures Valid() && s == SkipTo(old(s), n) && Adds(old(chain), chain, ASkipTo(n))
    {
      ghost var before := s;
      s := s.(lastExec := n, deliveries := s.deliveries + [Skipped(n)]);
      Track(before, ASkipTo(n), {});
    }

    /** The skip of witnessCheckpointWeakCert. */
    method MoveToWeak(n: nat, id: string)
      requires Valid() && CanWeakSkip(cfg, s, n, id)
      modifies this`s, this`chain
      ensures Valid() && GoesOn(old(chain), chain, AWeakSkip(n, id))
      ensures SameControl(WeakSkip(old(s), n), s) && s.h == n
      ensures Resubmitted(old(s.outstandingReqs))
    {
      ghost var before := s;
      s := Trim(s.(skipInProgress := false), n);
      Track(before, AWeakSkip(n, id), {});
      ResubmitRequests();
    }

    method SkipToWeak(n: nat, id: string)
      requires Valid() && CanWeakSkip(cfg, s, n, id)
      modifies this`s, this`chain
      ensures Valid() && GoesOn(old(chain), chain, AWeakSkip(n, id))
      ensures SameControl(WeakSkip(old(s), n), s) && s.lastExec == n
      ensures Resubmitted(old(s.outstandingReqs))
    {
      MoveToWeak(n, id);
      Skip(n);
    }

    // -------------------------------------------------------------- checkpoints

    method NoteHigh(c: Checkpoint)
      requires Valid() && Has(MCheckpoint(c))
      modifies this`s, this`chain
      ensures Valid() && s == old(s).(hChkpts := HighReports(old(s), c)) && Adds(old(chain), chain, ANoteHigh(c))
    {
      ghost var before := s;
      s := s.(hChkpts := s.hChkpts[c.replicaId := c.seqNo]);
      Track(before, ANoteHigh(c), {});
    }

    method ForgetHigh(ids: set<nat>)
      requires Valid()
      modifies this`s, this`chain
      ensures Valid() && s == old(s).(hChkpts := old(s.hChkpts) - ids) && Adds(old(chain), chain, AForgetHigh(ids))
    {
      ghost var before := s;
      s := s.(hChkpts := s.hChkpts - ids);
      Track(before, AForgetHigh(ids), {});
    }

    method DropStale()
      requires Valid()
      modifies this`s, this`chain
      ensures Valid() && Longer(old(chain), chain) && s == WithoutStale(cfg, old(s))
    {
      ForgetHigh(Stale(s.hChkpts, cfg.f, s.h + cfg.L));
    }

    method RecordReport(c: Checkpoint)
      requires Valid() && Has(MCheckpoint(c)) && c.seqNo >= s.h + cfg.L
      modifies this`s, this`chain
      ensures Valid() && Longer(old(chain), chain) && s == WithReport(cfg, old(s), c)
    {
      NoteHigh(c);
      DropStale();
    }

    /** Records a report beyond the window and decides from all recorded ones whether this
        replica has fallen behind. */
    method ReportHigh(c: Checkpoint) returns (behind: bool)
      requires Valid() && Has(MCheckpoint(c)) && c.seqNo >= s.h + cfg.L
      modifies this`s, this`chain
      ensures Valid() && Longer(old(chain), chain)
      ensures behind <==> OutOfRange(cfg, old(s), c)
      ensures behind ==> Jumped(cfg, old(s), HighReports(old(s), c), s)
      ensures !behind ==> s == WithReport(cfg, old(s), c)
    {
      var m := Target(cfg, s, c);
      RecordReport(c);
      behind := m.Some?;
      if behind { FallTo(m.value); }
    }

    /** weakCheckpointSetOutOfRange: the watermark jumps exactly when the checkpoint is not
        below the high watermark and f+1 of the recorded numbers are beyond it, and then to the
        (f+1)-th largest of them. */
    method WeakCheckpointSetOutOfRange(c: Checkpoint) returns (behind: bool)
      requires Valid() && Has(MCheckpoint(c))
      modifies this`s, this`chain
      ensures Valid() && Longer(old(chain), chain)
      ensures behind <==> OutOfRange(cfg, old(s), c)
      ensures behind ==> Jumped(cfg, old(s), HighReports(old(s), c), s)
      ensures !behind ==> s == WithReport(cfg, old(s), c)
    {
      var high := s.h + cfg.L;
      if c.seqNo < high {
        ForgetHigh({c.replicaId});
        return false;
      }
      behind := ReportHigh(c);
    }

    method KeepCheckpoint(c: Checkpoint)
      requires Valid() && InW(cfg, s, c.seqNo) && Has(MCheckpoint(c))
      modifies this`s, this`chain
      ensures Valid() && s == AddCheckpoint(old(s), c) && Adds(old(chain), chain, AAddCheckpoint(c))
    {
      ghost var before := s;
      s := s.(checkpointStore := s.checkpointStore + {c});
      Track(before, AAddCheckpoint(c), {});
    }

    /** witnessCheckpointWeakCert: a replica that looks for a starting point skips to the
        checkpoint; otherwise the consumer is only told about it. */
    method WitnessCheckpointWeakCert(c: Checkpoint)
      requires Valid() && InW(cfg, s, c.seqNo) && |Matching(s, c.seqNo, c.id)| == cfg.f + 1
      modifies this`s, this`chain
      ensures Valid() && Longer(old(chain), chain)
      ensures decodes(c.id) && old(s.skipInProgress) ==> SameControl(WeakSkip(old(s), c.seqNo), s) && s.lastExec == c.seqNo
      ensures decodes(c.id) && old(s.skipInProgress) ==> GoesOn(old(chain), chain, AWeakSkip(c.seqNo, c.id))
      ensures !(decodes(c.id) && old(s.skipInProgress)) ==> s == old(s) && chain == old(chain)
    {
      if decodes(c.id) && s.skipInProgress {
        SkipToWeak(c.seqNo, c.id);
      }
    }

    // ------------------------------------------------------------ view changes

    method KeepViewChange(vc: ViewChange)
      requires Valid() && CanStoreViewChange(cfg, s, vc) && Has(MViewChange(vc))
      modifies this`s, this`chain
      ensures Valid() && s == StoreViewChange(old(s), vc) && Adds(old(chain), chain, AStoreViewChange(vc))
    {
      ghost var before := s;
      s := s.(viewChangeStore := s.viewChangeStore[VCIdx(vc.view, vc.replicaId) := vc]);
      Track(before, AStoreViewChange(vc), {});
    }

    method KeepNewView(nv: NewView)
      requires Valid() && CanStoreNewView(cfg, s, nv) && Has(MNewView(nv)) && forall m | m in nv.vset :: verified(m)
      modifies this`s, this`chain
      ensures Valid() && s == StoreNewView(old(s), nv) && Adds(old(chain), chain, AStoreNewView(nv))
    {
      ghost var before := s;
      s := s.(newViewStore := s.newViewStore[nv.view := nv]);
      Track(before, AStoreNewView(nv), {});
    }

    method BroadcastNewView(nv: NewView, ghost cp: StableId)
      requires Valid() && CanSendNewView(cfg, s, nv, cp)
      modifies this`s, this`chain
      ensures Valid() && s == StoreNewView(old(s), nv) && Adds(old(chain), chain, ASendNewView(nv, cp))
    {
      ghost var before := s;
      s := s.(newViewStore := s.newViewStore[nv.view := nv]);
      Track(before, ASendNewView(nv, cp), {MNewView(nv)});
    }

    /** Moves to a later view and announces it. */
    method Announcement(target: nat) returns (vc: ViewChange)
      requires Valid() && target > s.view
      modifies this`s, this`chain
      ensures Valid() && s == SendViewChange(cfg, old(s), target) && Adds(old(chain), chain, ASendViewChange(vc))
      ensures vc.view == target && vc.replicaId == s.id && Has(MViewChange(vc))
    {
      SendViewChangeKeeps(cfg, s, target);
      var left := LeaveView(cfg, s, target);
      vc := Announce(left);
      CanLeave(cfg, s, left, vc);
      ghost var before := s;
      s := left;
      Track(before, ASendViewChange(vc), {MViewChange(vc)});
    }

    // --------------------------------------------------------- entering a view

    method SkipToBase(cp: StableId)
      requires Valid() && Checked(cfg, s, cp) && s.h < cp.seqNo
      modifies this`s, this`chain
      ensures Valid() && GoesOn(old(chain), chain, ASkipToBase(cp)) && SameControl(MoveWatermarks(old(s), cp.seqNo), s)
      ensures Resubmitted(old(s.outstandingReqs))
    {
      ghost var before := s;
      s := Trim(s, cp.seqNo);
      Track(before, ASkipToBase(cp), {});
      ResubmitRequests();
    }

    method NoteMissingReq(d: Digest)
      requires Valid()
      modifies this`s, this`chain
      ensures Valid() && s == NoteMissing(old(s), d) && Adds(old(chain), chain, ANoteMissing(d))
    {
      ghost var before := s;
      s := s.(missingReqs := s.missingReqs + {d});
      Track(before, ANoteMissing(d), {});
    }

    /** The loop of processNewView over the X set: exactly the unknown requests above the
        watermark are marked missing. */
    method NoteMissingRequests(x: map<nat, Digest>)
      requires Valid()
      modifies this`s, this`chain
      ensures Valid() && Longer(old(chain), chain) && s == WithMissing(old(s), x, x.Keys)
    {
      NoteNone(s, x);
      var seen: set<nat> := {};
      while seen != x.Keys
        invariant seen <= x.Keys && Valid() && Longer(old(chain), chain) && s == WithMissing(old(s), x, seen)
        decreases |x.Keys - seen|
      {
        var n :| n in x.Keys - seen;
        NoteOneMore(old(s), x, seen, n);
        NoteNumber(n, x[n]);
        seen := seen + {n};
      }
    }

    method NoteNumber(n: nat, d: Digest)
      requires Valid()
      modifies this`s, this`chain
      ensures Valid() && Longer(old(chain), chain) && s == NotePass(old(s), n, d)
    {
      if n > s.h && d != Null && d !in s.reqStore && d !in s.missingReqs {
        NoteMissingReq(d);
      }
    }

    method Enter(cp: StableId)
      requires Valid() && Checked(cfg, s, cp) && s.h >= cp.seqNo && s.missingReqs == {}
      modifies this`s, this`chain
      ensures Valid() && s == EnterView(cfg, old(s)) && Adds(old(chain), chain, AEnterView(cp))
      ensures forall m | m in NewViewPrepares(cfg, old(s)) :: Has(m)
    {
      ghost var before := s;
      ghost var sent := NewViewPrepares(cfg, s);
      s := TakeView(cfg, s);
      Track(before, AEnterView(cp), sent);
    }

    /** processNewView2. */
    method ProcessNewView2(cp: StableId)
      requires Valid() && Checked(cfg, s, cp) && s.h >= cp.seqNo && s.missingReqs == {}
      modifies this`s, this`chain
      ensures Valid() && GoesOn(old(chain), chain, AEnterView(cp)) && SameControl(EnterView(cfg, old(s)), s)
      ensures cfg.Primary(old(s.view)) != old(s.id) ==> s == EnterView(cfg, old(s))
      ensures Resubmitted(old(s.outstandingReqs))
    {
      Enter(cp);
      if cfg.Primary(s.view) == s.id {
        ResubmitRequests();
      } else {
        DeliverOwnPrepares(old(s), s.newViewStore[s.view].xset.Keys);
      }
    }

    /** A backup's own prepares for the X set come back to it without effect. */
    method DeliverOwnPrepares(ghost before: ReplicaState, numbers: set<nat>)
      requires Valid() && before.view in before.newViewStore && s == EnterView(cfg, before) && cfg.Primary(s.view) != s.id
      requires s.view in s.newViewStore && s.newViewStore[s.view] == before.newViewStore[s.view]
      requires numbers <= s.newViewStore[s.view].xset.Keys
      requires forall m | m in NewViewPrepares(cfg, before) :: Has(m)
      modifies this`s, this`chain
      ensures Valid() && s == old(s) && chain == old(chain)
    {
      var x, todo := s.newViewStore[s.view].xset, numbers;
      while todo != {}
        invariant todo <= numbers && Valid() && s == old(s) && chain == old(chain)
        decreases |todo|
      {
        var n :| n in todo;
        OwnPreparesKnown(cfg, before, n);
        assert MPrepare(Prepare(s.view, n, x[n], s.id)) in NewViewPrepares(cfg, before);
        HandlePrepare(Prepare(s.view, n, x[n], s.id));
        todo := todo - {n};
      }
    }

    /** The base checkpoint of the new view: a replica that is behind it skips to it.
        False when the checkpoint's id does not decode. */
    method ReachBase(cp: StableId) returns (ok: bool)
      requires Valid() && Checked(cfg, s, cp)
      modifies this`s, this`chain
      ensures Valid() && Longer(old(chain), chain) && Checked(cfg, s, cp) && s.h >= cp.seqNo
      ensures s.view == old(s.view) && s.newViewStore == old(s.newViewStore) && (old(s.h) >= cp.seqNo ==> ok && s == old(s))
      ensures old(s.h) < cp.seqNo ==> s.h == cp.seqNo && (ok <==> decodes(cp.id)) && (ok ==> s.lastExec == cp.seqNo)
    {
      if s.h >= cp.seqNo {
        return true;
      }
      SkipToBase(cp);
      if !decodes(cp.id) {
        return false;
      }
      Skip(cp.seqNo);
      return true;
    }

    /** processNewView once the new-view has been checked: the view is entered unless the
        base checkpoint does not decode or requests are missing. */
    method Adopt(cp: StableId)
      requires Valid() && Checked(cfg, s, cp)
      modifies this`s, this`chain
      ensures Valid() && Longer(old(chain), chain) && s.view == old(s.view) && s.h >= cp.seqNo && s.h >= old(s.h)
      ensures s.activeView || s.missingReqs != {} || (old(s.h) < cp.seqNo && !decodes(cp.id))
    {
      var ok := ReachBase(cp);
      if ok {
        EnterIfComplete(cp);
      }
    }

    method EnterIfComplete(cp: StableId)
      requires Valid() && Checked(cfg, s, cp) && s.h >= cp.seqNo
      modifies this`s, this`chain
      ensures Valid() && Longer(old(chain), chain) && s.view == old(s.view) && s.h == old(s.h)
      ensures s.activeView <==> s.missingReqs == {}
    {
      NoteMissingRequests(s.newViewStore[s.view].xset);
      if s.missingReqs == {} {
        ProcessNewView2(cp);
      }
    }

    // ------------------------------- the recursion of the view-change handlers

    /** What bounds the recursion in the current view. */
    ghost function FuelAt(v: nat): nat
      reads this
    {
      Fuel(s.viewChangeStore, s.newViewStore, v)
    }

    ghost function FuelWith(vc: ViewChange): nat
      reads this
    {
      Fuel(s.viewChangeStore[VCIdx(vc.view, vc.replicaId) := vc], s.newViewStore, s.view)
    }

    /** sendViewChange: the replica asks for the target view, and the view strictly increases. */
    method SendViewChangeTo(target: nat)
      requires Valid() && target > s.view
      modifies this`s, this`chain
      decreases FuelAt(target), 5
      ensures Valid() && Longer(old(chain), chain) && s.view >= target && s.h >= old(s.h)
      ensures Asks(chain, |old(chain.acts)|, target)
      ensures TakesOwn(cfg, verified, SendViewChange(cfg, old(s), target), chain, |old(chain.acts)|)
    {
      var vc := Announcement(target);
      LeavingKeepsFuel(cfg, old(s), target, VCIdx(vc.view, vc.replicaId), vc);
      HandleViewChange(vc);
    }

    /** recvViewChange: a view-change that verifies, is correct and is new is stored. Then the
        replica joins the smallest later view once f+1 replicas ask for later views, or composes
        a new-view if it is due, or processes the one it has. */
    method HandleViewChange(vc: ViewChange)
      requires Valid() && Has(MViewChange(vc))
      modifies this`s, this`chain
      decreases FuelWith(vc), 4
      ensures Valid() && Longer(old(chain), chain) && s.view >= old(s.view) && s.h >= old(s.h)
      ensures !(verified(vc) && CanStoreViewChange(cfg, old(s), vc)) ==> s == old(s) && chain == old(chain)
      ensures verified(vc) && CanStoreViewChange(cfg, old(s), vc) ==>
                && GoesOn(old(chain), chain, AStoreViewChange(vc))
                && Reacted(cfg, decodes, StoreViewChange(old(s), vc), vc, s, chain, |old(chain.acts)| + 1)
    {
      if !verified(vc) {
        return;
      }
      var taken := TakesViewChange(cfg, s, vc);
      if taken {
        KeepViewChange(vc);
        ReactTo(vc);
      }
    }

    /** The rest of recvViewChange, with the view-change stored. */
    method ReactTo(vc: ViewChange)
      requires Valid()
      modifies this`s, this`chain
      decreases FuelAt(s.view), 3
      ensures Valid() && Longer(old(chain), chain) && s.view >= old(s.view) && s.h >= old(s.h)
      ensures Reacted(cfg, decodes, old(s), vc, s, chain, |old(chain.acts)|)
    {
      var target := JoinTarget(cfg, s);
      if target.Some? {
        ghost var k :| k in s.viewChangeStore && k.v == target.value;
        JoinUsesFuel(s.viewChangeStore, s.newViewStore, s.view, target.value, k);
        SendViewChangeTo(target.value);
        return;
      }
      var quorum := CountForView(s);
      if vc.view == s.view && quorum == cfg.AllCorrectReplicasQuorum() && cfg.Primary(s.view) == s.id {
        SendNewView();
      } else {
        ProcessNewView(false);
      }
    }

    /** sendNewView. */
    method SendNewView()
      requires Valid() && cfg.Primary(s.view) == s.id && |ForView(s, s.view)| == cfg.AllCorrectReplicasQuorum()
      modifies this`s, this`chain
      decreases FuelAt(s.view), 2
      ensures Valid() && Longer(old(chain), chain) && s.view >= old(s.view) && s.h >= old(s.h)
      ensures Composed(cfg, decodes, old(s), s, chain, |old(chain.acts)|)
    {
      if s.view in s.newViewStore {
        return;
      }
      var nv, cp := OwnNewView(cfg, s);
      if nv.Some? {
        SendComposed(nv.value, cp);
      }
    }

    method SendComposed(nv: NewView, ghost cp: StableId)
      requires Valid() && CanSendNewView(cfg, s, nv, cp)
      modifies this`s, this`chain
      decreases FuelAt(s.view), 1
      ensures Valid() && GoesOn(old(chain), chain, ASendNewView(nv, cp)) && s.view >= old(s.view) && s.h >= old(s.h)
      ensures Processed(cfg, decodes, StoreNewView(old(s), nv), s, chain, |old(chain.acts)| + 1)
    {
      StoringAddsFuel(s.viewChangeStore, s.newViewStore, s.view, nv);
      BroadcastNewView(nv, cp);
      assert NewViewOk(cfg, s.newViewStore[s.view], cp);
      ProcessNewView(true);
    }

    /** processNewView. `own` says that this replica has just composed the new-view, which
        then passes the checks. */
    method ProcessNewView(ghost own: bool)
      requires Valid() && (own ==> Passing(cfg, s))
      modifies this`s, this`chain
      decreases FuelAt(s.view) - (if own then 1 else 0), 0
      ensures Valid() && Longer(old(chain), chain) && s.view >= old(s.view) && s.h >= old(s.h)
      ensures Processed(cfg, decodes, old(s), s, chain, |old(chain.acts)|)
    {
      if s.view !in s.newViewStore || s.activeView {
        return;
      }
      var cp, ok := CheckNewView(cfg, s.newViewStore[s.view]);
      if !ok {
        RefusalUsesFuel(s.viewChangeStore, s.newViewStore, s.view);
        SendViewChangeTo(s.view + 1);
        return;
      }
      assert NewViewOk(cfg, s.newViewStore[s.view], cp);
      Adopt(cp);
    }

    // ------------------------------------------------------- stable checkpoints

    /** moveWatermarks at the end of recvCheckpoint, and what depends on it. A weak
        certificate may have moved the watermark here already. */
    method StableReached(c: Checkpoint)
      requires Valid() && (CanStabilize(cfg, s, c.seqNo, c.id) || s.h == c.seqNo)
      modifies this`s, this`chain
      ensures Valid() && Longer(old(chain), chain) && s.view >= old(s.view) && s.h >= c.seqNo
      ensures old(s.h) < c.seqNo ==> GoesOn(old(chain), chain, AStabilize(c.seqNo, c.id)) && Resumed(MoveWatermarks(old(s), c.seqNo))
    {
      if s.h < c.seqNo {
        Stabilize(c.seqNo, c.id);
      } else {
        CleanUp();
      }
      ghost var t, k := s, |chain.acts|;
      ProcessNewView(false);
      assert Processed(cfg, decodes, t, s, chain, k);
    }

    /** From t, but for requests proposed again, the replica has gone on with the new-view it may be waiting for. */
    ghost predicate Resumed(t: ReplicaState)
      reads this
    {
      exists t', k :: SameControl(t, t') && Processed(cfg, decodes, t', s, chain, k)
    }

    /** What a checkpoint leads to from the state t in which it is stored: a skip if a
        starting point is being looked for and this is the first weak certificate, else a stable
        checkpoint if there is a quorum and the checkpoint was reached here, else nothing. */
    ghost predicate Acted(t: ReplicaState, c: Checkpoint, k: nat)
      reads this
    {
      if CanWeakSkip(cfg, t, c.seqNo, c.id) && decodes(c.id) then k < |chain.acts| && chain.acts[k] == AWeakSkip(c.seqNo, c.id)
      else if CanStabilize(cfg, t, c.seqNo, c.id) then
        k < |chain.acts| && chain.acts[k] == AStabilize(c.seqNo, c.id) && Resumed(MoveWatermarks(t, c.seqNo))
      else s == t && |chain.acts| == k
    }

    /** recvCheckpoint after the watermark check. */
    method CountCheckpoint(c: Checkpoint)
      requires Valid() && Has(MCheckpoint(c)) && InW(cfg, s, c.seqNo)
      modifies this`s, this`chain
      ensures Valid() && Longer(old(chain), chain) && s.view >= old(s.view) && s.h >= old(s.h)
      ensures exists k :: Counted(old(s), c, k)
    {
      ghost var t, k := s, |chain.acts| + 1;
      KeepCheckpoint(c);
      ActOn(c);
      assert Counted(t, c, k);
    }

    method ActOn(c: Checkpoint)
      requires Valid() && InW(cfg, s, c.seqNo)
      modifies this`s, this`chain
      ensures Valid() && Longer(old(chain), chain) && s.view >= old(s.view) && s.h >= old(s.h)
      ensures Acted(old(s), c, |old(chain.acts)|)
    {
      var matching := CountMatching(s, c.seqNo, c.id);
      if matching == cfg.f + 1 {
        WitnessCheckpointWeakCert(c);
      }
      if matching >= cfg.IntersectionQuorum() && c.seqNo in s.chkpts {
        StableReached(c);
      }
    }

    /** The checkpoint was stored by the action before the k-th, in state t, and acted upon. */
    ghost predicate Counted(t: ReplicaState, c: Checkpoint, k: nat)
      reads this
    {
      0 < k <= |chain.acts| && chain.acts[k - 1] == AAddCheckpoint(c) && Acted(AddCheckpoint(t, c), c, k)
    }

    /** recvCheckpoint from state t: the watermark jumps, or the report is recorded and the
        checkpoint is ignored outside the window and counted inside it. */
    ghost predicate CheckpointTakenIn(t: ReplicaState, c: Checkpoint)
      reads this
    {
      if OutOfRange(cfg, t, c) then Jumped(cfg, t, HighReports(t, c), s)
      else if !InW(cfg, t, c.seqNo) then s == WithReport(cfg, t, c)
      else exists k :: Counted(WithReport(cfg, t, c), c, k)
    }

    /** recvCheckpoint. */
    method HandleCheckpoint(c: Checkpoint)
      requires Valid() && Has(MCheckpoint(c))
      modifies this`s, this`chain
      ensures Valid() && Longer(old(chain), chain) && s.view >= old(s.view) && s.h >= old(s.h)
      ensures CheckpointTakenIn(old(s), c)
    {
      ReportKeepsWindow(cfg, s, c);
      var behind := WeakCheckpointSetOutOfRange(c);
      if behind || !InW(cfg, s, c.seqNo) {
        return;
      }
      CountCheckpoint(c);
    }

    method IssueCheckpoint(idText: string) returns (c: Checkpoint)
      requires Valid()
      modifies this`s, this`chain
      ensures Valid() && s == TakeCheckpoint(old(s), idText) && Adds(old(chain), chain, ATakeCheckpoint(idText))
      ensures c == Checkpoint(s.lastExec, s.id, idText) && Has(MCheckpoint(c))
    {
      c := Checkpoint(s.lastExec, s.id, idText);
      ghost var before := s;
      s := s.(chkpts := s.chkpts[s.lastExec := idText]);
      Track(before, ATakeCheckpoint(idText), {MCheckpoint(c)});
    }

    method TakeReturned(req: Request)
      requires Valid() && HashReq(req) in s.missingReqs
      modifies this`s, this`chain
      ensures Valid() && s == ReturnRequest(old(s), req) && Adds(old(chain), chain, AReturnRequest(req))
    {
      ghost var before := s;
      s := s.(reqStore := s.reqStore[HashReq(req) := req], missingReqs := s.missingReqs - {HashReq(req)});
      Track(before, AReturnRequest(req), {});
    }

    // ------------------------------------------------------- the entry points
    // Each starts a chain from the current state with the message it was given.

    method RecvRequest(req: Request)
      requires Valid()
      modifies this
      ensures Valid() && Handled(old(s), {})
      ensures RequestTaken(cfg, acceptable, old(s), req, s)
    {
      Begin({});
      HandleRequest(req);
    }

    /** A primary's own pre-prepares are for numbers it has assigned. */
    method RecvPrePrepare(pp: PrePrepare)
      requires Valid() && (pp.replicaId == s.id ==> pp.seqNo <= s.seqNo)
      modifies this
      ensures Valid() && Handled(old(s), {MPrePrepare(pp)})
      ensures SameButExecuted(WithPrePrepare(cfg, old(s), pp, acceptable), s)
    {
      Begin({MPrePrepare(pp)});
      HandlePrePrepare(pp);
    }

    /** A replica's own prepares are of a view it has entered. */
    method RecvPrepare(p: Prepare)
      requires Valid() && (p.replicaId == s.id ==> s.activeView)
      modifies this
      ensures Valid() && Handled(old(s), {MPrepare(p)})
      ensures SameButExecuted(WithPrepare(cfg, old(s), p), s)
    {
      Begin({MPrepare(p)});
      HandlePrepare(p);
    }

    method RecvCommit(m: Commit)
      requires Valid()
      modifies this
      ensures Valid() && Handled(old(s), {MCommit(m)})
      ensures CanAddCommit(cfg, old(s), m) ==> SameButExecuted(AddCommit(old(s), m), s) && Drained(cfg, s)
      ensures !CanAddCommit(cfg, old(s), m) ==> s == old(s)
    {
      Begin({MCommit(m)});
      var added := HandleCommit(m);
    }

    method RecvCheckpoint(c: Checkpoint)
      requires Valid()
      modifies this
      ensures Valid() && Handled(old(s), {MCheckpoint(c)}) && s.h >= old(s.h) && s.view >= old(s.view)
      ensures CheckpointTakenIn(old(s), c)
    {
      Begin({MCheckpoint(c)});
      HandleCheckpoint(c);
    }

    /** The consumer's Checkpoint callback: only multiples of K, and the id is filed under lastExec. */
    method CheckpointTaken(seqNo: nat, idText: string)
      requires Valid()
      modifies this
      ensures Valid() && Handled(old(s), {}) && s.h >= old(s.h) && s.view >= old(s.view)
      ensures seqNo % cfg.K != 0 ==> s == old(s)
      ensures seqNo % cfg.K == 0 ==> chain.acts != [] && chain.acts[0] == ATakeCheckpoint(idText)
      ensures seqNo % cfg.K == 0 ==>
                CheckpointTakenIn(TakeCheckpoint(old(s), idText), Checkpoint(old(s.lastExec), old(s.id), idText))
    {
      Begin({});
      if seqNo % cfg.K != 0 {
        return;
      }
      var c := IssueCheckpoint(idText);
      HandleCheckpoint(c);
    }

    method RecvViewChange(vc: ViewChange)
      requires Valid()
      modifies this
      ensures Valid() && Handled(old(s), {MViewChange(vc)}) && s.h >= old(s.h) && s.view >= old(s.view)
      ensures !(verified(vc) && CanStoreViewChange(cfg, old(s), vc)) ==> s == old(s)
      ensures verified(vc) && CanStoreViewChange(cfg, old(s), vc) ==>
                chain.acts != [] && chain.acts[0] == AStoreViewChange(vc) && Reacted(cfg, decodes, StoreViewChange(old(s), vc), vc, s, chain, 1)
    {
      Begin({MViewChange(vc)});
      HandleViewChange(vc);
    }

    method RecvNewView(nv: NewView)
      requires Valid()
      modifies this
      ensures Valid() && Handled(old(s), {MNewView(nv)}) && s.h >= old(s.h) && s.view >= old(s.view)
      ensures !(CanStoreNewView(cfg, old(s), nv) && forall m | m in nv.vset :: verified(m)) ==> s == old(s)
      ensures CanStoreNewView(cfg, old(s), nv) && (forall m | m in nv.vset :: verified(m)) ==>
                chain.acts != [] && chain.acts[0] == AStoreNewView(nv) && Processed(cfg, decodes, StoreNewView(old(s), nv), s, chain, 1)
    {
      Begin({MNewView(nv)});
      var ok := AllVerified(nv.vset, verified);
      if ok && nv.view > 0 && nv.view >= s.view && cfg.Primary(nv.view) == nv.replicaId && nv.view !in s.newViewStore {
        KeepNewView(nv);
        ProcessNewView(false);
      }
    }

    method RecvReturnRequest(req: Request)
      requires Valid()
      modifies this
      ensures Valid() && Handled(old(s), {}) && s.h >= old(s.h) && s.view >= old(s.view)
      ensures HashReq(req) !in old(s.missingReqs) ==> s == old(s)
      ensures HashReq(req) in old(s.missingReqs) ==>
                chain.acts != [] && chain.acts[0] == AReturnRequest(req) && Processed(cfg, decodes, ReturnRequest(old(s), req), s, chain, 1)
    {
      Begin({});
      if HashReq(req) in s.missingReqs {
        TakeReturned(req);
        ProcessNewView(false);
      }
    }

    /** The view-change timer expires: the view strictly increases. */
    method TimerExpired()
      requires Valid()
      modifies this
      ensures Valid() && Handled(old(s), {}) && s.view > old(s.view) && s.h >= old(s.h) && Asks(chain, 0, old(s.view) + 1)
    {
      Begin({});
      SendViewChangeTo(s.view + 1);
    }
  }
}
