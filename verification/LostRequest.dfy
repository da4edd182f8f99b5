/** A request that commits in view 0 and the change to view 1, whose primary, replica 1, is faulty.
    Replica 0 has moved its watermark past the request. If replica 1 conceals what it prepared, the
    request is lost and the replicas diverge; if it tells, the request is kept. */
module LostRequest {
  import opened Common
  import opened PbftTypes
  import opened NewViewSafety
  import opened NewViewLimits
  import opened ReplicaModel
  import opened PbftSystem
  import opened CrossViewSafety
  import opened ReplicaLog
  import opened GoodRuns
  import opened FourReplicas
  import ExecutionOrder

  function Later(id: string): StableId { StableId(1, id) }

  function Mark(id: string, r: nat): Checkpoint { Checkpoint(1, r, id) }

  // ------------------------------------------------------ replica 0 moves on

  /** Replica r has taken its checkpoint. */
  function Marked(r: nat, req: Request, id: string): ReplicaState { Done(r, req).(chkpts := map[0 := "", 1 := id]) }

  lemma Marking(run: seq<Sys>, g: Stage, r: nat, req: Request, id: string) returns (run': seq<Sys>, g': Stage)
    requires At(run, g) && (r == 0 || r == 2) && g.Of(r) == Done(r, req)
    ensures g' == g.With(r, Marked(r, req, id)).(sent := g.sent + {MCheckpoint(Mark(id, r))}) && At(run', g')
  {
    assert map[0 := ""][1 := id] == map[0 := "", 1 := id];
    run' := Send(run, g, r, ATakeCheckpoint(id), Marked(r, req, id), MCheckpoint(Mark(id, r)));
    g' := g.With(r, Marked(r, req, id)).(sent := g.sent + {MCheckpoint(Mark(id, r))});
  }

  /** Replica 0 with the checkpoints it has received. */
  function Collected(req: Request, id: string, cs: set<Checkpoint>): ReplicaState {
    Marked(0, req, id).(checkpointStore := cs)
  }

  lemma Collecting(run: seq<Sys>, g: Stage, req: Request, id: string, cs: set<Checkpoint>, r: nat) returns (run': seq<Sys>)
    requires At(run, g) && g.s0 == Collected(req, id, cs) && MCheckpoint(Mark(id, r)) in g.sent
    ensures At(run', g.With(0, Collected(req, id, cs + {Mark(id, r)})))
  {
    run' := Move(run, g, 0, AAddCheckpoint(Mark(id, r)), Collected(req, id, cs + {Mark(id, r)}));
  }

  function AllMarks(id: string): set<Checkpoint> { {Mark(id, 0), Mark(id, 1), Mark(id, 2)} }

  /** Replica 0 has moved its watermark past the request. */
  function Passed(req: Request, id: string): ReplicaState {
    Done(0, req).(h := 1, certStore := map[], reqStore := map[], chkpts := map[1 := id])
  }

  lemma CanPass(req: Request, id: string)
    ensures var s := Collected(req, id, AllMarks(id));
            CanStabilize(FOUR, s, 1, id) && MoveWatermarks(s, 1) == Passed(req, id)
  {
    var s := Collected(req, id, AllMarks(id));
    assert Matching(s, 1, id) == AllMarks(id);
    var m := MoveWatermarks(s, 1);
    assert m.certStore == map[] && m.chkpts == map[1 := id] && m.checkpointStore == {} && m.pset == map[] && m.qset == map[];
    assert s.certStore[ONE].prePrepare.value.digest == Digested(req);
    assert m.reqStore == map[];
  }

  lemma CollectingAll(run: seq<Sys>, g: Stage, req: Request, id: string) returns (run': seq<Sys>)
    requires At(run, g) && g.s0 == Marked(0, req, id)
    requires forall c | c in AllMarks(id) :: MCheckpoint(c) in g.sent
    ensures At(run', g.With(0, Collected(req, id, AllMarks(id))))
  {
    var cs := {Mark(id, 0), Mark(id, 1)};
    assert Mark(id, 0) in AllMarks(id) && Mark(id, 1) in AllMarks(id) && Mark(id, 2) in AllMarks(id);
    run' := CollectingTwo(run, g, req, id);
    run' := Collecting(run', g.With(0, Collected(req, id, cs)), req, id, cs, 2);
    assert cs + {Mark(id, 2)} == AllMarks(id);
  }

  lemma CollectingTwo(run: seq<Sys>, g: Stage, req: Request, id: string) returns (run': seq<Sys>)
    requires At(run, g) && g.s0 == Marked(0, req, id)
    requires MCheckpoint(Mark(id, 0)) in g.sent && MCheckpoint(Mark(id, 1)) in g.sent
    ensures At(run', g.With(0, Collected(req, id, {Mark(id, 0), Mark(id, 1)})))
  {
    assert {} + {Mark(id, 0)} == {Mark(id, 0)} && {Mark(id, 0)} + {Mark(id, 1)} == {Mark(id, 0), Mark(id, 1)};
    run' := Collecting(run, g, req, id, {}, 0);
    run' := Collecting(run', g.With(0, Collected(req, id, {Mark(id, 0)})), req, id, {Mark(id, 0)}, 1);
  }

  lemma Passing(run: seq<Sys>, g: Stage, req: Request, id: string) returns (run': seq<Sys>, g': Stage)
    requires At(run, g) && g.s0 == Marked(0, req, id)
    requires forall c | c in AllMarks(id) :: MCheckpoint(c) in g.sent
    ensures g' == g.With(0, Passed(req, id)) && At(run', g')
  {
    run' := CollectingAll(run, g, req, id);
    CanPass(req, id);
    run' := Move(run', g.With(0, Collected(req, id, AllMarks(id))), 0, AStabilize(1, id), Passed(req, id));
    g' := g.With(0, Passed(req, id));
  }

  // ------------------------------------------------------------ leaving view 0

  function Left(s: ReplicaState): ReplicaState { s.(view := 1, activeView := false) }

  function Entry(req: Request): PQ { PQ(1, Digested(req), 0) }

  /** Replica 2 lists what it prepared. */
  function Left2(req: Request, id: string): ReplicaState {
    Left(Marked(2, req, id)).(pset := map[1 := Entry(req)], qset := map[QIdx(Digested(req), 1) := Entry(req)], certStore := map[])
  }

  lemma LeavingEmpty(s: ReplicaState)
    requires s.view == 0 && s.certStore == map[] && s.pset == map[] && s.qset == map[] && s.newViewStore == map[] && s.viewChangeStore == map[]
    ensures SendViewChange(FOUR, s, 1) == Left(s) && RequestsRetained(s)
  {
    assert NextPset(FOUR, s) == map[] && NextQset(s) == map[];
  }

  lemma PreparedAtTwo(req: Request, id: string)
    ensures var s := Marked(2, req, id); EntersP(FOUR, s, 1) && EntersQ(s, QIdx(Digested(req), 1))
  {
    var s := Marked(2, req, id);
    assert GetCert(s, 0, 1) == Voted(2, req, AllCommits(req));
    TwoPrepares(0, 1, Digested(req), 1, 2);
    assert MsgID(0, 1) == ONE;
  }

  lemma LeavingPrepared(req: Request, id: string)
    ensures SendViewChange(FOUR, Marked(2, req, id), 1) == Left2(req, id) && RequestsRetained(Marked(2, req, id))
  {
    ListsPrepared(req, id);
    ListsPrePrepared(req, id);
    assert SendViewChange(FOUR, Marked(2, req, id), 1).certStore == map[];
  }

  lemma ListsPrepared(req: Request, id: string)
    ensures NextPset(FOUR, Marked(2, req, id)) == map[1 := Entry(req)]
  {
    PreparedAtTwo(req, id);
  }

  lemma ListsPrePrepared(req: Request, id: string)
    ensures NextQset(Marked(2, req, id)) == map[QIdx(Digested(req), 1) := Entry(req)]
  {
    PreparedAtTwo(req, id);
  }

  /** The view-changes of the correct replicas. */
  function Voice0(id: string): ViewChange { ViewChange(1, 1, [Later(id)], [], [], 0) }

  function Voice2(req: Request, id: string): ViewChange {
    ViewChange(1, 0, [BASE, Later(id)], [Entry(req)], [Entry(req)], 2)
  }

  const VOICE3 := ViewChange(1, 0, [BASE], [], [], 3)

  lemma Voice0Announces(req: Request, id: string)
    ensures Announces(Left(Passed(req, id)), Voice0(id))
  {
    assert Voice0(id).cset[0] == Later(id);
  }

  lemma Voice2Announces(req: Request, id: string)
    ensures Announces(Left2(req, id), Voice2(req, id))
  {
    var vc := Voice2(req, id);
    assert vc.cset[0] == BASE && vc.cset[1] == Later(id) && vc.pset[0] == Entry(req) && vc.qset[0] == Entry(req);
    assert |map[0 := "", 1 := id]| == 2;
  }

  lemma Voice3Announces()
    ensures Announces(Left(Initial(3, "")), VOICE3)
  {
    assert VOICE3.cset[0] == BASE;
  }

  lemma Leaves(run: seq<Sys>, g: Stage, r: nat, t: ReplicaState, vc: ViewChange) returns (run': seq<Sys>, g': Stage)
    requires At(run, g) && IsCorrect(r) && vc.view > g.Of(r).view && RequestsRetained(g.Of(r))
    requires SendViewChange(FOUR, g.Of(r), vc.view) == t && Announces(t, vc)
    ensures g' == g.With(r, t).(sent := g.sent + {MViewChange(vc)}) && At(run', g')
  {
    CanLeave(FOUR, g.Of(r), t, vc);
    run' := Send(run, g, r, ASendViewChange(vc), t, MViewChange(vc));
    g' := g.With(r, t).(sent := g.sent + {MViewChange(vc)});
  }

  /** All correct replicas have left view 0. */
  lemma Leaving(req: Request, id: string) returns (run: seq<Sys>, g: Stage)
    ensures At(run, g) && g.s0 == Left(Passed(req, id)) && g.s2 == Left2(req, id) && g.s3 == Left(Initial(3, "")) && g.accepted == {}
    ensures MViewChange(Voice0(id)) in g.sent && MViewChange(Voice2(req, id)) in g.sent && MViewChange(VOICE3) in g.sent
  {
    run, g := Aside(req, id);
    LeavingEmpty(Passed(req, id));
    Voice0Announces(req, id);
    run, g := Leaves(run, g, 0, Left(Passed(req, id)), Voice0(id));
    run, g := LeavingToo(run, g, req, id);
  }

  lemma LeavingToo(run: seq<Sys>, g: Stage, req: Request, id: string) returns (run': seq<Sys>, g': Stage)
    requires At(run, g) && g.s2 == Marked(2, req, id) && g.s3 == Initial(3, "")
    ensures g' == g.(s2 := Left2(req, id), s3 := Left(Initial(3, "")), sent := g'.sent) && At(run', g')
    ensures g.sent <= g'.sent && MViewChange(Voice2(req, id)) in g'.sent && MViewChange(VOICE3) in g'.sent
  {
    LeavingPrepared(req, id);
    Voice2Announces(req, id);
    run', g' := Leaves(run, g, 2, Left2(req, id), Voice2(req, id));
    LeavingEmpty(Initial(3, ""));
    Voice3Announces();
    run', g' := Leaves(run', g', 3, Left(Initial(3, "")), VOICE3);
  }

  /** Replica 0 has moved on, replica 2 has not. */
  lemma Aside(req: Request, id: string) returns (run: seq<Sys>, g: Stage)
    ensures At(run, g) && g.s0 == Passed(req, id) && g.s2 == Marked(2, req, id) && g.s3 == Initial(3, "") && g.accepted == {}
  {
    run, g := FourReplicas.Committed(req);
    run, g := Marking(run, g, 0, req, id);
    run, g := Marking(run, g, 2, req, id);
    run := Say(run, g, MCheckpoint(Mark(id, 1)));
    g := g.(sent := g.sent + {MCheckpoint(Mark(id, 1))});
    run, g := Passing(run, g, req, id);
  }

  // ----------------------------------------------------------- entering view 1

  const TWO := MsgID(1, 1)

  /** The certificate a backup has for number 1 on entering view 1. */
  function Fresh(r: nat, e: Digest): Cert {
    Cert(Some(PrePrepare(1, 1, e, None, r)), true, [Prepare(1, 1, e, r)], false, [])
  }

  /** s in view 1, working on number 1. */
  function Inside(s: ReplicaState, nv: NewView, c: Cert): ReplicaState {
    s.(activeView := true, newViewStore := map[1 := nv], certStore := map[TWO := c], seqNo := 1)
  }

  /** Replica s has left view 0 and waits for a new-view. */
  ghost predicate Waiting(s: ReplicaState) {
    && s.view == 1 && !s.activeView && s.certStore == map[] && s.seqNo <= 1 && s.newViewStore == map[]
    && s.id != 1 && s.missingReqs == {}
  }

  lemma EntersAs(s: ReplicaState, nv: NewView, e: Digest)
    requires Waiting(s) && nv.xset == map[1 := e]
    ensures var t := s.(newViewStore := map[1 := nv]);
            EnterView(FOUR, t) == Inside(s, nv, Fresh(s.id, e)) && Sent(FOUR, t, AEnterView(BASE)) == {MPrepare(Prepare(1, 1, e, s.id))}
  {
    var t := s.(newViewStore := map[1 := nv]);
    var u := EnterView(FOUR, t);
    assert NewViewCert(FOUR, t, 1, e) == Fresh(s.id, e) by { assert [] + [Prepare(1, 1, e, s.id)] == [Prepare(1, 1, e, s.id)]; }
    assert u.certStore == map[TWO := Fresh(s.id, e)];
    assert u.newViewStore == map[1 := nv];
    assert u.seqNo == 1;
  }

  lemma Storing(run: seq<Sys>, g: Stage, r: nat, nv: NewView) returns (run': seq<Sys>)
    requires At(run, g) && IsCorrect(r) && g.Of(r).view == 1 && g.Of(r).newViewStore == map[] && MNewView(nv) in g.sent
    requires nv.view == 1 && nv.replicaId == 1 && forall m | m in nv.vset :: Authentic(W, g.sent, m)
    ensures At(run', g.With(r, g.Of(r).(newViewStore := map[1 := nv])))
  {
    assert map[][1 := nv] == map[1 := nv];
    run' := Move(run, g, r, AStoreNewView(nv), g.Of(r).(newViewStore := map[1 := nv]));
  }

  lemma Entering(run: seq<Sys>, g: Stage, r: nat, nv: NewView, e: Digest) returns (run': seq<Sys>, g': Stage)
    requires At(run, g) && IsCorrect(r) && g.Of(r).id == r && Waiting(g.Of(r)) && MNewView(nv) in g.sent
    requires nv.view == 1 && nv.replicaId == 1 && nv.xset == map[1 := e] && NewViewOk(FOUR, nv, BASE)
    requires forall m | m in nv.vset :: Authentic(W, g.sent, m)
    ensures g' == g.With(r, Inside(g.Of(r), nv, Fresh(r, e))).(sent := g.sent + {MPrepare(Prepare(1, 1, e, r))},
                                                              accepted := g.accepted + {Acceptance(r, nv, BASE)})
    ensures At(run', g')
  {
    var s := g.Of(r);
    var t := s.(newViewStore := map[1 := nv]);
    run' := Storing(run, g, r, nv);
    EntersAs(s, nv, e);
    run' := Enter(run', g.With(r, t), r, BASE, Inside(s, nv, Fresh(r, e)), nv);
    g' := g.With(r, Inside(s, nv, Fresh(r, e))).(sent := g.sent + {MPrepare(Prepare(1, 1, e, r))},
                                                accepted := g.accepted + {Acceptance(r, nv, BASE)});
  }

  lemma AllIssued(req: Request, id: string, vset: seq<ViewChange>, sent: set<Message>)
    requires MViewChange(Voice0(id)) in sent && MViewChange(Voice2(req, id)) in sent && MViewChange(VOICE3) in sent
    requires |vset| == 4 && vset[0] == Voice0(id) && vset[1].replicaId == 1 && vset[2] == Voice2(req, id) && vset[3] == VOICE3
    ensures forall m | m in vset :: Authentic(W, sent, m)
  {
  }

  /** A new-view of replica 1 for view 1 that carries the view-changes of all and gives number 1 to e. */
  ghost predicate MadeOf(nv: NewView, req: Request, id: string, e: Digest) {
    && nv.view == 1 && nv.replicaId == 1 && nv.xset == map[1 := e] && NewViewOk(FOUR, nv, BASE) && WellFormedVset(FOUR, 1, nv.vset)
    && |nv.vset| == 4 && nv.vset[0] == Voice0(id) && nv.vset[1].replicaId == 1
    && nv.vset[2] == Voice2(req, id) && nv.vset[3] == VOICE3
  }

  lemma Concealing(req: Request, id: string) returns (nv: NewView)
    ensures MadeOf(nv, req, id, Null)
  {
    nv := NewView(1, Voices(Digested(req), Later(id)), map[1 := Null], 1);
    CommittedRequestLost(Digested(req), Later(id));
  }

  ghost predicate SomePassed(nv: NewView) { exists m | m in nv.vset :: m.h >= 1 }

  lemma Telling(req: Request, id: string) returns (nv: NewView)
    ensures MadeOf(nv, req, id, Digested(req)) && !LeftNull(FOUR, nv.vset, 1) && SomePassed(nv)
  {
    nv := NewView(1, OpenVoices(Digested(req), Later(id)), map[1 := Digested(req)], 1);
    CommittedRequestKept(Digested(req), Later(id));
  }

  /** The faulty primary sends a new-view made of the view-changes of all. */
  lemma Presented(req: Request, id: string, nv: NewView, e: Digest) returns (run: seq<Sys>, g: Stage)
    requires MadeOf(nv, req, id, e)
    ensures At(run, g) && g.s0 == Left(Passed(req, id)) && g.s2 == Left2(req, id) && g.s3 == Left(Initial(3, "")) && g.accepted == {}
    ensures MNewView(nv) in g.sent && forall m | m in nv.vset :: Authentic(W, g.sent, m)
  {
    run, g := Leaving(req, id);
    AllIssued(req, id, nv.vset, g.sent);
    run, g := Sending(run, g, nv);
  }

  lemma Sending(run: seq<Sys>, g: Stage, nv: NewView) returns (run': seq<Sys>, g': Stage)
    requires At(run, g) && nv.replicaId == 1 && forall m | m in nv.vset :: Authentic(W, g.sent, m)
    ensures g' == g.(sent := g.sent + {MNewView(nv)}) && At(run', g') && forall m | m in nv.vset :: Authentic(W, g'.sent, m)
  {
    run' := Say(run, g, MNewView(nv));
    g' := g.(sent := g.sent + {MNewView(nv)});
    assert forall m | m in nv.vset :: Authentic(W, g.sent, m);
  }

  // ------------------------------------------------------------- what comes out

  /** The request is kept although replica 0 has passed it: the hypotheses of safety across view
      changes hold in a run that enters a later view. */
  lemma RequestKept(req: Request, id: string) returns (run: seq<Sys>)
    ensures W.Valid() && Decided(W, run, 0, 1, HashReq(req))
    ensures run[|run| - 1].accepted != {} && exists a | a in run[|run| - 1].accepted :: exists m | m in a.nv.vset :: m.h >= 1
  {
    var g, nv;
    run, g, nv := Informed(req, id);
    ExecutedIsCertified(run, g, 0, Executed(1, Digested(req), 0));
    assert Acceptance(2, nv, BASE) in g.accepted;
  }

  /** Replica 2 enters view 1 with the request as number 1. */
  lemma Informed(req: Request, id: string) returns (run: seq<Sys>, g: Stage, nv: NewView)
    ensures At(run, g) && g.s0 == Left(Passed(req, id)) && WellFormedVset(FOUR, 1, nv.vset) && nv.view == 1
    ensures !LeftNull(FOUR, nv.vset, 1) && g.accepted == {Acceptance(2, nv, BASE)} && SomePassed(nv)
  {
    nv := Telling(req, id);
    run, g := Presented(req, id, nv, Digested(req));
    run, g := Entering(run, g, 2, nv, Digested(req));
  }

  lemma ExecutedIsCertified(run: seq<Sys>, g: Stage, r: nat, x: Delivery)
    requires At(run, g) && IsCorrect(r) && g.Of(r).deliveries == [x] && x.Executed?
    ensures CommittedCert(FOUR, run[|run| - 1].net, x.view, x.n, x.digest)
  {
    ExecutionOrder.RunExecutes(W, run, |run| - 1);
    StatesWith(g, r, g.Of(r));
    assert ExecutionOrder.Executes(W, run[|run| - 1], r);
  }

  function Com(r: nat): Commit { Commit(1, 1, Null, r) }

  function Agreed(r: nat, q: nat, commits: seq<Commit>): Cert {
    Cert(Some(PrePrepare(1, 1, Null, None, r)), true, [Prepare(1, 1, Null, r), Prepare(1, 1, Null, q)], true, commits)
  }

  /** Replica r takes in the prepare of replica q in view 1 and sends its commit. */
  lemma Agreeing(run: seq<Sys>, g: Stage, r: nat, q: nat, s: ReplicaState, nv: NewView) returns (run': seq<Sys>, g': Stage)
    requires At(run, g) && (r == 2 || r == 3) && (q == 2 || q == 3) && r != q && Waiting(s) && s.h == 0 && s.id == r
    requires g.Of(r) == Inside(s, nv, Fresh(r, Null)) && MPrepare(Prepare(1, 1, Null, q)) in g.sent
    ensures g' == g.With(r, Inside(s, nv, Agreed(r, q, []))).(sent := g.sent + {MCommit(Com(r))}) && At(run', g')
  {
    var c0 := Fresh(r, Null);
    var c1 := c0.(prepare := [Prepare(1, 1, Null, r), Prepare(1, 1, Null, q)]);
    assert c0.prepare + [Prepare(1, 1, Null, q)] == c1.prepare;
    run' := AddsPrepare(run, g, r, TWO, c0, Prepare(1, 1, Null, q));
    TwoPrepares(1, 1, Null, r, q);
    run' := MakesCommit(run', g.With(r, Inside(s, nv, c1)), r, TWO, c1, Null);
    g' := g.With(r, Inside(s, nv, Agreed(r, q, []))).(sent := g.sent + {MCommit(Com(r))});
  }

  /** Replica 3 executes the null request. */
  lemma ExecutesNull(run: seq<Sys>, g: Stage, nv: NewView) returns (run': seq<Sys>, s: ReplicaState)
    requires At(run, g) && g.s3 == Inside(Left(Initial(3, "")), nv, Agreed(3, 2, []))
    requires MCommit(Com(1)) in g.sent && MCommit(Com(2)) in g.sent && MCommit(Com(3)) in g.sent
    ensures At(run', g.With(3, s)) && s.deliveries == [Executed(1, Null, 1)]
  {
    var c := Agreed(3, 2, [Com(1), Com(2), Com(3)]);
    var t := Inside(Left(Initial(3, "")), nv, c);
    run' := AddsThreeCommits(run, g, 3, TWO, Agreed(3, 2, []), Com(1), Com(2), Com(3));
    TwoPrepares(1, 1, Null, 3, 2);
    ThreeCommits(1, 1, Null, 1, 2, 3);
    s := Execute(t, TWO);
    run' := ExecutesNext(run', g.With(3, t), 3, TWO, c, Null, s);
  }

  /** The request is lost: in this run all V sets are well formed and all requests were stored when
      view-changes were sent, and yet replica 0 executes the request as number 1 and replica 3 the
      null request. Two commit certificates for number 1 disagree. */
  lemma RequestLost(req: Request, id: string) returns (run: seq<Sys>)
    ensures W.Valid() && IsRun(W, run)
    ensures var y := run[|run| - 1];
            && y.retained && (forall a | a in y.accepted :: WellFormedVset(FOUR, a.nv.view, a.nv.vset))
            && |y.replicas| == 4 && y.replicas[0].deliveries == [Executed(1, HashReq(req), 0)]
            && y.replicas[3].deliveries == [Executed(1, Null, 1)]
            && CommittedCert(FOUR, y.net, 0, 1, HashReq(req)) && CommittedCert(FOUR, y.net, 1, 1, Null)
  {
    var g, nv;
    run, g, nv := Diverged(req, id);
    ExecutedIsCertified(run, g, 0, Executed(1, Digested(req), 0));
    ExecutedIsCertified(run, g, 3, Executed(1, Null, 1));
  }

  /** Replica 0 has executed the request and replica 3 the null request. */
  lemma Diverged(req: Request, id: string) returns (run: seq<Sys>, g: Stage, nv: NewView)
    ensures At(run, g) && WellFormedVset(FOUR, 1, nv.vset) && nv.view == 1
    ensures g.accepted == {Acceptance(2, nv, BASE), Acceptance(3, nv, BASE)}
    ensures g.s0.deliveries == [Executed(1, Digested(req), 0)] && g.s3.deliveries == [Executed(1, Null, 1)]
  {
    var s;
    run, g, nv := Misled(req, id);
    run, g := Agreeing(run, g, 2, 3, Left2(req, id), nv);
    run, g := Agreeing(run, g, 3, 2, Left(Initial(3, "")), nv);
    run := Say(run, g, MCommit(Com(1)));
    g := g.(sent := g.sent + {MCommit(Com(1))});
    run, s := ExecutesNull(run, g, nv);
    g := g.With(3, s);
  }

  /** Replicas 2 and 3 enter view 1 with the null request as number 1. */
  lemma Misled(req: Request, id: string) returns (run: seq<Sys>, g: Stage, nv: NewView)
    ensures At(run, g) && g.s0 == Left(Passed(req, id)) && WellFormedVset(FOUR, 1, nv.vset) && nv.view == 1
    ensures g.s2 == Inside(Left2(req, id), nv, Fresh(2, Null)) && g.s3 == Inside(Left(Initial(3, "")), nv, Fresh(3, Null))
    ensures g.accepted == {Acceptance(2, nv, BASE), Acceptance(3, nv, BASE)}
    ensures MPrepare(Prepare(1, 1, Null, 2)) in g.sent && MPrepare(Prepare(1, 1, Null, 3)) in g.sent
  {
    nv := Concealing(req, id);
    run, g := Presented(req, id, nv, Null);
    run, g := Entering(run, g, 2, nv, Null);
    run, g := Entering(run, g, 3, nv, Null);
  }
}
