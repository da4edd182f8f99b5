/** Runs of four replicas, of which replica 1 is faulty, and the beginning of such a run: a request
    that replica 0 proposes commits and is executed by replicas 0 and 2. */
module FourReplicas {
  import opened Common
  import opened PbftTypes
  import opened NewViewLimits
  import opened ReplicaModel
  import opened PbftSystem
  import opened SystemRuns
  import ReplicaChains
  import opened OneCertificate
  import opened GoodRuns

  const W := World(FOUR, {1}, "")

  /** The correct replicas' states, the messages that were sent, and the views that were entered. */
  datatype Stage = Stage(s0: ReplicaState, s2: ReplicaState, s3: ReplicaState, sent: set<Message>, accepted: set<Acceptance>) {
    function Of(r: nat): ReplicaState { if r == 0 then s0 else if r == 2 then s2 else s3 }

    function With(r: nat, s: ReplicaState): Stage {
      if r == 0 then this.(s0 := s) else if r == 2 then this.(s2 := s) else this.(s3 := s)
    }

    function States(): seq<ReplicaState> { [s0, Initial(1, ""), s2, s3] }
  }

  predicate IsCorrect(r: nat) { r == 0 || r == 2 || r == 3 }

  ghost predicate At(run: seq<Sys>, g: Stage) { W.Valid() && Reached(W, run, g) }

  /** The run ends in this stage, and the requests were stored at every view-change. */
  ghost predicate Reached(w: World, run: seq<Sys>, g: Stage)
    requires w.Valid()
  {
    IsRun(w, run) && StageOf(run[|run| - 1], g)
  }

  ghost predicate StageOf(y: Sys, g: Stage) {
    y.replicas == g.States() && y.net == g.sent && y.accepted == g.accepted && y.retained
  }

  lemma Begin() returns (run: seq<Sys>)
    ensures At(run, Stage(Initial(0, ""), Initial(2, ""), Initial(3, ""), {}, {}))
  {
    run := [PbftSystem.Start(W)];
    assert run[0].replicas == [Initial(0, ""), Initial(1, ""), Initial(2, ""), Initial(3, "")];
  }

  /** The stage after replica r performs an action that leads it to state t. */
  ghost function Next(g: Stage, r: nat, t: ReplicaState, sent: set<Message>, accepted: set<Acceptance>): Stage {
    g.With(r, t).(sent := g.sent + sent, accepted := g.accepted + accepted)
  }

  /** What entering a view adds to the history. */
  ghost function Entered(s: ReplicaState, r: nat, a: Action): set<Acceptance> {
    if a.AEnterView? && s.view in s.newViewStore then {Acceptance(r, s.newViewStore[s.view], a.cp)} else {}
  }

  lemma StatesWith(g: Stage, r: nat, t: ReplicaState)
    requires IsCorrect(r)
    ensures g.States()[r] == g.Of(r) && g.States()[r := t] == g.With(r, t).States()
  {
  }

  lemma CanPerform(w: World, y: Sys, g: Stage, r: nat, a: Action)
    requires w.Valid() && w.cfg.N == 4 && w.faulty == {1} && StageOf(y, g) && IsCorrect(r)
    requires Enabled(w.cfg, g.Of(r), a) && Delivered(w, g.sent, a)
    ensures CanStep(w, y, r, a)
  {
    DeliveredStays(w, g.sent, y.net, a);
    StatesWith(g, r, g.Of(r));
  }

  lemma SteppedStates(w: World, y: Sys, g: Stage, r: nat, a: Action)
    requires w.Valid() && y.replicas == g.States() && IsCorrect(r) && CanStep(w, y, r, a)
    ensures Stepped(w, y, r, a).replicas == g.With(r, Apply(w.cfg, g.Of(r), a)).States()
    ensures Stepped(w, y, r, a).net == y.net + Sent(w.cfg, g.Of(r), a)
  {
    StatesWith(g, r, Apply(w.cfg, g.Of(r), a));
  }

  lemma SteppedHistory(w: World, y: Sys, r: nat, a: Action, s: ReplicaState)
    requires w.Valid() && CanStep(w, y, r, a) && s == y.replicas[r]
    ensures Stepped(w, y, r, a).accepted == y.accepted + Entered(s, r, a)
    ensures Stepped(w, y, r, a).retained <==> y.retained && (a.ASendViewChange? ==> RequestsRetained(s))
  {
  }

  lemma Performed(w: World, y: Sys, z: Sys, g: Stage, r: nat, t: ReplicaState, sent: set<Message>, entered: set<Acceptance>)
    requires StageOf(y, g) && z.replicas == g.With(r, t).States() && z.net == y.net + sent
    requires z.accepted == y.accepted + entered && z.retained
    ensures StageOf(z, Next(g, r, t, sent, entered))
  {
  }

  lemma OneStep(w: World, run: seq<Sys>, g: Stage, r: nat, a: Action) returns (run': seq<Sys>)
    requires w.Valid() && w.cfg.N == 4 && w.faulty == {1} && Reached(w, run, g) && IsCorrect(r)
    requires Enabled(w.cfg, g.Of(r), a) && Delivered(w, g.sent, a) && (a.ASendViewChange? ==> RequestsRetained(g.Of(r)))
    ensures Reached(w, run', Next(g, r, Apply(w.cfg, g.Of(r), a), Sent(w.cfg, g.Of(r), a), Entered(g.Of(r), r, a)))
  {
    var y := run[|run| - 1];
    CanPerform(w, y, g, r, a);
    var z := Stepped(w, y, r, a);
    StatesWith(g, r, g.Of(r));
    SteppedStates(w, y, g, r, a);
    SteppedHistory(w, y, r, a, g.Of(r));
    Performed(w, y, z, g, r, Apply(w.cfg, g.Of(r), a), Sent(w.cfg, g.Of(r), a), Entered(g.Of(r), r, a));
    run' := run + [z];
    ReplicaChains.LastStep(w, run, r, a, z);
    ReplicaChains.KeptSteps(w, run, run');
  }

  /** A step that sends nothing. */
  lemma Move(run: seq<Sys>, g: Stage, r: nat, a: Action, t: ReplicaState) returns (run': seq<Sys>)
    requires At(run, g) && IsCorrect(r) && Enabled(FOUR, g.Of(r), a) && Delivered(W, g.sent, a)
    requires t == Apply(FOUR, g.Of(r), a) && Sent(FOUR, g.Of(r), a) == {} && !a.AEnterView? && !a.ASendViewChange?
    ensures At(run', g.With(r, t))
  {
    run' := OneStep(W, run, g, r, a);
  }

  /** A step that sends one message. */
  lemma Send(run: seq<Sys>, g: Stage, r: nat, a: Action, t: ReplicaState, m: Message) returns (run': seq<Sys>)
    requires At(run, g) && IsCorrect(r) && Enabled(FOUR, g.Of(r), a) && Delivered(W, g.sent, a)
    requires t == Apply(FOUR, g.Of(r), a) && Sent(FOUR, g.Of(r), a) == {m} && !a.AEnterView?
    requires a.ASendViewChange? ==> RequestsRetained(g.Of(r))
    ensures At(run', g.With(r, t).(sent := g.sent + {m}))
  {
    run' := OneStep(W, run, g, r, a);
  }

  lemma Enter(run: seq<Sys>, g: Stage, r: nat, cp: StableId, t: ReplicaState, nv: NewView) returns (run': seq<Sys>)
    requires At(run, g) && IsCorrect(r) && Enabled(FOUR, g.Of(r), AEnterView(cp))
    requires g.Of(r).newViewStore[g.Of(r).view] == nv && t == EnterView(FOUR, g.Of(r))
    ensures At(run', Next(g, r, t, Sent(FOUR, g.Of(r), AEnterView(cp)), {Acceptance(r, nv, cp)}))
  {
    run' := OneStep(W, run, g, r, AEnterView(cp));
  }

  lemma FaultyStep(w: World, run: seq<Sys>, m: Message, z: Sys)
    requires w.Valid() && run != [] && FaultyNext(w, run[|run| - 1], m, z)
    ensures StepAt(w, run + [z], |run| - 1)
  {
    var run' := run + [z];
    assert run'[|run| - 1] == run[|run| - 1] && run'[|run|] == z;
  }

  lemma OneMessage(w: World, run: seq<Sys>, g: Stage, m: Message) returns (run': seq<Sys>)
    requires w.Valid() && Reached(w, run, g) && m.Sender() in w.faulty
    ensures Reached(w, run', g.(sent := g.sent + {m}))
  {
    var y := run[|run| - 1];
    var z := y.(net := y.net + {m});
    run' := run + [z];
    FaultyStep(w, run, m, z);
    ReplicaChains.KeptSteps(w, run, run');
  }

  /** The faulty replica sends a message. */
  lemma Say(run: seq<Sys>, g: Stage, m: Message) returns (run': seq<Sys>)
    requires At(run, g) && m.Sender() == 1
    ensures At(run', g.(sent := g.sent + {m}))
  {
    run' := OneMessage(W, run, g, m);
  }

  // ------------------------------------------------- work on one certificate

  lemma AddsPrepare(run: seq<Sys>, g: Stage, r: nat, idx: MsgID, c: Cert, p: Prepare) returns (run': seq<Sys>)
    requires At(run, g) && IsCorrect(r) && WorksOn(FOUR, g.Of(r), idx, c) && MPrepare(p) in g.sent
    requires p.view == idx.v && p.seqNo == idx.n && p.replicaId != FOUR.Primary(idx.v)
    requires forall q | q in c.prepare :: q.replicaId != p.replicaId
    ensures At(run', g.With(r, WithOnly(g.Of(r), idx, c.(prepare := c.prepare + [p]))))
  {
    TakesPrepare(FOUR, g.Of(r), idx, c, p);
    run' := Move(run, g, r, AAddPrepare(p), WithOnly(g.Of(r), idx, c.(prepare := c.prepare + [p])));
  }

  lemma MakesCommit(run: seq<Sys>, g: Stage, r: nat, idx: MsgID, c: Cert, d: Digest) returns (run': seq<Sys>)
    requires At(run, g) && IsCorrect(r) && g.Of(r).id == r && WorksOn(FOUR, g.Of(r), idx, c)
    requires Proposing(g.Of(r), idx, c, d) && !c.sentCommit && PrepareCount(c.prepare, idx.v, idx.n, d) + 1 >= FOUR.IntersectionQuorum()
    ensures At(run', g.With(r, WithOnly(g.Of(r), idx, c.(sentCommit := true))).(sent := g.sent + {MCommit(Commit(idx.v, idx.n, d, r))}))
  {
    SendsCommit(FOUR, g.Of(r), idx, c, d);
    run' := Send(run, g, r, ASendCommit(d, idx.v, idx.n), WithOnly(g.Of(r), idx, c.(sentCommit := true)),
                 MCommit(Commit(idx.v, idx.n, d, r)));
  }

  lemma AddsCommit(run: seq<Sys>, g: Stage, r: nat, idx: MsgID, c: Cert, m: Commit) returns (run': seq<Sys>)
    requires At(run, g) && IsCorrect(r) && WorksOn(FOUR, g.Of(r), idx, c) && MCommit(m) in g.sent
    requires m.view == idx.v && m.seqNo == idx.n && forall q | q in c.commit :: q.replicaId != m.replicaId
    ensures At(run', g.With(r, WithOnly(g.Of(r), idx, c.(commit := c.commit + [m]))))
  {
    TakesCommit(FOUR, g.Of(r), idx, c, m);
    run' := Move(run, g, r, AAddCommit(m), WithOnly(g.Of(r), idx, c.(commit := c.commit + [m])));
  }

  lemma WithTwice(g: Stage, r: nat, s: ReplicaState, t: ReplicaState)
    requires IsCorrect(r)
    ensures g.With(r, s).With(r, t) == g.With(r, t) && g.With(r, s).Of(r) == s
  {
  }

  lemma StillWorks(cfg: Config, s: ReplicaState, idx: MsgID, c: Cert, c': Cert, c'': Cert)
    requires WorksOn(cfg, s, idx, c)
    ensures WorksOn(cfg, WithOnly(s, idx, c'), idx, c') && WithOnly(WithOnly(s, idx, c'), idx, c'') == WithOnly(s, idx, c'')
  {
  }

  lemma AddsTwoCommits(run: seq<Sys>, g: Stage, r: nat, idx: MsgID, c: Cert, m: Commit, m': Commit) returns (run': seq<Sys>)
    requires At(run, g) && IsCorrect(r) && WorksOn(FOUR, g.Of(r), idx, c) && c.commit == []
    requires MCommit(m) in g.sent && m.view == idx.v && m.seqNo == idx.n
    requires MCommit(m') in g.sent && m'.view == idx.v && m'.seqNo == idx.n && m.replicaId != m'.replicaId
    ensures At(run', g.With(r, WithOnly(g.Of(r), idx, c.(commit := [m, m']))))
  {
    var s1, s2 := WithOnly(g.Of(r), idx, c.(commit := [m])), WithOnly(g.Of(r), idx, c.(commit := [m, m']));
    assert [] + [m] == [m] && [m] + [m'] == [m, m'];
    StillWorks(FOUR, g.Of(r), idx, c, c.(commit := [m]), c.(commit := [m, m']));
    WithTwice(g, r, s1, s2);
    run' := AddsCommit(run, g, r, idx, c, m);
    run' := AddsCommit(run', g.With(r, s1), r, idx, c.(commit := [m]), m');
  }

  /** Replica r takes in the commits of three replicas. */
  lemma AddsThreeCommits(run: seq<Sys>, g: Stage, r: nat, idx: MsgID, c: Cert, m: Commit, m': Commit, m'': Commit) returns (run': seq<Sys>)
    requires At(run, g) && IsCorrect(r) && WorksOn(FOUR, g.Of(r), idx, c) && c.commit == []
    requires MCommit(m) in g.sent && m.view == idx.v && m.seqNo == idx.n
    requires MCommit(m') in g.sent && m'.view == idx.v && m'.seqNo == idx.n
    requires MCommit(m'') in g.sent && m''.view == idx.v && m''.seqNo == idx.n
    requires m.replicaId < m'.replicaId < m''.replicaId
    ensures At(run', g.With(r, WithOnly(g.Of(r), idx, c.(commit := [m, m', m'']))))
  {
    var s2, s3 := WithOnly(g.Of(r), idx, c.(commit := [m, m'])), WithOnly(g.Of(r), idx, c.(commit := [m, m', m'']));
    assert [m, m'] + [m''] == [m, m', m''];
    StillWorks(FOUR, g.Of(r), idx, c, c.(commit := [m, m']), c.(commit := [m, m', m'']));
    WithTwice(g, r, s2, s3);
    run' := AddsTwoCommits(run, g, r, idx, c, m, m');
    run' := AddsCommit(run', g.With(r, s2), r, idx, c.(commit := [m, m']), m'');
  }

  lemma ExecutesNext(run: seq<Sys>, g: Stage, r: nat, idx: MsgID, c: Cert, d: Digest, t: ReplicaState) returns (run': seq<Sys>)
    requires At(run, g) && IsCorrect(r) && WorksOn(FOUR, g.Of(r), idx, c) && Proposing(g.Of(r), idx, c, d)
    requires idx.n == g.Of(r).lastExec + 1 && !g.Of(r).skipInProgress
    requires PrepareCount(c.prepare, idx.v, idx.n, d) + 1 >= FOUR.IntersectionQuorum()
    requires CommitCount(c.commit, idx.v, idx.n) >= FOUR.IntersectionQuorum()
    requires t == Execute(g.Of(r), idx)
    ensures At(run', g.With(r, t))
  {
    Executes(FOUR, g.Of(r), idx, c, d);
    run' := Move(run, g, r, AExecute(idx), t);
  }

  // ------------------------------------------------------ the request commits

  function Prep(req: Request, r: nat): Prepare { Prepare(0, 1, Digested(req), r) }

  function Comm(req: Request, r: nat): Commit { Commit(0, 1, Digested(req), r) }

  lemma Proposing0(req: Request) returns (run: seq<Sys>, g: Stage)
    ensures At(run, g) && g == Stage(Midway("", 0, req, Answered(0, req)), Initial(2, ""), Initial(3, ""), {MPrePrepare(First(req))}, {})
  {
    run := Begin();
    g := Stage(Initial(0, ""), Initial(2, ""), Initial(3, ""), {}, {});
    var stored := StoreRequest(Initial(0, ""), req);
    run := Move(run, g, 0, AStoreRequest(req), stored);
    g := g.With(0, stored);
    PrimaryProposes(FOUR, "", req);
    run := Send(run, g, 0, APropose(req), Midway("", 0, req, Answered(0, req)), MPrePrepare(First(req)));
    g := g.With(0, Midway("", 0, req, Answered(0, req))).(sent := {} + {MPrePrepare(First(req))});
  }

  /** Replica 0 proposes, replicas 1 and 2 answer. */
  lemma Proposed(req: Request) returns (run: seq<Sys>, g: Stage)
    ensures At(run, g) && g.s0 == Midway("", 0, req, Answered(0, req)) && g.s2 == Midway("", 2, req, Answered(2, req))
    ensures g.s3 == Initial(3, "") && g.accepted == {} && MPrepare(Prep(req, 1)) in g.sent && MPrepare(Prep(req, 2)) in g.sent
  {
    run, g := Proposing0(req);
    run, g := Answering(run, g, req);
    run := Say(run, g, MPrepare(Prep(req, 1)));
    g := g.(sent := g.sent + {MPrepare(Prep(req, 1))});
  }

  lemma Answering(run: seq<Sys>, g: Stage, req: Request) returns (run': seq<Sys>, g': Stage)
    requires At(run, g) && g.s2 == Initial(2, "") && MPrePrepare(First(req)) in g.sent
    ensures g' == g.With(2, Midway("", 2, req, Answered(2, req))).(sent := g.sent + {MPrepare(Prep(req, 2))}) && At(run', g')
  {
    BackupAnswers(FOUR, "", 2, req);
    var accepted := AcceptPrePrepare(Initial(2, ""), First(req));
    run' := Move(run, g, 2, AAcceptPrePrepare(First(req)), accepted);
    g' := g.With(2, accepted);
    run' := Move(run', g', 2, AStoreRequest(req), StoreRequest(accepted, req));
    g' := g'.With(2, StoreRequest(accepted, req));
    run' := Send(run', g', 2, ASendPrepare(Digested(req), 0, 1), Midway("", 2, req, Answered(2, req)), MPrepare(Prep(req, 2)));
    g' := g.With(2, Midway("", 2, req, Answered(2, req))).(sent := g.sent + {MPrepare(Prep(req, 2))});
  }

  /** The certificate with both prepares. */
  function Voted(r: nat, req: Request, commits: seq<Commit>): Cert {
    Cert(Some(First(req)), r != 0, [Prep(req, 1), Prep(req, 2)], true, commits)
  }

  lemma TwoPrepares(v: nat, n: nat, d: Digest, q: nat, r: nat)
    ensures PrepareCount([Prepare(v, n, d, q), Prepare(v, n, d, r)], v, n, d) == 2
  {
    var ps := [Prepare(v, n, d, q), Prepare(v, n, d, r)];
    assert ps[..1] == [Prepare(v, n, d, q)] && ps[..1][..0] == [];
    assert PrepareCount(ps[..1], v, n, d) == 1;
  }

  lemma ThreeCommits(v: nat, n: nat, d: Digest, p: nat, q: nat, r: nat)
    ensures CommitCount([Commit(v, n, d, p), Commit(v, n, d, q), Commit(v, n, d, r)], v, n) == 3
  {
    var cs := [Commit(v, n, d, p), Commit(v, n, d, q), Commit(v, n, d, r)];
    assert cs[..2] == [Commit(v, n, d, p), Commit(v, n, d, q)] && cs[..2][..1] == [Commit(v, n, d, p)] && cs[..2][..1][..0] == [];
    assert CommitCount(cs[..2][..1], v, n) == 1;
    assert CommitCount(cs[..2], v, n) == 2;
  }

  /** Replica r prepares and sends its commit. */
  lemma Preparing(run: seq<Sys>, g: Stage, r: nat, req: Request) returns (run': seq<Sys>, g': Stage)
    requires At(run, g) && (r == 0 || r == 2) && g.Of(r) == Midway("", r, req, Answered(r, req))
    requires MPrepare(Prep(req, 1)) in g.sent && MPrepare(Prep(req, 2)) in g.sent
    ensures g' == g.With(r, Midway("", r, req, Voted(r, req, []))).(sent := g.sent + {MCommit(Comm(req, r))}) && At(run', g')
  {
    var c0 := Answered(r, req);
    var c1, c2 := c0.(prepare := [Prep(req, 1)]), c0.(prepare := [Prep(req, 1), Prep(req, 2)]);
    var g1, g2 := g.With(r, Midway("", r, req, c1)), g.With(r, Midway("", r, req, c2));
    assert [] + [Prep(req, 1)] == [Prep(req, 1)] && [Prep(req, 1)] + [Prep(req, 2)] == [Prep(req, 1), Prep(req, 2)];
    run' := AddsPrepare(run, g, r, ONE, c0, Prep(req, 1));
    run' := AddsPrepare(run', g1, r, ONE, c1, Prep(req, 2));
    TwoPrepares(0, 1, Digested(req), 1, 2);
    run' := MakesCommit(run', g2, r, ONE, c2, Digested(req));
    g' := g.With(r, Midway("", r, req, Voted(r, req, []))).(sent := g.sent + {MCommit(Comm(req, r))});
  }

  function AllCommits(req: Request): seq<Commit> { [Comm(req, 0), Comm(req, 1), Comm(req, 2)] }

  /** Replica r has executed the request. */
  function Done(r: nat, req: Request): ReplicaState {
    Midway("", r, req, Voted(r, req, AllCommits(req))).(lastExec := 1, outstandingReqs := map[],
      deliveries := [Executed(1, Digested(req), 0)])
  }

  lemma DoneExecutes(r: nat, req: Request)
    ensures var s := Midway("", r, req, Voted(r, req, AllCommits(req)));
            ONE in s.certStore && s.certStore[ONE].prePrepare.Some? && Execute(s, ONE) == Done(r, req)
  {
    assert map[Digested(req) := req] - {Digested(req)} == map[];
  }

  lemma Executing(run: seq<Sys>, g: Stage, r: nat, req: Request) returns (run': seq<Sys>, g': Stage)
    requires At(run, g) && (r == 0 || r == 2) && g.Of(r) == Midway("", r, req, Voted(r, req, []))
    requires MCommit(Comm(req, 0)) in g.sent && MCommit(Comm(req, 1)) in g.sent && MCommit(Comm(req, 2)) in g.sent
    ensures g' == g.With(r, Done(r, req)) && At(run', g')
  {
    var c := Voted(r, req, AllCommits(req));
    run' := AddsThreeCommits(run, g, r, ONE, Voted(r, req, []), Comm(req, 0), Comm(req, 1), Comm(req, 2));
    TwoPrepares(0, 1, Digested(req), 1, 2);
    ThreeCommits(0, 1, Digested(req), 0, 1, 2);
    DoneExecutes(r, req);
    WithTwice(g, r, Midway("", r, req, c), Done(r, req));
    run' := ExecutesNext(run', g.With(r, Midway("", r, req, c)), r, ONE, c, Digested(req), Done(r, req));
    g' := g.With(r, Done(r, req));
  }

  /** Replicas 0 and 2 execute the request; replica 3 has seen nothing. */
  lemma Committed(req: Request) returns (run: seq<Sys>, g: Stage)
    ensures At(run, g) && g.s0 == Done(0, req) && g.s2 == Done(2, req) && g.s3 == Initial(3, "") && g.accepted == {}
    ensures MCommit(Comm(req, 0)) in g.sent && MCommit(Comm(req, 1)) in g.sent && MCommit(Comm(req, 2)) in g.sent
  {
    run, g := Proposed(req);
    run, g := Preparing(run, g, 0, req);
    run, g := Preparing(run, g, 2, req);
    run := Say(run, g, MCommit(Comm(req, 1)));
    g := g.(sent := g.sent + {MCommit(Comm(req, 1))});
    run, g := Executing(run, g, 0, req);
    run, g := Executing(run, g, 2, req);
  }
}
