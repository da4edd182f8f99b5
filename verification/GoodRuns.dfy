/** Progress without a view change: the correct replicas of a view with a correct primary can
    execute any request, however the faulty ones keep silent. */
module GoodRuns {
  import opened Common
  import opened PbftTypes
  import opened Quorums
  import opened ReplicaModel
  import opened PbftSystem
  import opened ReplicaChains
  import opened CrossViewSafety
  import opened OneCertificate

  // ------------------------------------------------- one replica, one request

  function Digested(req: Request): Digest { HashReq(req) }

  function First(req: Request): PrePrepare { PrePrepare(0, 1, Digested(req), Some(req), 0) }

  const ONE := MsgID(0, 1)

  /** Replica r knows the request and has the certificate c for number 1. */
  function Midway(id: string, r: nat, req: Request, c: Cert): ReplicaState {
    Initial(r, id).(seqNo := if r == 0 then 1 else 0, reqStore := map[Digested(req) := req],
                    outstandingReqs := map[Digested(req) := req], certStore := map[ONE := c])
  }

  /** The certificate after the proposal: a backup has answered it. */
  function Answered(r: nat, req: Request): Cert { Cert(Some(First(req)), r != 0, [], false, []) }

  lemma PrimaryProposes(cfg: Config, id: string, req: Request)
    requires cfg.Valid() && cfg.L >= 1
    ensures var s := StoreRequest(Initial(0, id), req);
            CanPropose(cfg, s, req) && Propose(s, req) == Midway(id, 0, req, Answered(0, req)) && ProposalFor(s, req) == First(req)
  {
    var s := StoreRequest(Initial(0, id), req);
    assert Propose(s, req).certStore == map[ONE := Answered(0, req)];
  }

  lemma BackupAnswers(cfg: Config, id: string, r: nat, req: Request)
    requires cfg.Valid() && cfg.L >= 1 && 0 < r < cfg.N
    ensures CanAcceptPrePrepare(cfg, Initial(r, id), First(req))
    ensures var s := StoreRequest(AcceptPrePrepare(Initial(r, id), First(req)), req);
            CanSendPrepare(cfg, s, Digested(req), 0, 1) && SendPrepare(s, 0, 1) == Midway(id, r, req, Answered(r, req))
  {
    var a := AcceptPrePrepare(Initial(r, id), First(req));
    assert a.certStore == map[ONE := Answered(0, req)];
    var s := StoreRequest(a, req);
    assert SendPrepare(s, 0, 1).certStore == map[ONE := Answered(r, req)];
  }

  // --------------------------------------------- what the correct replicas send

  ghost function CorrectBelow(w: World, k: nat): set<nat> {
    set r | r in Replicas(k) && r !in w.faulty
  }

  /** The correct replicas are an intersection quorum. */
  lemma CorrectQuorum(w: World)
    requires w.Valid()
    ensures |CorrectBelow(w, w.cfg.N)| >= w.cfg.IntersectionQuorum()
  {
    assert CorrectBelow(w, w.cfg.N) == Replicas(w.cfg.N) - w.faulty;
  }

  lemma CorrectOneMore(w: World, k: nat)
    ensures |CorrectBelow(w, k + 1)| == |CorrectBelow(w, k)| + if k in w.faulty then 0 else 1
  {
    assert CorrectBelow(w, k + 1) == CorrectBelow(w, k) + if k in w.faulty then {} else {k};
  }

  function Prepares(w: World, d: Digest, k: nat): seq<Prepare> {
    if k == 0 then []
    else if k - 1 in w.faulty || k == 1 then Prepares(w, d, k - 1)
    else Prepares(w, d, k - 1) + [Prepare(0, 1, d, k - 1)]
  }

  function Commits(w: World, d: Digest, k: nat): seq<Commit> {
    if k == 0 then []
    else if k - 1 in w.faulty then Commits(w, d, k - 1)
    else Commits(w, d, k - 1) + [Commit(0, 1, d, k - 1)]
  }

  lemma {:induction false} SendersBelow(w: World, d: Digest, k: nat)
    ensures forall p | p in Prepares(w, d, k) :: p.replicaId < k
    ensures forall c | c in Commits(w, d, k) :: c.replicaId < k
  {
    if k > 0 {
      SendersBelow(w, d, k - 1);
    }
  }

  lemma PrepareCountOneMore(ps: seq<Prepare>, p: Prepare, d: Digest)
    requires p.view == 0 && p.seqNo == 1 && p.digest == d
    ensures PrepareCount(ps + [p], 0, 1, d) == PrepareCount(ps, 0, 1, d) + 1
  {
    assert (ps + [p])[..|ps|] == ps;
  }

  lemma CommitCountOneMore(cs: seq<Commit>, c: Commit)
    requires c.view == 0 && c.seqNo == 1
    ensures CommitCount(cs + [c], 0, 1) == CommitCount(cs, 0, 1) + 1
  {
    assert (cs + [c])[..|cs|] == cs;
  }

  lemma {:induction false} PreparesCount(w: World, d: Digest, k: nat)
    requires 0 !in w.faulty
    ensures PrepareCount(Prepares(w, d, k + 1), 0, 1, d) + 1 == |CorrectBelow(w, k + 1)|
  {
    CorrectOneMore(w, k);
    if k == 0 {
      assert CorrectBelow(w, 0) == {} && Prepares(w, d, 0) == [];
    } else {
      PreparesCount(w, d, k - 1);
      if k !in w.faulty {
        PrepareCountOneMore(Prepares(w, d, k), Prepare(0, 1, d, k), d);
      }
    }
  }

  lemma {:induction false} CommitsCount(w: World, d: Digest, k: nat)
    ensures CommitCount(Commits(w, d, k), 0, 1) == |CorrectBelow(w, k)|
  {
    if k > 0 {
      CommitsCount(w, d, k - 1);
      CorrectOneMore(w, k - 1);
      if k - 1 !in w.faulty {
        CommitCountOneMore(Commits(w, d, k - 1), Commit(0, 1, d, k - 1));
      }
    }
  }

  // ------------------------------------------------------------------- the run

  ghost function Last(run: seq<Sys>): Sys
    requires run != []
  {
    run[|run| - 1]
  }

  /** A run without view changes so far. */
  ghost predicate Quiet(w: World, run: seq<Sys>)
    requires w.Valid()
  {
    IsRun(w, run) && |Last(run).replicas| == w.cfg.N && Last(run).accepted == {} && Last(run).retained
  }

  /** After `run`, replica r is in state s and everything else is as before but for more messages. */
  ghost predicate Moved(w: World, run: seq<Sys>, r: nat, s: ReplicaState, run': seq<Sys>)
    requires w.Valid() && Quiet(w, run) && r < w.cfg.N
  {
    Quiet(w, run') && Last(run').replicas == Last(run).replicas[r := s] && Last(run).net <= Last(run').net
  }

  lemma Go(w: World, run: seq<Sys>, r: nat, a: Action) returns (run': seq<Sys>)
    requires w.Valid() && Quiet(w, run) && w.Correct(r) && !a.AEnterView? && !a.ASendViewChange?
    requires Enabled(w.cfg, Last(run).replicas[r], a) && Delivered(w, Last(run).net, a)
    ensures Moved(w, run, r, Apply(w.cfg, Last(run).replicas[r], a), run')
    ensures Sent(w.cfg, Last(run).replicas[r], a) <= Last(run').net
  {
    var z := Stepped(w, Last(run), r, a);
    run' := run + [z];
    LastStep(w, run, r, a, z);
    KeptSteps(w, run, run');
  }

  lemma GoTwice(w: World, run: seq<Sys>, r: nat, s: ReplicaState, run': seq<Sys>, s': ReplicaState, run'': seq<Sys>)
    requires w.Valid() && Quiet(w, run) && r < w.cfg.N && Moved(w, run, r, s, run') && Moved(w, run', r, s', run'')
    ensures Moved(w, run, r, s', run'')
  {
  }

  /** The primary proposes the request. */
  lemma PrimaryMoves(w: World, req: Request) returns (run: seq<Sys>)
    requires w.Valid() && w.cfg.L >= 1 && w.Correct(0)
    ensures Quiet(w, run) && Last(run).replicas == Start(w).replicas[0 := Midway(w.startupId, 0, req, Answered(0, req))]
    ensures MPrePrepare(First(req)) in Last(run).net
  {
    var run0 := [Start(w)];
    var run1 := Go(w, run0, 0, AStoreRequest(req));
    PrimaryProposes(w.cfg, w.startupId, req);
    run := Go(w, run1, 0, APropose(req));
  }

  /** Backup r answers the proposal. */
  lemma BackupMoves(w: World, run: seq<Sys>, r: nat, req: Request) returns (run': seq<Sys>)
    requires w.Valid() && w.cfg.L >= 1 && Quiet(w, run) && w.Correct(r) && r > 0
    requires Last(run).replicas[r] == Initial(r, w.startupId) && MPrePrepare(First(req)) in Last(run).net
    ensures Moved(w, run, r, Midway(w.startupId, r, req, Answered(r, req)), run')
    ensures MPrepare(Prepare(0, 1, Digested(req), r)) in Last(run').net
  {
    BackupAnswers(w.cfg, w.startupId, r, req);
    var a := AcceptPrePrepare(Initial(r, w.startupId), First(req));
    var run1 := Go(w, run, r, AAcceptPrePrepare(First(req)));
    var run2 := Go(w, run1, r, AStoreRequest(req));
    GoTwice(w, run, r, a, run1, StoreRequest(a, req), run2);
    run' := Go(w, run2, r, ASendPrepare(Digested(req), 0, 1));
    GoTwice(w, run, r, StoreRequest(a, req), run2, Midway(w.startupId, r, req, Answered(r, req)), run');
  }

  /** The prepares of the correct backups below k are out. */
  ghost predicate PreparesOut(w: World, d: Digest, net: set<Message>, k: nat) {
    forall b: nat | 0 < b < k && b !in w.faulty :: MPrepare(Prepare(0, 1, d, b)) in net
  }

  ghost predicate CommitsOut(w: World, d: Digest, net: set<Message>, k: nat) {
    forall b: nat | b < k && b !in w.faulty :: MCommit(Commit(0, 1, d, b)) in net
  }

  /** Every correct replica has answered. */
  ghost predicate AllAnswered(w: World, req: Request, y: Sys, k: nat) {
    |y.replicas| == w.cfg.N && forall r: nat | r < k && w.Correct(r) :: y.replicas[r] == Midway(w.startupId, r, req, Answered(r, req))
  }

  lemma {:induction false} AnswerAll(w: World, req: Request, k: nat) returns (run: seq<Sys>)
    requires w.Valid() && w.cfg.L >= 1 && w.Correct(0) && 1 <= k <= w.cfg.N
    ensures Quiet(w, run) && AllAnswered(w, req, Last(run), k) && PreparesOut(w, Digested(req), Last(run).net, k)
    ensures forall r: nat | k <= r < w.cfg.N :: Last(run).replicas[r] == Initial(r, w.startupId)
    ensures MPrePrepare(First(req)) in Last(run).net
  {
    if k == 1 {
      run := PrimaryMoves(w, req);
    } else {
      run := AnswerAll(w, req, k - 1);
      if w.Correct(k - 1) {
        run := BackupMoves(w, run, k - 1, req);
      }
    }
  }

  /** The certificate with the prepares and commits of the correct replicas below k and j. */
  function CertWith(w: World, r: nat, req: Request, k: nat, sent: bool, j: nat): Cert {
    Cert(Some(First(req)), r != 0, Prepares(w, Digested(req), k), sent, Commits(w, Digested(req), j))
  }

  /** Replica r takes in the prepares of the correct backups below k. */
  lemma {:induction false} TakePrepares(w: World, run: seq<Sys>, r: nat, req: Request, k: nat) returns (run': seq<Sys>)
    requires w.Valid() && w.cfg.L >= 1 && Quiet(w, run) && w.Correct(r) && k <= w.cfg.N
    requires Last(run).replicas[r] == Midway(w.startupId, r, req, Answered(r, req))
    requires PreparesOut(w, Digested(req), Last(run).net, k)
    ensures Moved(w, run, r, Midway(w.startupId, r, req, CertWith(w, r, req, k, false, 0)), run')
  {
    if k == 0 {
      run' := run;
    } else {
      run' := TakePrepares(w, run, r, req, k - 1);
      if k > 1 && k - 1 !in w.faulty {
        var c, p := CertWith(w, r, req, k - 1, false, 0), Prepare(0, 1, Digested(req), k - 1);
        SendersBelow(w, Digested(req), k - 1);
        TakesPrepare(w.cfg, Midway(w.startupId, r, req, c), ONE, c, p);
        var run1 := run';
        run' := Go(w, run1, r, AAddPrepare(p));
        GoTwice(w, run, r, Midway(w.startupId, r, req, c), run1, Midway(w.startupId, r, req, c.(prepare := c.prepare + [p])), run');
      }
    }
  }

  /** Replica r prepares and commits. */
  lemma CommitMoves(w: World, run: seq<Sys>, r: nat, req: Request) returns (run': seq<Sys>)
    requires w.Valid() && w.cfg.L >= 1 && Quiet(w, run) && w.Correct(r) && w.Correct(0)
    requires Last(run).replicas[r] == Midway(w.startupId, r, req, Answered(r, req))
    requires PreparesOut(w, Digested(req), Last(run).net, w.cfg.N)
    ensures Moved(w, run, r, Midway(w.startupId, r, req, CertWith(w, r, req, w.cfg.N, true, 0)), run')
    ensures MCommit(Commit(0, 1, Digested(req), r)) in Last(run').net
  {
    var run1 := TakePrepares(w, run, r, req, w.cfg.N);
    var c := CertWith(w, r, req, w.cfg.N, false, 0);
    PreparesCount(w, Digested(req), w.cfg.N - 1);
    CorrectQuorum(w);
    SendsCommit(w.cfg, Midway(w.startupId, r, req, c), ONE, c, Digested(req));
    run' := Go(w, run1, r, ASendCommit(Digested(req), 0, 1));
    GoTwice(w, run, r, Midway(w.startupId, r, req, c), run1, Midway(w.startupId, r, req, c.(sentCommit := true)), run');
  }

  ghost predicate AllCommitted(w: World, req: Request, y: Sys, k: nat) {
    |y.replicas| == w.cfg.N &&
    forall r: nat | r < k && w.Correct(r) :: y.replicas[r] == Midway(w.startupId, r, req, CertWith(w, r, req, w.cfg.N, true, 0))
  }

  /** The correct replicas below k have committed, the others have answered. */
  ghost predicate Committing(w: World, req: Request, y: Sys, k: nat) {
    && AllCommitted(w, req, y, k) && CommitsOut(w, Digested(req), y.net, k) && PreparesOut(w, Digested(req), y.net, w.cfg.N)
    && forall r: nat | k <= r && w.Correct(r) :: y.replicas[r] == Midway(w.startupId, r, req, Answered(r, req))
  }

  lemma CommittingNext(w: World, req: Request, y: Sys, y': Sys, k: nat)
    requires Committing(w, req, y, k) && y.net <= y'.net && k < w.cfg.N
    requires y'.replicas ==
             if !w.Correct(k) then y.replicas
             else y.replicas[k := Midway(w.startupId, k, req, CertWith(w, k, req, w.cfg.N, true, 0))]
    requires w.Correct(k) ==> MCommit(Commit(0, 1, Digested(req), k)) in y'.net
    ensures Committing(w, req, y', k + 1)
  {
  }

  lemma {:induction false} CommitAll(w: World, req: Request, k: nat) returns (run: seq<Sys>)
    requires w.Valid() && w.cfg.L >= 1 && w.Correct(0) && k <= w.cfg.N
    ensures Quiet(w, run) && Committing(w, req, Last(run), k)
  {
    if k == 0 {
      run := AnswerAll(w, req, w.cfg.N);
    } else {
      run := CommitAll(w, req, k - 1);
      var y := Last(run);
      if w.Correct(k - 1) {
        run := CommitMoves(w, run, k - 1, req);
      }
      CommittingNext(w, req, y, Last(run), k - 1);
    }
  }

  lemma {:induction false} TakeCommits(w: World, run: seq<Sys>, r: nat, req: Request, k: nat) returns (run': seq<Sys>)
    requires w.Valid() && w.cfg.L >= 1 && Quiet(w, run) && w.Correct(r) && k <= w.cfg.N
    requires Last(run).replicas[r] == Midway(w.startupId, r, req, CertWith(w, r, req, w.cfg.N, true, 0))
    requires CommitsOut(w, Digested(req), Last(run).net, k)
    ensures Moved(w, run, r, Midway(w.startupId, r, req, CertWith(w, r, req, w.cfg.N, true, k)), run')
  {
    if k == 0 {
      run' := run;
    } else {
      run' := TakeCommits(w, run, r, req, k - 1);
      if k - 1 !in w.faulty {
        var c, m := CertWith(w, r, req, w.cfg.N, true, k - 1), Commit(0, 1, Digested(req), k - 1);
        SendersBelow(w, Digested(req), k - 1);
        TakesCommit(w.cfg, Midway(w.startupId, r, req, c), ONE, c, m);
        var run1 := run';
        run' := Go(w, run1, r, AAddCommit(m));
        GoTwice(w, run, r, Midway(w.startupId, r, req, c), run1, Midway(w.startupId, r, req, c.(commit := c.commit + [m])), run');
      }
    }
  }

  /** With the prepares and commits of all correct replicas the request can be executed. */
  lemma CanExecuteOne(w: World, r: nat, req: Request, c: Cert)
    requires w.Valid() && w.cfg.L >= 1 && w.Correct(0) && c == CertWith(w, r, req, w.cfg.N, true, w.cfg.N)
    ensures var s := Midway(w.startupId, r, req, c);
            CanExecute(w.cfg, s, ONE) && Execute(s, ONE).deliveries == [Executed(1, Digested(req), 0)]
  {
    PreparesCount(w, Digested(req), w.cfg.N - 1);
    CommitsCount(w, Digested(req), w.cfg.N);
    CorrectQuorum(w);
    Executes(w.cfg, Midway(w.startupId, r, req, c), ONE, c, Digested(req));
  }

  lemma ExecuteMoves(w: World, run: seq<Sys>, r: nat, req: Request) returns (run': seq<Sys>, s: ReplicaState)
    requires w.Valid() && w.cfg.L >= 1 && Quiet(w, run) && w.Correct(r) && w.Correct(0)
    requires Last(run).replicas[r] == Midway(w.startupId, r, req, CertWith(w, r, req, w.cfg.N, true, 0))
    requires CommitsOut(w, Digested(req), Last(run).net, w.cfg.N)
    ensures Moved(w, run, r, s, run') && s.deliveries == [Executed(1, Digested(req), 0)]
  {
    var run1 := TakeCommits(w, run, r, req, w.cfg.N);
    var c := CertWith(w, r, req, w.cfg.N, true, w.cfg.N);
    CanExecuteOne(w, r, req, c);
    s := Execute(Midway(w.startupId, r, req, c), ONE);
    run' := Go(w, run1, r, AExecute(ONE));
    GoTwice(w, run, r, Midway(w.startupId, r, req, c), run1, s, run');
  }

  lemma {:induction false} ExecuteAll(w: World, req: Request, k: nat) returns (run: seq<Sys>)
    requires w.Valid() && w.cfg.L >= 1 && w.Correct(0) && k <= w.cfg.N
    ensures Quiet(w, run) && CommitsOut(w, Digested(req), Last(run).net, w.cfg.N)
    ensures forall r: nat | r < k && w.Correct(r) :: Last(run).replicas[r].deliveries == [Executed(1, Digested(req), 0)]
    ensures forall r: nat | k <= r && w.Correct(r) ::
              Last(run).replicas[r] == Midway(w.startupId, r, req, CertWith(w, r, req, w.cfg.N, true, 0))
  {
    if k == 0 {
      run := CommitAll(w, req, w.cfg.N);
    } else {
      run := ExecuteAll(w, req, k - 1);
      if w.Correct(k - 1) {
        var s;
        run, s := ExecuteMoves(w, run, k - 1, req);
      }
    }
  }

  /** Whatever the request, and whoever is faulty as long as the first primary is not, there is a
      run of the system in which every correct replica executes it. In this run the hypotheses of
      safety across view changes hold for every number. */
  lemma RequestExecuted(w: World, req: Request) returns (run: seq<Sys>)
    requires w.Valid() && w.cfg.L >= 1 && w.Correct(0)
    ensures IsRun(w, run) && |Last(run).replicas| == w.cfg.N && forall v: nat, n: nat :: GoodViews(w, Last(run), v, n)
    ensures forall r: nat | w.Correct(r) :: Last(run).replicas[r].deliveries == [Executed(1, HashReq(req), 0)]
  {
    run := ExecuteAll(w, req, w.cfg.N);
  }
}
