/** Runs of four replicas, of which replica 1 is faulty. A backup enters a view prepared without sending
    a commit; the view-change of a correct replica is refused by all; a correct primary hears the faulty
    replica twice; a replica moves its watermark to a checkpoint that only the faulty replica carries. */
module ViewEntryRuns {
  import opened PbftTypes
  import opened NewViewSelection
  import opened NewViewLimits
  import opened ReplicaModel
  import opened ReplicaInvariant
  import opened PbftSystem
  import opened SystemInvariant
  import opened SystemRuns
  import opened FourReplicas
  import opened CheckpointSafety
  import opened LostRequest
  import opened EnteringViews

  // -------------------------------------------------- the commit is held back

  const EARLY := Prepare(1, 1, Null, 3)

  /** The prepare of replica 3 for number 1 of view 1 came before the new-view. */
  function Early(s: ReplicaState): ReplicaState {
    s.(certStore := map[TWO := EMPTY_CERT.(prepare := [EARLY])])
  }

  lemma TakingEarly(run: seq<Sys>, g: Stage) returns (run': seq<Sys>)
    requires At(run, g) && Waiting(g.s2) && g.s2.h == 0 && MPrepare(EARLY) in g.sent
    ensures At(run', g.With(2, Early(g.s2)))
  {
    assert GetCert(g.s2, 1, 1) == EMPTY_CERT && [] + [EARLY] == [EARLY];
    assert AddPrepare(g.s2, EARLY).certStore == map[TWO := EMPTY_CERT.(prepare := [EARLY])];
    run' := Move(run, g, 2, AAddPrepare(EARLY), Early(g.s2));
  }

  lemma LocalAt(run: seq<Sys>, g: Stage, r: nat)
    requires At(run, g) && IsCorrect(r)
    ensures LocalInv(FOUR, g.Of(r))
  {
    RunInv(W, run, |run| - 1);
    StatesWith(g, r, g.Of(r));
    assert ReplicaInv(W, run[|run| - 1], r);
  }

  /** On entering, the replica's own prepare completes the certificate. */
  lemma EarlyEnters(s: ReplicaState, t: ReplicaState, nv: NewView)
    requires Waiting(s) && s.id == 2 && t == Early(s).(newViewStore := map[1 := nv]) && LocalInv(FOUR, t)
    requires nv.xset == map[1 := Null] && NewViewOk(FOUR, nv, BASE)
    ensures PreparedUnsent(FOUR, EnterView(FOUR, t), 1, Null)
  {
    assert GetCert(t, 1, 1).prepare == [EARLY] && [EARLY][..0] == [];
    EnteredUnsentIff(FOUR, t, BASE, 1);
  }

  lemma EarlyPrepares(s: ReplicaState, t: ReplicaState, nv: NewView)
    requires Waiting(s) && s.id == 2 && t == Early(s).(newViewStore := map[1 := nv]) && LocalInv(FOUR, t)
    requires nv.xset == map[1 := Null] && NewViewOk(FOUR, nv, BASE)
    ensures GetCert(EnterView(FOUR, t), 1, 1).prepare == [EARLY, Prepare(1, 1, Null, 2)]
  {
    EnteredCert(FOUR, t, BASE, 1);
  }

  /** Replica 2 has the new-view and the early prepare. */
  lemma Expecting(req: Request, id: string, nv: NewView) returns (run: seq<Sys>, g: Stage)
    requires MadeOf(nv, req, id, Null)
    ensures At(run, g) && g.s2 == Early(Left2(req, id)).(newViewStore := map[1 := nv])
  {
    run, g := Presented(req, id, nv, Null);
    run, g := Entering(run, g, 3, nv, Null);
    run := TakingEarly(run, g);
    g := g.With(2, Early(Left2(req, id)));
    run := Storing(run, g, 2, nv);
    g := g.With(2, Early(Left2(req, id)).(newViewStore := map[1 := nv]));
  }

  lemma OnlyBackupZero(s: ReplicaState, p: Prepare)
    requires GetCert(s, 1, 1).prepare == [EARLY, Prepare(1, 1, Null, 2)]
    requires CanAddPrepare(FOUR, s, p) && p.view == 1 && p.seqNo == 1 && p.replicaId < 4
    ensures p.replicaId == 0
  {
    var ps := GetCert(s, 1, 1).prepare;
    assert ps[0] in ps && ps[1] in ps;
  }

  /** There is such a run: replica 2 is in view 1 and prepared at number 1, and has not sent a commit.
      Only the prepare of backup 0 can help it: if that backup is silent, the commit is never sent. */
  lemma CommitHeldBack(req: Request, id: string) returns (run: seq<Sys>)
    ensures W.Valid() && IsRun(W, run) && |run[|run| - 1].replicas| == 4
    ensures var s := run[|run| - 1].replicas[2];
            && s.view == 1 && s.activeView && PreparedUnsent(FOUR, s, 1, Null)
            && forall p | CanAddPrepare(FOUR, s, p) && p.view == 1 && p.seqNo == 1 && p.replicaId < 4 :: p.replicaId == 0
  {
    var g;
    var nv := Concealing(req, id);
    run, g := Expecting(req, id, nv);
    var t := g.s2;
    LocalAt(run, g, 2);
    EarlyEnters(Left2(req, id), t, nv);
    EarlyPrepares(Left2(req, id), t, nv);
    run := Enter(run, g, 2, BASE, EnterView(FOUR, t), nv);
    forall p | CanAddPrepare(FOUR, EnterView(FOUR, t), p) && p.view == 1 && p.seqNo == 1 && p.replicaId < 4 ensures p.replicaId == 0 {
      OnlyBackupZero(EnterView(FOUR, t), p);
    }
  }

  // ------------------------------------------- a view-change that all refuse

  /** Replica 0 waits for a view that starts below its watermark. Its view-change would be accepted. */
  lemma AheadOfView(req: Request, id: string) returns (run: seq<Sys>)
    ensures W.Valid() && IsRun(W, run) && |run[|run| - 1].replicas| == 4
    ensures var s := run[|run| - 1].replicas[0]; Checked(FOUR, s, BASE) && s.h == 1 && Presentable(FOUR, s)
  {
    var g;
    var nv := Concealing(req, id);
    run, g := Presented(req, id, nv, Null);
    run := Storing(run, g, 0, nv);
  }

  /** Replica 0 inside view 1. */
  function Within(req: Request, id: string, nv: NewView): ReplicaState {
    Inside(Left(Passed(req, id)), nv, Fresh(0, Null))
  }

  /** Its view-change lists the proposal for number 1, which its watermark has passed. */
  function Refused(id: string): ViewChange { ViewChange(2, 1, [Later(id)], [], [PQ(1, Null, 1)], 0) }

  lemma WithinCert(req: Request, id: string, nv: NewView)
    ensures var s := Within(req, id, nv); GetCert(s, 1, 1) == Fresh(0, Null) && !EntersP(FOUR, s, 1) && EntersQ(s, QIdx(Null, 1))
  {
    var ps := [Prepare(1, 1, Null, 0)];
    assert ps[..0] == [] && PrepareCount(ps, 1, 1, Null) == 1;
  }

  lemma RefusedP(req: Request, id: string, nv: NewView)
    ensures NextPset(FOUR, Within(req, id, nv)) == map[]
  {
    WithinCert(req, id, nv);
  }

  lemma RefusedQ(req: Request, id: string, nv: NewView)
    ensures NextQset(Within(req, id, nv)) == map[QIdx(Null, 1) := PQ(1, Null, 1)]
  {
    WithinCert(req, id, nv);
  }

  lemma RefusedAnnounced(t: ReplicaState, id: string)
    requires t.id == 0 && t.view == 2 && t.h == 1 && t.chkpts == map[1 := id]
    requires t.pset == map[] && t.qset == map[QIdx(Null, 1) := PQ(1, Null, 1)]
    ensures Announces(t, Refused(id))
  {
    var vc := Refused(id);
    assert vc.cset[0] == Later(id) && vc.qset[0] == PQ(1, Null, 1);
  }

  lemma RefusedLeaves(req: Request, id: string, nv: NewView)
    ensures Announces(SendViewChange(FOUR, Within(req, id, nv), 2), Refused(id)) && RequestsRetained(Within(req, id, nv))
  {
    RefusedP(req, id, nv);
    RefusedQ(req, id, nv);
    RefusedAnnounced(SendViewChange(FOUR, Within(req, id, nv), 2), id);
  }

  lemma IsRefused(id: string)
    ensures !CorrectViewChange(FOUR, Refused(id))
  {
    var vc := Refused(id);
    assert vc.qset[0] in vc.pset + vc.qset;
  }

  /** Once it has entered that view and leaves it, it sends a view-change that nobody accepts. */
  lemma OwnViewChangeRefused(req: Request, id: string) returns (run: seq<Sys>, vc: ViewChange)
    ensures W.Valid() && IsRun(W, run) && W.Correct(vc.replicaId)
    ensures MViewChange(vc) in run[|run| - 1].net && !CorrectViewChange(FOUR, vc)
  {
    var g, nv;
    run, g, nv := Within0(req, id);
    RefusedLeaves(req, id, nv);
    vc := Refused(id);
    run, g := Leaves(run, g, 0, SendViewChange(FOUR, Within(req, id, nv), 2), vc);
    IsRefused(id);
  }

  lemma Within0(req: Request, id: string) returns (run: seq<Sys>, g: Stage, nv: NewView)
    ensures At(run, g) && g.s0 == Within(req, id, nv)
  {
    nv := Concealing(req, id);
    run, g := Presented(req, id, nv, Null);
    run, g := Entering(run, g, 0, nv, Null);
  }

  // --------------------------------------------------------- heard twice

  /** Replica r has gone to view 2 and has these view-changes. */
  function Gone(r: nat, store: map<VCIdx, ViewChange>): ReplicaState {
    Initial(r, "").(view := 2, activeView := false, viewChangeStore := store)
  }

  function Asks(r: nat): ViewChange { ViewChange(2, 0, [BASE], [], [], r) }

  lemma GoesTo(r: nat)
    ensures SendViewChange(FOUR, Initial(r, ""), 2) == Gone(r, map[]) && RequestsRetained(Initial(r, ""))
  {
    assert NextPset(FOUR, Initial(r, "")) == map[] && NextQset(Initial(r, "")) == map[];
  }

  lemma EmptyAnnounces(r: nat, v: nat)
    ensures Announces(Initial(r, "").(view := v, activeView := false), ViewChange(v, 0, [BASE], [], [], r))
  {
    assert ViewChange(v, 0, [BASE], [], [], r).cset[0] == BASE;
  }

  lemma Going(run: seq<Sys>, g: Stage, r: nat) returns (run': seq<Sys>, g': Stage)
    requires At(run, g) && IsCorrect(r) && g.Of(r) == Initial(r, "")
    ensures g' == g.With(r, Gone(r, map[])).(sent := g.sent + {MViewChange(Asks(r))}) && At(run', g')
  {
    GoesTo(r);
    EmptyAnnounces(r, 2);
    run', g' := Leaves(run, g, r, Gone(r, map[]), Asks(r));
  }

  ghost predicate AllSaid(vset: seq<ViewChange>, sent: set<Message>)
    requires |vset| == 4
  {
    && MViewChange(vset[0]) in sent && MViewChange(vset[1]) in sent
    && MViewChange(vset[2]) in sent && MViewChange(vset[3]) in sent
  }

  /** Replicas 0 and 2 ask for view 2, and replica 1 for view 2 and for view 3. */
  lemma AllAsk(d: Digest) returns (run: seq<Sys>, g: Stage)
    ensures At(run, g) && g.s2 == Gone(2, map[]) && AllSaid(DoubledVoices(d), g.sent)
  {
    var vset := DoubledVoices(d);
    run := Begin();
    g := Stage(Initial(0, ""), Initial(2, ""), Initial(3, ""), {}, {});
    run, g := Going(run, g, 0);
    run, g := Going(run, g, 2);
    run := Say(run, g, MViewChange(vset[1]));
    g := g.(sent := g.sent + {MViewChange(vset[1])});
    run := Say(run, g, MViewChange(vset[2]));
    g := g.(sent := g.sent + {MViewChange(vset[2])});
  }

  lemma Hearing(run: seq<Sys>, g: Stage, store: map<VCIdx, ViewChange>, vc: ViewChange) returns (run': seq<Sys>, g': Stage)
    requires At(run, g) && g.s2 == Gone(2, store) && MViewChange(vc) in g.sent && vc.view >= 2
    requires CorrectViewChange(FOUR, vc) && VCIdx(vc.view, vc.replicaId) !in store
    ensures g' == g.With(2, Gone(2, store[VCIdx(vc.view, vc.replicaId) := vc])) && At(run', g')
  {
    g' := g.With(2, Gone(2, store[VCIdx(vc.view, vc.replicaId) := vc]));
    run' := Move(run, g, 2, AStoreViewChange(vc), g'.s2);
  }

  function Heard(d: Digest): map<VCIdx, ViewChange> {
    var vset := DoubledVoices(d);
    map[VCIdx(3, 1) := vset[2], VCIdx(2, 1) := vset[1], VCIdx(2, 0) := vset[0], VCIdx(2, 2) := vset[3]]
  }

  /** Replica 2 hears the faulty replica, for view 3 first. */
  lemma FaultyHeard(d: Digest) returns (run: seq<Sys>, g: Stage)
    ensures At(run, g) && AllSaid(DoubledVoices(d), g.sent)
    ensures g.s2 == Gone(2, map[VCIdx(3, 1) := DoubledVoices(d)[2], VCIdx(2, 1) := DoubledVoices(d)[1]])
  {
    var vset := DoubledVoices(d);
    run, g := AllAsk(d);
    run, g := Hearing(run, g, map[], vset[2]);
    run, g := Hearing(run, g, map[VCIdx(3, 1) := vset[2]], vset[1]);
  }

  /** Then it hears replica 0 and itself. */
  lemma AllHeard(d: Digest) returns (run: seq<Sys>, g: Stage)
    ensures At(run, g) && g.s2 == Gone(2, Heard(d))
  {
    var vset := DoubledVoices(d);
    run, g := FaultyHeard(d);
    run, g := Hearing(run, g, map[VCIdx(3, 1) := vset[2], VCIdx(2, 1) := vset[1]], vset[0]);
    run, g := Hearing(run, g, map[VCIdx(3, 1) := vset[2], VCIdx(2, 1) := vset[1], VCIdx(2, 0) := vset[0]], vset[3]);
  }

  function Doubled(d: Digest): NewView { NewView(2, DoubledVoices(d), map[1 := d], 2) }

  lemma HeardCounts(d: Digest)
    ensures |ForView(Gone(2, Heard(d)), 2)| == 3 && |Heard(d)| == 4
  {
    assert ForView(Gone(2, Heard(d)), 2) == {VCIdx(2, 1), VCIdx(2, 0), VCIdx(2, 2)};
    assert Heard(d).Keys == {VCIdx(3, 1), VCIdx(2, 1), VCIdx(2, 0), VCIdx(2, 2)};
  }

  lemma HeardAreTheVoices(d: Digest)
    ensures forall m | m in DoubledVoices(d) :: VCIdx(m.view, m.replicaId) in Heard(d) && Heard(d)[VCIdx(m.view, m.replicaId)] == m
    ensures forall k | k in Heard(d) :: Heard(d)[k] in DoubledVoices(d)
  {
    var vset := DoubledVoices(d);
    assert vset[0] in vset && vset[1] in vset && vset[2] in vset && vset[3] in vset;
  }

  lemma CanSendDoubled(s: ReplicaState, d: Digest)
    requires s == Gone(2, Heard(d))
    ensures CanSendNewView(FOUR, s, Doubled(d), BASE)
  {
    DoubledVoiceDecides(d);
    HeardCounts(d);
    HeardAreTheVoices(d);
  }

  lemma CanPresent(cfg: Config, s: ReplicaState, nv: NewView, cp: StableId)
    requires cfg.Valid() && CanSendNewView(cfg, s, nv, cp)
    ensures Enabled(cfg, s, ASendNewView(nv, cp)) && Apply(cfg, s, ASendNewView(nv, cp)) == StoreNewView(s, nv)
    ensures Sent(cfg, s, ASendNewView(nv, cp)) == {MNewView(nv)}
  {
  }

  lemma Presenting(run: seq<Sys>, g: Stage, nv: NewView) returns (run': seq<Sys>)
    requires At(run, g) && Enabled(FOUR, g.s2, ASendNewView(nv, BASE))
    requires Apply(FOUR, g.s2, ASendNewView(nv, BASE)) == StoreNewView(g.s2, nv)
    requires Sent(FOUR, g.s2, ASendNewView(nv, BASE)) == {MNewView(nv)}
    ensures W.Valid() && IsRun(W, run') && MNewView(nv) in run'[|run'| - 1].net
  {
    run' := Send(run, g, 2, ASendNewView(nv, BASE), StoreNewView(g.s2, nv), MNewView(nv));
  }

  /** In this run the correct primary of view 2 sends a new-view that gives number 1 to a digest of
      which nobody but the faulty replica has told. */
  lemma HeardTwice(d: Digest) returns (run: seq<Sys>)
    ensures W.Valid() && IsRun(W, run) && W.Correct(2) && MNewView(Doubled(d)) in run[|run| - 1].net
    ensures !DistinctReplicas(Doubled(d).vset) && Doubled(d).xset == map[1 := d]
    ensures forall m | m in Doubled(d).vset && W.Correct(m.replicaId) :: m.pset == [] && m.qset == []
  {
    var g;
    run, g := AllHeard(d);
    CanSendDoubled(g.s2, d);
    CanPresent(FOUR, g.s2, Doubled(d), BASE);
    run := Presenting(run, g, Doubled(d));
    DoubledVoiceDecides(d);
  }

  // ------------------------------------------------ a watermark nobody vouches for

  function Alone(c: StableId): NewView { NewView(1, TripledVoice(c), map[c.seqNo + 1 := Null], 1) }

  /** Replica 2 leaves view 0 before anything happens. */
  lemma LeavesAtOnce() returns (run: seq<Sys>, g: Stage)
    ensures At(run, g) && g.s2 == Left(Initial(2, "")) && g.sent == {MViewChange(ViewChange(1, 0, [BASE], [], [], 2))}
  {
    run := Begin();
    g := Stage(Initial(0, ""), Initial(2, ""), Initial(3, ""), {}, {});
    LeavingEmpty(Initial(2, ""));
    EmptyAnnounces(2, 1);
    run, g := Leaves(run, g, 2, Left(Initial(2, "")), ViewChange(1, 0, [BASE], [], [], 2));
  }

  /** The faulty primary of view 1 sends it a new-view made of its own view-changes alone. */
  lemma Luring(run: seq<Sys>, g: Stage, nv: NewView) returns (run': seq<Sys>, g': Stage)
    requires At(run, g) && g.s2.view == 1 && g.s2.newViewStore == map[] && nv.view == 1 && nv.replicaId == 1
    requires forall m | m in nv.vset :: m.replicaId == 1
    ensures g' == g.With(2, g.s2.(newViewStore := map[1 := nv])).(sent := g.sent + {MNewView(nv)}) && At(run', g')
  {
    run', g' := Sending(run, g, nv);
    run' := Storing(run', g', 2, nv);
    g' := g'.With(2, g.s2.(newViewStore := map[1 := nv]));
  }

  lemma Lured(c: StableId) returns (run: seq<Sys>, g: Stage)
    ensures At(run, g) && g.s2 == Left(Initial(2, "")).(newViewStore := map[1 := Alone(c)])
    ensures g.sent == {MViewChange(ViewChange(1, 0, [BASE], [], [], 2)), MNewView(Alone(c))}
  {
    run, g := LeavesAtOnce();
    run, g := Luring(run, g, Alone(c));
  }

  lemma CanSkip(s: ReplicaState, c: StableId)
    requires s == Left(Initial(2, "")).(newViewStore := map[1 := Alone(c)]) && c.seqNo > 0
    ensures Enabled(FOUR, s, ASkipToBase(c)) && Sent(FOUR, s, ASkipToBase(c)) == {}
    ensures Apply(FOUR, s, ASkipToBase(c)) == MoveWatermarks(s, c.seqNo)
  {
    TripledVoiceDecides(c);
  }

  /** In this run replica 2 moves its watermark to a checkpoint of the faulty replica's choice, and no
      correct replica has sent one that far. */
  lemma SkippedAlone(c: StableId) returns (run: seq<Sys>)
    requires c.seqNo > 0
    ensures W.Valid() && IsRun(W, run) && |run[|run| - 1].replicas| == 4
    ensures run[|run| - 1].replicas[2].h == c.seqNo && !Vouched(W, run[|run| - 1].net, c.seqNo)
  {
    var g;
    run, g := Lured(c);
    CanSkip(g.s2, c);
    run := Move(run, g, 2, ASkipToBase(c), MoveWatermarks(g.s2, c.seqNo));
  }
}
