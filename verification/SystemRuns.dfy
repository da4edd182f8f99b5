/** The invariant of the replica system holds in every state of every run. */
module SystemRuns {
  import opened PbftTypes
  import opened ReplicaModel
  import opened ReplicaInvariant
  import opened PbftSystem
  import opened SystemInvariant
  import opened SystemSteps
  import opened SystemSources
  import opened SystemMessages

  /** A replica that does not move, while others send. */
  lemma BystanderKeeps(w: World, y: Sys, y': Sys, r: nat)
    requires w.Valid() && r < |y.replicas| && r < |y'.replicas| && ReplicaInv(w, y, r)
    requires y'.replicas[r] == y.replicas[r] && y.net <= y'.net && y.held <= y'.held
    requires y'.retained ==> y.retained
    requires forall m | m in y'.net && m !in y.net :: m.Sender() != r
    ensures ReplicaInv(w, y', r)
  {
    var s := y.replicas[r];
    SourcedStays(w, y.net, y'.net, y.held, y'.held, s);
    forall m | m in y'.net && m.Sender() == s.id ensures OwnMessage(w.cfg, s, m) {
      assert m in y.net;
    }
    if y'.retained {
      forall c | MCommit(c) in y'.net && c.replicaId == s.id ensures RemembersCommit(w.cfg, s, c) {
        assert MCommit(c).Sender() == s.id && MCommit(c) in y.net;
      }
    }
  }

  lemma FaultyMessageInv(w: World, y: Sys, m: Message, y': Sys)
    requires w.Valid() && MessageInv(w, y) && FaultyNext(w, y, m, y')
    ensures MessageInv(w, y')
  {
    assert forall x | x in y'.net && w.Correct(x.Sender()) :: x in y.net;
    forall c | MCommit(c) in y'.net && w.Correct(c.replicaId)
      ensures MCommit(c) in y.net && PreparedCert(w.cfg, y'.net, c.view, c.seqNo, c.digest)
    {
      assert MCommit(c).Sender() == c.replicaId;
      CertificatesStay(w.cfg, y.net, y'.net, c.view, c.seqNo, c.digest);
    }
    forall vc | MViewChange(vc) in y'.net && w.Correct(vc.replicaId)
      ensures MViewChange(vc) in y.net && ViewChangeSourced(w.cfg, y'.net, y'.held, vc)
    {
      assert MViewChange(vc).Sender() == vc.replicaId;
      OneViewChangeStays(w, y.net, y.held, y'.net, y'.held, vc);
    }
    forall p | MPrepare(p) in y'.net && w.Correct(p.replicaId) ensures MPrepare(p) in y.net {
      assert MPrepare(p).Sender() == p.replicaId;
    }
    forall p | MPrePrepare(p) in y'.net && w.Correct(p.replicaId) ensures MPrePrepare(p) in y.net {
      assert MPrePrepare(p).Sender() == p.replicaId;
    }
    forall p | MNewView(p) in y'.net && w.Correct(p.replicaId) ensures MNewView(p) in y.net {
      assert MNewView(p).Sender() == p.replicaId;
    }
  }

  lemma FaultyStepKeeps(w: World, y: Sys, m: Message, y': Sys)
    requires w.Valid() && SysInv(w, y) && FaultyNext(w, y, m, y')
    ensures SysInv(w, y')
  {
    FaultyMessageInv(w, y, m, y');
    forall r | w.Correct(r) ensures ReplicaInv(w, y', r) {
      BystanderKeeps(w, y, y', r);
    }
  }

  // ------------------------------------------------------- a correct replica

  lemma InputsOk(w: World, y: Sys, r: nat, a: Action)
    requires w.Valid() && CanStep(w, y, r, a) && ReplicaInv(w, y, r)
    ensures InputOk(y.replicas[r], a)
  {
    var s := y.replicas[r];
    if a.AAcceptPrePrepare? && a.pp.replicaId == s.id {
      assert MPrePrepare(a.pp).Sender() == s.id && OwnMessage(w.cfg, s, MPrePrepare(a.pp));
    }
    if a.AAddPrepare? && a.p.replicaId == s.id {
      OwnPrepareMeansActive(w.cfg, y.net, s, a.p);
    }
  }

  lemma NewViewInactive(w: World, y: Sys, r: nat, a: Action)
    requires w.Valid() && SysInv(w, y) && CanStep(w, y, r, a) && a.ASendNewView?
    ensures !y.replicas[r].activeView
  {
    forall vc | MViewChange(vc) in y.net ensures vc.replicaId in w.faulty || vc.view > 0 {
      var m := MViewChange(vc);
      assert m.Sender() < w.cfg.N;
      if vc.replicaId !in w.faulty {
        assert ReplicaInv(w, y, vc.replicaId) && OwnMessage(w.cfg, y.replicas[vc.replicaId], m);
      }
    }
    assert ReplicaInv(w, y, r);
    NewViewSentInactive(w, y.net, y.replicas[r]);
  }

  lemma MoverOwnMessages(w: World, net: set<Message>, s: ReplicaState, a: Action)
    requires w.Valid() && LocalInv(w.cfg, s) && Enabled(w.cfg, s, a) && OwnMessages(w.cfg, net, s) && InputOk(s, a)
    requires a.ASendNewView? ==> !s.activeView
    ensures OwnMessages(w.cfg, net + Sent(w.cfg, s, a), Apply(w.cfg, s, a))
    ensures forall m | m in Sent(w.cfg, s, a) :: m.Sender() == s.id
  {
    var s' := Apply(w.cfg, s, a);
    ActionKeeps(w.cfg, s, a);
    forall m | m in Sent(w.cfg, s, a) ensures m.Sender() == s.id && OwnMessage(w.cfg, s', m) {
      OwnSent(w.cfg, s, a, m);
    }
    forall m | m in net && m.Sender() == s.id ensures OwnMessage(w.cfg, s', m) {
      if ChangesView(a) { OwnChangesView(w.cfg, s, a, m); } else { OwnGrows(w.cfg, s, s', m); }
    }
  }

  lemma MoverRemembersOld(cfg: Config, s: ReplicaState, a: Action, c: Commit)
    requires cfg.Valid() && LocalInv(cfg, s) && Enabled(cfg, s, a) && InputOk(s, a)
    requires RemembersCommit(cfg, s, c) && OwnMessage(cfg, s, MCommit(c)) && c.replicaId == s.id
    requires a.ASendViewChange? ==> RequestsRetained(s)
    ensures RemembersCommit(cfg, Apply(cfg, s, a), c)
  {
    if a.ASendViewChange? {
      RemembersViewChange(cfg, s, a.vc.view, c);
    } else if a.AEnterView? {
      RemembersEnter(cfg, s, a.cp, c);
    } else {
      ActionKeeps(cfg, s, a);
      RemembersGrows(cfg, s, Apply(cfg, s, a), c);
    }
  }

  lemma SameId(cfg: Config, s: ReplicaState, a: Action)
    requires cfg.Valid() && LocalInv(cfg, s) && Enabled(cfg, s, a) && InputOk(s, a)
    ensures Apply(cfg, s, a).id == s.id
  {
    ActionKeeps(cfg, s, a);
  }

  lemma MoverRemembersNew(w: World, net: set<Message>, held: set<Proposal>, s: ReplicaState, c: Commit)
    requires w.Valid() && LocalInv(w.cfg, s) && CanSendCommit(w.cfg, s, c.digest, c.view, c.seqNo)
    requires Sourced(w, net, held, s) && forall m | m in net :: m.Sender() < w.cfg.N
    ensures RemembersCommit(w.cfg, SendCommit(s, c.view, c.seqNo), c)
  {
    PreparedIsCertified(w, net, held, s, c.digest, c.view, c.seqNo);
    assert RemembersCommit(w.cfg, s, c);
    ActionKeeps(w.cfg, s, ASendCommit(c.digest, c.view, c.seqNo));
    RemembersGrows(w.cfg, s, SendCommit(s, c.view, c.seqNo), c);
  }

  lemma SentCommit(cfg: Config, s: ReplicaState, a: Action, c: Commit)
    requires cfg.Valid() && Enabled(cfg, s, a) && MCommit(c) in Sent(cfg, s, a)
    ensures CanSendCommit(cfg, s, c.digest, c.view, c.seqNo) && Apply(cfg, s, a) == SendCommit(s, c.view, c.seqNo)
  {
  }

  lemma MoverRemembers(w: World, net: set<Message>, held: set<Proposal>, s: ReplicaState, a: Action)
    requires w.Valid() && LocalInv(w.cfg, s) && Enabled(w.cfg, s, a) && InputOk(s, a)
    requires Sourced(w, net, held, s) && forall m | m in net :: m.Sender() < w.cfg.N
    requires OwnMessages(w.cfg, net, s) && RemembersCommits(w.cfg, net, s)
    requires a.ASendViewChange? ==> RequestsRetained(s)
    ensures RemembersCommits(w.cfg, net + Sent(w.cfg, s, a), Apply(w.cfg, s, a))
  {
    var s' := Apply(w.cfg, s, a);
    SameId(w.cfg, s, a);
    forall c | MCommit(c) in net + Sent(w.cfg, s, a) && c.replicaId == s'.id ensures RemembersCommit(w.cfg, s', c) {
      if MCommit(c) in net {
        assert MCommit(c).Sender() == s.id && OwnMessage(w.cfg, s, MCommit(c));
        MoverRemembersOld(w.cfg, s, a, c);
      } else {
        SentCommit(w.cfg, s, a, c);
        MoverRemembersNew(w, net, held, s, c);
      }
    }
  }

  lemma MoverSourced(w: World, y: Sys, r: nat, a: Action)
    requires w.Valid() && CanStep(w, y, r, a) && ReplicaInv(w, y, r)
    requires forall m | m in y.net + Sent(w.cfg, y.replicas[r], a) :: m.Sender() < w.cfg.N
    ensures Sourced(w, Stepped(w, y, r, a).net, Stepped(w, y, r, a).held, Apply(w.cfg, y.replicas[r], a))
  {
    var s := y.replicas[r];
    var y' := Stepped(w, y, r, a);
    SourcedStays(w, y.net, y'.net, y.held, y'.held, s);
    if !s.activeView { NotPreparedYet(w, y.net, y.held, s); }
    DeliveredStays(w, y.net, y'.net, a);
    ActionSourced(w, y'.net, y'.held, s, a);
  }

  lemma MoverKeeps(w: World, y: Sys, r: nat, a: Action)
    requires w.Valid() && CanStep(w, y, r, a) && ReplicaInv(w, y, r) && InputOk(y.replicas[r], a)
    requires forall m | m in y.net :: m.Sender() < w.cfg.N
    requires a.ASendNewView? ==> !y.replicas[r].activeView
    ensures ReplicaInv(w, Stepped(w, y, r, a), r)
    ensures forall m | m in Sent(w.cfg, y.replicas[r], a) :: m.Sender() == r
  {
    var s := y.replicas[r];
    ActionKeeps(w.cfg, s, a);
    MoverOwnMessages(w, y.net, s, a);
    MoverSourced(w, y, r, a);
    if Stepped(w, y, r, a).retained { MoverRemembers(w, y.net, y.held, s, a); }
  }

  lemma DeliveredStays(w: World, net: set<Message>, net': set<Message>, a: Action)
    requires Delivered(w, net, a) && net <= net'
    ensures Delivered(w, net', a)
  {
  }

  lemma MessagesStay(w: World, y: Sys, r: nat, sent: set<Message>, y': Sys)
    requires w.Valid() && r < |y.replicas| && ReplicaInv(w, y, r) && MessageInv(w, y) && r < w.cfg.N
    requires SendableSet(w.cfg, y.replicas[r], sent)
    requires y'.net == y.net + sent && y.held <= y'.held && (y'.retained ==> y.retained)
    requires y'.retained ==> (forall vc :: MViewChange(vc) !in sent) || RequestsRetained(y.replicas[r])
    ensures MessageInv(w, y')
  {
    var s := y.replicas[r];
    PreparesStayOne(w, y.net, s, sent);
    PrePreparesStayOne(w, y.net, s, sent);
    NewViewsStayOne(w, y.net, s, sent);
    ProposalsStayApart(w, y.net, s, sent);
    CommitsStayPrepared(w, y.net, y.held, y'.held, s, sent);
    ViewChangesStaySourced(w, y.net, y.held, y'.held, s, sent);
    ViewChangesStayReaching(w, y.net, s, sent);
    if y'.retained { ViewChangesStayReporting(w, y.net, s, sent); }
  }

  lemma SteppedSends(w: World, y: Sys, r: nat, a: Action)
    requires w.Valid() && CanStep(w, y, r, a)
    ensures var y', sent := Stepped(w, y, r, a), Sent(w.cfg, y.replicas[r], a);
            && y'.net == y.net + sent && y.held <= y'.held && (y'.retained ==> y.retained)
            && (y'.retained ==> (forall vc :: MViewChange(vc) !in sent) || RequestsRetained(y.replicas[r]))
  {
  }

  lemma LocalMessageInv(w: World, y: Sys, r: nat, a: Action)
    requires w.Valid() && CanStep(w, y, r, a) && ReplicaInv(w, y, r) && MessageInv(w, y)
    requires a.ASendNewView? ==> !y.replicas[r].activeView
    ensures MessageInv(w, Stepped(w, y, r, a))
  {
    var sent := Sent(w.cfg, y.replicas[r], a);
    SentIsSendable(w.cfg, y.replicas[r], a);
    SteppedSends(w, y, r, a);
    MessagesStay(w, y, r, sent, Stepped(w, y, r, a));
  }

  lemma MoverStepKeeps(w: World, y: Sys, r: nat, a: Action)
    requires w.Valid() && SysInv(w, y) && CanStep(w, y, r, a)
    ensures ReplicaInv(w, Stepped(w, y, r, a), r) && MessageInv(w, Stepped(w, y, r, a))
    ensures forall m | m in Sent(w.cfg, y.replicas[r], a) :: m.Sender() == r
  {
    assert ReplicaInv(w, y, r);
    InputsOk(w, y, r, a);
    if a.ASendNewView? { NewViewInactive(w, y, r, a); }
    MoverKeeps(w, y, r, a);
    LocalMessageInv(w, y, r, a);
  }

  lemma LocalStepKeeps(w: World, y: Sys, r: nat, a: Action)
    requires w.Valid() && SysInv(w, y) && CanStep(w, y, r, a)
    ensures SysInv(w, Stepped(w, y, r, a))
  {
    var y' := Stepped(w, y, r, a);
    MoverStepKeeps(w, y, r, a);
    forall q | w.Correct(q) ensures ReplicaInv(w, y', q) {
      if q != r { BystanderKeeps(w, y, y', q); }
    }
  }

  lemma StepKeeps(w: World, run: seq<Sys>, i: nat)
    requires w.Valid() && IsRun(w, run) && i + 1 < |run| && SysInv(w, run[i])
    ensures SysInv(w, run[i + 1])
  {
    var y, y' := run[i], run[i + 1];
    assert StepAt(w, run, i);
    if m :| FaultyNext(w, y, m, y') {
      FaultyStepKeeps(w, y, m, y');
    } else {
      var r, a :| LocalNext(w, y, r, a, y');
      LocalStepKeeps(w, y, r, a);
    }
  }

  /** The invariant holds in every state of every run with at most f faulty replicas. */
  lemma {:induction false} RunInv(w: World, run: seq<Sys>, i: nat)
    requires w.Valid() && IsRun(w, run) && i < |run|
    ensures SysInv(w, run[i])
  {
    if i == 0 {
      StartInv(w);
    } else {
      RunInv(w, run, i - 1);
      StepKeeps(w, run, i - 1);
    }
  }

  // -------------------------------------------------------- histories only grow

  ghost predicate Earlier(y: Sys, z: Sys) {
    y.net <= z.net && y.held <= z.held && y.accepted <= z.accepted && (z.retained ==> y.retained)
  }

  lemma StepEarlier(w: World, run: seq<Sys>, i: nat)
    requires w.Valid() && IsRun(w, run) && i + 1 < |run|
    ensures Earlier(run[i], run[i + 1])
  {
    assert StepAt(w, run, i);
  }

  lemma EarlierTwice(x: Sys, y: Sys, z: Sys)
    requires Earlier(x, y) && Earlier(y, z)
    ensures Earlier(x, z)
  {
  }

  lemma {:induction false} RunGrows(w: World, run: seq<Sys>, i: nat, j: nat)
    requires w.Valid() && IsRun(w, run) && i <= j < |run|
    ensures Earlier(run[i], run[j])
  {
    if i < j {
      RunGrows(w, run, i, j - 1);
      StepEarlier(w, run, j - 1);
      EarlierTwice(run[i], run[j - 1], run[j]);
    }
  }
}
