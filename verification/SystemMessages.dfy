/** What correct replicas ever sent stays consistent, and the invariant holds in every run. */
module SystemMessages {
  import opened PbftTypes
  import opened Quorums
  import opened ReplicaModel
  import opened ReplicaInvariant
  import opened PbftSystem
  import opened SystemInvariant
  import opened SystemSteps
  import opened SystemSources

  // ------------------------------------------------------- messages just sent

  /** What the state s of the sender says of a message it is about to send. */
  ghost predicate Sendable(cfg: Config, s: ReplicaState, m: Message)
    requires cfg.Valid()
  {
    match m
    case MPrepare(p) => p.view == s.view && (!s.activeView || (p.seqNo > s.h && !GetCert(s, p.view, p.seqNo).sentPrepare))
    case MPrePrepare(pp) => s.activeView && pp.view == s.view && pp.seqNo > s.seqNo
    case MNewView(nv) => !s.activeView && nv.view == s.view && s.view !in s.newViewStore
    case MViewChange(vc) => vc.view > s.view && vc.h == s.h && Announces(SendViewChange(cfg, s, vc.view), vc)
    case MCommit(c) => c.view == s.view && Prepared(cfg, s, c.digest, c.view, c.seqNo)
    case MCheckpoint(c) => true
  }

  /** The messages of one action: each sendable, and no two of them in conflict. */
  ghost predicate SendableSet(cfg: Config, s: ReplicaState, sent: set<Message>)
    requires cfg.Valid()
  {
    && (forall m | m in sent :: m.Sender() == s.id && Sendable(cfg, s, m))
    && (forall p, q | MPrepare(p) in sent && MPrepare(q) in sent && p.seqNo == q.seqNo :: p.digest == q.digest)
    && (forall p, q | MPrePrepare(p) in sent && MPrePrepare(q) in sent :: p == q)
    && (forall p, q | MNewView(p) in sent && MNewView(q) in sent :: p == q)
    && (forall p, q | MPrePrepare(p) in sent :: MNewView(q) !in sent)
    && (forall p, q | MViewChange(p) in sent :: MCommit(q) !in sent)
  }

  lemma OneSendable(cfg: Config, s: ReplicaState, m: Message, sent: set<Message>)
    requires cfg.Valid() && m.Sender() == s.id && Sendable(cfg, s, m) && sent == {m}
    ensures SendableSet(cfg, s, sent)
  {
  }

  lemma PreparesSendable(cfg: Config, s: ReplicaState, x: map<nat, Digest>, sent: set<Message>)
    requires cfg.Valid() && !s.activeView
    requires sent <= set n | n in x :: MPrepare(Prepare(s.view, n, x[n], s.id))
    ensures SendableSet(cfg, s, sent)
  {
  }

  lemma SentIsSendable(cfg: Config, s: ReplicaState, a: Action)
    requires cfg.Valid() && Enabled(cfg, s, a)
    requires a.ASendNewView? ==> !s.activeView
    ensures SendableSet(cfg, s, Sent(cfg, s, a))
  {
    var sent := Sent(cfg, s, a);
    if a.APropose? {
      OneSendable(cfg, s, MPrePrepare(ProposalFor(s, a.req)), sent);
    } else if a.ASendPrepare? {
      OneSendable(cfg, s, MPrepare(Prepare(a.v, a.n, a.d, s.id)), sent);
    } else if a.ASendCommit? {
      OneSendable(cfg, s, MCommit(Commit(a.v, a.n, a.d, s.id)), sent);
    } else if a.ATakeCheckpoint? {
      OneSendable(cfg, s, MCheckpoint(Checkpoint(s.lastExec, s.id, a.id)), sent);
    } else if a.ASendViewChange? {
      OneSendable(cfg, s, MViewChange(a.vc), sent);
    } else if a.ASendNewView? {
      OneSendable(cfg, s, MNewView(a.nv), sent);
    } else if a.AEnterView? {
      PreparesSendable(cfg, s, s.newViewStore[s.view].xset, sent);
    }
  }

  // -------------------------------------------------------------- prepares

  lemma PreparesStayOne(w: World, net: set<Message>, s: ReplicaState, sent: set<Message>)
    requires w.Valid() && SendableSet(w.cfg, s, sent) && OwnMessages(w.cfg, net, s)
    requires OnePrepareEach(w, net)
    ensures OnePrepareEach(w, net + sent)
  {
    forall p, q | MPrepare(p) in sent && MPrepare(q) in net && q.replicaId == p.replicaId
      ensures q.view != p.view || q.seqNo != p.seqNo
    {
      assert MPrepare(p).Sender() == s.id && MPrepare(q).Sender() == s.id;
      assert Sendable(w.cfg, s, MPrepare(p)) && OwnMessage(w.cfg, s, MPrepare(q));
    }
  }

  // ------------------------------------------------------------- proposals

  lemma PrePreparesStayOne(w: World, net: set<Message>, s: ReplicaState, sent: set<Message>)
    requires w.Valid() && SendableSet(w.cfg, s, sent) && OwnMessages(w.cfg, net, s)
    requires OnePrePrepareEach(w, net)
    ensures OnePrePrepareEach(w, net + sent)
  {
    forall p, q | MPrePrepare(p) in sent && MPrePrepare(q) in net && q.replicaId == p.replicaId
      ensures q.view != p.view || q.seqNo < p.seqNo
    {
      assert MPrePrepare(p).Sender() == s.id && MPrePrepare(q).Sender() == s.id;
      assert Sendable(w.cfg, s, MPrePrepare(p)) && OwnMessage(w.cfg, s, MPrePrepare(q));
    }
  }

  lemma NewViewsStayOne(w: World, net: set<Message>, s: ReplicaState, sent: set<Message>)
    requires w.Valid() && SendableSet(w.cfg, s, sent) && OwnMessages(w.cfg, net, s)
    requires OneNewViewEach(w, net)
    ensures OneNewViewEach(w, net + sent)
  {
    forall p, q | MNewView(p) in sent && MNewView(q) in net && q.replicaId == p.replicaId
      ensures q.view != p.view
    {
      assert MNewView(p).Sender() == s.id && MNewView(q).Sender() == s.id;
      assert Sendable(w.cfg, s, MNewView(p)) && OwnMessage(w.cfg, s, MNewView(q));
    }
  }

  lemma ProposalsStayApart(w: World, net: set<Message>, s: ReplicaState, sent: set<Message>)
    requires w.Valid() && SendableSet(w.cfg, s, sent) && OwnMessages(w.cfg, net, s) && ActiveOk(w.cfg, s)
    requires ProposalsApart(w, net)
    ensures ProposalsApart(w, net + sent)
  {
    forall p, q | MPrePrepare(p) in sent && MNewView(q) in net && q.replicaId == p.replicaId && q.view == p.view
      ensures p.seqNo !in q.xset
    {
      assert MPrePrepare(p).Sender() == s.id && MNewView(q).Sender() == s.id;
      assert Sendable(w.cfg, s, MPrePrepare(p)) && OwnMessage(w.cfg, s, MNewView(q));
      var cp :| EnteredWith(w.cfg, s, cp);
    }
    forall p, q | MPrePrepare(p) in net && MNewView(q) in sent && q.replicaId == p.replicaId
      ensures q.view != p.view
    {
      assert MPrePrepare(p).Sender() == s.id && MNewView(q).Sender() == s.id;
      assert Sendable(w.cfg, s, MNewView(q)) && OwnMessage(w.cfg, s, MPrePrepare(p));
    }
  }

  /** A primary sends a new-view only before it enters the view: view 0 never has
      the required view-changes, since correct replicas send none for it. */
  lemma NewViewSentInactive(w: World, net: set<Message>, s: ReplicaState)
    requires w.Valid() && ActiveOk(w.cfg, s) && StoresOk(w.cfg, s) && StoresSourced(w, net, s)
    requires s.view !in s.newViewStore && |ForView(s, s.view)| == w.cfg.AllCorrectReplicasQuorum()
    requires forall vc | MViewChange(vc) in net :: vc.replicaId in w.faulty || vc.view > 0
    ensures !s.activeView
  {
    if s.view == 0 {
      var ids := set k | k in ForView(s, 0) :: k.id;
      forall k | k in ForView(s, 0) ensures k.id in w.faulty && k == VCIdx(0, k.id) {
        var vc := s.viewChangeStore[k];
        assert MViewChange(vc) in net && vc.view == 0;
      }
      SubsetSize(ids, w.faulty);
      InjectIds(ForView(s, 0), ids);
      assert false;
    }
  }

  lemma InjectIds(ks: set<VCIdx>, ids: set<nat>)
    requires forall k | k in ks :: k == VCIdx(0, k.id)
    requires ids == set k | k in ks :: k.id
    ensures |ids| == |ks|
  {
    if ks == {} {
      assert ids == {};
    } else {
      var k :| k in ks;
      var ks' := ks - {k};
      var ids' := set j | j in ks' :: j.id;
      InjectIds(ks', ids');
      assert ids == ids' + {k.id} by {
        forall i | i in ids ensures i in ids' + {k.id} {
          var j :| j in ks && j.id == i;
          assert j == k || j in ks';
        }
      }
      assert k.id !in ids';
    }
  }

  // ------------------------------------------------- commits, view-changes

  lemma CommitsStayPrepared(w: World, net: set<Message>, held: set<Proposal>, held': set<Proposal>, s: ReplicaState, sent: set<Message>)
    requires w.Valid() && SendableSet(w.cfg, s, sent) && LocalInv(w.cfg, s) && Sourced(w, net, held, s)
    requires forall m | m in net :: m.Sender() < w.cfg.N
    requires CommitsPrepared(w, net, held) && held <= held'
    ensures CommitsPrepared(w, net + sent, held')
  {
    forall c | MCommit(c) in net + sent && w.Correct(c.replicaId)
      ensures PreparedCert(w.cfg, net + sent, c.view, c.seqNo, c.digest)
      ensures Proposal(c.replicaId, c.view, c.seqNo, c.digest) in held'
    {
      if MCommit(c) in sent {
        assert MCommit(c).Sender() == s.id && Sendable(w.cfg, s, MCommit(c));
        PreparedIsCertified(w, net, held, s, c.digest, c.view, c.seqNo);
      }
      CertificatesStay(w.cfg, net, net + sent, c.view, c.seqNo, c.digest);
    }
  }

  lemma OneViewChangeStays(w: World, net: set<Message>, held: set<Proposal>, net': set<Message>, held': set<Proposal>, vc: ViewChange)
    requires w.Valid() && ViewChangeSourced(w.cfg, net, held, vc) && net <= net' && held <= held'
    ensures ViewChangeSourced(w.cfg, net', held', vc)
  {
    forall p | p in vc.pset ensures PreparedCert(w.cfg, net', p.view, p.seqNo, p.digest) {
      CertificatesStay(w.cfg, net, net', p.view, p.seqNo, p.digest);
    }
  }

  /** A new view-change announces the P and Q sets just computed. */
  lemma NewViewChangeSourced(w: World, net: set<Message>, held: set<Proposal>, s: ReplicaState, vc: ViewChange)
    requires w.Valid() && PQSourced(w.cfg, net, held, s) && PsetOk(w.cfg, s) && QsetOk(w.cfg, s) && Announces(s, vc)
    ensures ViewChangeSourced(w.cfg, net, held, vc)
  {
  }

  lemma ViewChangesStaySourced(w: World, net: set<Message>, held: set<Proposal>, held': set<Proposal>, s: ReplicaState, sent: set<Message>)
    requires w.Valid() && SendableSet(w.cfg, s, sent) && LocalInv(w.cfg, s) && Sourced(w, net, held, s)
    requires forall m | m in net :: m.Sender() < w.cfg.N
    requires ViewChangesSourced(w, net, held) && held <= held'
    ensures ViewChangesSourced(w, net + sent, held')
  {
    forall vc | MViewChange(vc) in net + sent && w.Correct(vc.replicaId) ensures ViewChangeSourced(w.cfg, net + sent, held', vc) {
      if MViewChange(vc) in sent {
        assert Sendable(w.cfg, s, MViewChange(vc));
        SendViewChangeKeeps(w.cfg, s, vc.view);
        ViewChangePQ(w, net, held, s, vc.view);
        NewViewChangeSourced(w, net, held, SendViewChange(w.cfg, s, vc.view), vc);
      }
      OneViewChangeStays(w, net, held, net + sent, held', vc);
    }
  }

  lemma ViewChangesStayReaching(w: World, net: set<Message>, s: ReplicaState, sent: set<Message>)
    requires w.Valid() && SendableSet(w.cfg, s, sent) && OwnMessages(w.cfg, net, s)
    requires ViewChangesReach(w, net)
    ensures ViewChangesReach(w, net + sent)
  {
    forall vc, c | MViewChange(vc) in sent && MCommit(c) in net && c.replicaId == vc.replicaId
      ensures c.seqNo <= vc.h + w.cfg.L
    {
      assert MViewChange(vc).Sender() == s.id && MCommit(c).Sender() == s.id;
      assert Sendable(w.cfg, s, MViewChange(vc)) && OwnMessage(w.cfg, s, MCommit(c));
    }
    CommitsFollow(w, net, s, sent);
  }

  /** A commit is never for a view before one the replica announced. */
  lemma CommitsFollow(w: World, net: set<Message>, s: ReplicaState, sent: set<Message>)
    requires w.Valid() && SendableSet(w.cfg, s, sent) && OwnMessages(w.cfg, net, s)
    ensures forall vc, c | MViewChange(vc) in net && MCommit(c) in sent && c.replicaId == vc.replicaId :: c.view >= vc.view
  {
    forall vc, c | MViewChange(vc) in net && MCommit(c) in sent && c.replicaId == vc.replicaId
      ensures c.view >= vc.view
    {
      assert MViewChange(vc).Sender() == s.id && MCommit(c).Sender() == s.id;
      assert Sendable(w.cfg, s, MCommit(c)) && OwnMessage(w.cfg, s, MViewChange(vc));
    }
  }

  lemma AnnouncedCommit(cfg: Config, s: ReplicaState, vc: ViewChange, c: Commit)
    requires PsetOk(cfg, s) && Announces(s, vc) && RemembersCommit(cfg, s, c) && c.view < s.view
    ensures Reported(vc, c)
  {
    if c.seqNo > s.h {
      assert s.pset[c.seqNo] in vc.pset;
    }
  }

  lemma NewViewChangeReports(w: World, net: set<Message>, s: ReplicaState, vc: ViewChange, c: Commit)
    requires w.Valid() && LocalInv(w.cfg, s) && Sendable(w.cfg, s, MViewChange(vc)) && OwnMessage(w.cfg, s, MCommit(c))
    requires RemembersCommit(w.cfg, s, c) && RequestsRetained(s)
    ensures Reported(vc, c)
  {
    RemembersViewChange(w.cfg, s, vc.view, c);
    SendViewChangeKeeps(w.cfg, s, vc.view);
    AnnouncedCommit(w.cfg, SendViewChange(w.cfg, s, vc.view), vc, c);
  }

  lemma ViewChangesStayReporting(w: World, net: set<Message>, s: ReplicaState, sent: set<Message>)
    requires w.Valid() && SendableSet(w.cfg, s, sent) && LocalInv(w.cfg, s) && OwnMessages(w.cfg, net, s)
    requires RemembersCommits(w.cfg, net, s) && ViewChangesReport(w, net)
    requires (forall vc :: MViewChange(vc) !in sent) || RequestsRetained(s)
    ensures ViewChangesReport(w, net + sent)
  {
    forall vc, c | MViewChange(vc) in sent && MCommit(c) in net && c.replicaId == vc.replicaId
      ensures Reported(vc, c)
    {
      assert MViewChange(vc).Sender() == s.id && MCommit(c).Sender() == s.id;
      NewViewChangeReports(w, net, s, vc, c);
    }
    CommitsFollow(w, net, s, sent);
  }
}
