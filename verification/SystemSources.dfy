/** What a replica stores comes from the messages sent, after every step. */
module SystemSources {
  import opened Common
  import opened PbftTypes
  import opened ReplicaModel
  import opened ReplicaInvariant
  import opened PbftSystem
  import opened SystemInvariant
  import opened SystemSteps

  /** After an update of one certificate. */
  lemma WithCertSourced(cfg: Config, net: set<Message>, held: set<Proposal>, s: ReplicaState, s': ReplicaState, v: nat, n: nat, c: Cert)
    requires cfg.Valid() && CertsSourced(cfg, net, held, s)
    requires s'.id == s.id && s'.certStore == s.certStore[MsgID(v, n) := c]
    requires CertSourced(cfg, net, held, s.id, MsgID(v, n), c)
    ensures CertsSourced(cfg, net, held, s')
  {
    forall idx | idx in s'.certStore ensures CertSourced(cfg, net, held, s.id, idx, s'.certStore[idx]) {
      if idx != MsgID(v, n) { assert CertSourced(cfg, net, held, s.id, idx, s.certStore[idx]); }
    }
  }

  lemma GetCertSourced(cfg: Config, net: set<Message>, held: set<Proposal>, s: ReplicaState, v: nat, n: nat)
    requires cfg.Valid() && CertsSourced(cfg, net, held, s)
    ensures CertSourced(cfg, net, held, s.id, MsgID(v, n), GetCert(s, v, n))
  {
  }

  lemma HeldByAt(s: ReplicaState, idx: MsgID)
    requires idx in s.certStore && s.certStore[idx].prePrepare.Some?
    ensures Proposal(s.id, idx.v, idx.n, s.certStore[idx].prePrepare.value.digest) in HeldBy(s)
  {
  }

  /** A stored proposal stems from the primary. */
  lemma ProposalSourced(w: World, net: set<Message>, held: set<Proposal>, s: ReplicaState, pp: PrePrepare)
    requires w.Valid() && CertsSourced(w.cfg, net, held, s)
    requires MPrePrepare(pp) in net && pp.replicaId == w.cfg.Primary(pp.view)
    requires Proposal(s.id, pp.view, pp.seqNo, pp.digest) in held
    ensures CertSourced(w.cfg, net, held, s.id, MsgID(pp.view, pp.seqNo),
                        GetCert(s, pp.view, pp.seqNo).(prePrepare := Some(pp)))
  {
    GetCertSourced(w.cfg, net, held, s, pp.view, pp.seqNo);
    assert ByPrePrepare(w.cfg, net, pp, pp.view, pp.seqNo, pp.digest);
  }

  lemma AddPrepareSourced(cfg: Config, net: set<Message>, held: set<Proposal>, s: ReplicaState, p: Prepare)
    requires cfg.Valid() && CertsSourced(cfg, net, held, s) && CanAddPrepare(cfg, s, p) && MPrepare(p) in net
    ensures CertsSourced(cfg, net, held, AddPrepare(s, p))
  {
    GetCertSourced(cfg, net, held, s, p.view, p.seqNo);
    var c := GetCert(s, p.view, p.seqNo);
    var c' := c.(prepare := c.prepare + [p]);
    assert DistinctPrepares(c'.prepare) by {
      forall i, j | 0 <= i < j < |c'.prepare| ensures c'.prepare[i].replicaId != c'.prepare[j].replicaId {
        assert c'.prepare[i] in c.prepare;
      }
    }
    assert CertSourced(cfg, net, held, s.id, MsgID(p.view, p.seqNo), c');
    WithCertSourced(cfg, net, held, s, AddPrepare(s, p), p.view, p.seqNo, c');
  }

  lemma AddCommitSourced(cfg: Config, net: set<Message>, held: set<Proposal>, s: ReplicaState, m: Commit)
    requires cfg.Valid() && CertsSourced(cfg, net, held, s) && CanAddCommit(cfg, s, m) && MCommit(m) in net
    ensures CertsSourced(cfg, net, held, AddCommit(s, m))
  {
    GetCertSourced(cfg, net, held, s, m.view, m.seqNo);
    var c := GetCert(s, m.view, m.seqNo);
    var c' := c.(commit := c.commit + [m]);
    assert DistinctCommits(c'.commit) by {
      forall i, j | 0 <= i < j < |c'.commit| ensures c'.commit[i].replicaId != c'.commit[j].replicaId {
        assert c'.commit[i] in c.commit;
      }
    }
    assert CertSourced(cfg, net, held, s.id, MsgID(m.view, m.seqNo), c');
    WithCertSourced(cfg, net, held, s, AddCommit(s, m), m.view, m.seqNo, c');
  }

  lemma FlagSourced(cfg: Config, net: set<Message>, held: set<Proposal>, s: ReplicaState, s': ReplicaState, v: nat, n: nat, c: Cert)
    requires cfg.Valid() && CertsSourced(cfg, net, held, s)
    requires c.prePrepare == GetCert(s, v, n).prePrepare
    requires c.prepare == GetCert(s, v, n).prepare && c.commit == GetCert(s, v, n).commit
    requires s' == WithCert(s, v, n, c)
    ensures CertsSourced(cfg, net, held, s')
  {
    GetCertSourced(cfg, net, held, s, v, n);
    WithCertSourced(cfg, net, held, s, s', v, n, c);
  }

  lemma PrePrepareSourced(w: World, net: set<Message>, held: set<Proposal>, s: ReplicaState, s': ReplicaState, pp: PrePrepare)
    requires w.Valid() && CertsSourced(w.cfg, net, held, s)
    requires MPrePrepare(pp) in net && pp.replicaId == w.cfg.Primary(pp.view)
    requires s'.id == s.id && HeldBy(s') <= held
    requires s'.certStore == s.certStore[MsgID(pp.view, pp.seqNo) := GetCert(s, pp.view, pp.seqNo).(prePrepare := Some(pp))]
    ensures CertsSourced(w.cfg, net, held, s')
  {
    HeldByAt(s', MsgID(pp.view, pp.seqNo));
    ProposalSourced(w, net, held, s, pp);
    WithCertSourced(w.cfg, net, held, s, s', pp.view, pp.seqNo, GetCert(s, pp.view, pp.seqNo).(prePrepare := Some(pp)));
  }

  lemma CertificateSources(w: World, net: set<Message>, held: set<Proposal>, s: ReplicaState, a: Action)
    requires w.Valid() && Enabled(w.cfg, s, a) && OnCertificate(a) && Delivered(w, net, a)
    requires CertsSourced(w.cfg, net, held, s)
    requires Sent(w.cfg, s, a) <= net && HeldBy(Apply(w.cfg, s, a)) <= held
    ensures CertsSourced(w.cfg, net, held, Apply(w.cfg, s, a))
  {
    match a
    case APropose(req) => PrePrepareSourced(w, net, held, s, Propose(s, req), ProposalFor(s, req));
    case AAcceptPrePrepare(pp) => PrePrepareSourced(w, net, held, s, AcceptPrePrepare(s, pp), pp);
    case ASendPrepare(_, v, n) =>
      FlagSourced(w.cfg, net, held, s, SendPrepare(s, v, n), v, n, GetCert(s, v, n).(sentPrepare := true));
    case AAddPrepare(p) => AddPrepareSourced(w.cfg, net, held, s, p);
    case ASendCommit(_, v, n) =>
      FlagSourced(w.cfg, net, held, s, SendCommit(s, v, n), v, n, GetCert(s, v, n).(sentCommit := true));
    case AAddCommit(c) => AddCommitSourced(w.cfg, net, held, s, c);
  }

  /** The certificate of a number of the X set: the proposal, and the backup's own prepare. */
  lemma NewViewCertSourced(w: World, net: set<Message>, held: set<Proposal>, s: ReplicaState, nv: NewView, n: nat)
    requires w.Valid() && CertSourced(w.cfg, net, held, s.id, MsgID(s.view, n), GetCert(s, s.view, n))
    requires MNewView(nv) in net && nv.view == s.view && nv.replicaId == w.cfg.Primary(s.view) && n in nv.xset
    requires w.cfg.Primary(s.view) != s.id ==> MPrepare(Prepare(s.view, n, nv.xset[n], s.id)) in net
    requires Proposal(s.id, s.view, n, nv.xset[n]) in held
    requires forall p | p in GetCert(s, s.view, n).prepare :: p.replicaId != s.id
    ensures CertSourced(w.cfg, net, held, s.id, MsgID(s.view, n), NewViewCert(w.cfg, s, n, nv.xset[n]))
  {
    var c := GetCert(s, s.view, n);
    var c' := NewViewCert(w.cfg, s, n, nv.xset[n]);
    assert ByNewView(w.cfg, net, nv, s.view, n, nv.xset[n]);
    forall i, j | 0 <= i < j < |c'.prepare| ensures c'.prepare[i].replicaId != c'.prepare[j].replicaId {
      assert c'.prepare[i] in c.prepare;
    }
  }

  lemma EnterViewSourced(w: World, net: set<Message>, held: set<Proposal>, s: ReplicaState, cp: StableId)
    requires w.Valid() && LocalInv(w.cfg, s) && Enabled(w.cfg, s, AEnterView(cp))
    requires CertsSourced(w.cfg, net, held, s) && StoresSourced(w, net, s)
    requires Sent(w.cfg, s, AEnterView(cp)) <= net && HeldBy(EnterView(w.cfg, s)) <= held
    requires forall idx | idx in s.certStore :: forall p | p in s.certStore[idx].prepare :: p.replicaId != s.id
    ensures CertsSourced(w.cfg, net, held, EnterView(w.cfg, s))
  {
    var s' := EnterView(w.cfg, s);
    var nv := s.newViewStore[s.view];
    EnterViewCerts(w.cfg, s, cp);
    forall idx | idx in s'.certStore ensures CertSourced(w.cfg, net, held, s.id, idx, s'.certStore[idx]) {
      if idx.v == s.view && idx.n in nv.xset {
        GetCertSourced(w.cfg, net, held, s, s.view, idx.n);
        HeldByAt(s', idx);
        assert w.cfg.Primary(s.view) != s.id ==>
               MPrepare(Prepare(s.view, idx.n, nv.xset[idx.n], s.id)) in Sent(w.cfg, s, AEnterView(cp));
        NewViewCertSourced(w, net, held, s, nv, idx.n);
      } else {
        assert CertSourced(w.cfg, net, held, s.id, idx, s.certStore[idx]);
      }
    }
  }

  /** The P and Q sets taken into a view change. */
  lemma ViewChangePQ(w: World, net: set<Message>, held: set<Proposal>, s: ReplicaState, target: nat)
    requires w.Valid() && LocalInv(w.cfg, s) && Sourced(w, net, held, s) && target > s.view
    requires forall m | m in net :: m.Sender() < w.cfg.N
    ensures PQSourced(w.cfg, net, held, SendViewChange(w.cfg, s, target))
  {
    var s' := SendViewChange(w.cfg, s, target);
    forall n | n in s'.pset
      ensures PreparedCert(w.cfg, net, s'.pset[n].view, n, s'.pset[n].digest)
      ensures Proposal(s.id, s'.pset[n].view, n, s'.pset[n].digest) in held
    {
      if EntersP(w.cfg, s, n) {
        PreparedIsCertified(w, net, held, s, s'.pset[n].digest, s.view, n);
      }
    }
    forall k | k in s'.qset ensures Proposal(s.id, s'.qset[k].view, k.n, k.d) in held {
      if EntersQ(s, k) {
        assert CertSourced(w.cfg, net, held, s.id, MsgID(s.view, k.n), s.certStore[MsgID(s.view, k.n)]);
      }
    }
  }

  /** A state with fewer certificates, entries and stored messages. */
  ghost predicate Shrinks(s: ReplicaState, s': ReplicaState) {
    && s'.id == s.id
    && (forall idx | idx in s'.certStore :: idx in s.certStore && s'.certStore[idx] == s.certStore[idx])
    && (forall n | n in s'.pset :: n in s.pset && s'.pset[n] == s.pset[n])
    && (forall k | k in s'.qset :: k in s.qset && s'.qset[k] == s.qset[k])
    && (forall v | v in s'.newViewStore :: v in s.newViewStore && s'.newViewStore[v] == s.newViewStore[v])
    && (forall k | k in s'.viewChangeStore :: k in s.viewChangeStore && s'.viewChangeStore[k] == s.viewChangeStore[k])
    && s'.checkpointStore <= s.checkpointStore
    && (forall k | k in s'.hChkpts :: k in s.hChkpts && s'.hChkpts[k] == s.hChkpts[k])
  }

  lemma ShrinkSourced(w: World, net: set<Message>, held: set<Proposal>, s: ReplicaState, s': ReplicaState)
    requires w.Valid() && Sourced(w, net, held, s) && Shrinks(s, s')
    ensures Sourced(w, net, held, s')
  {
    forall idx | idx in s'.certStore ensures CertSourced(w.cfg, net, held, s'.id, idx, s'.certStore[idx]) {
      assert CertSourced(w.cfg, net, held, s.id, idx, s.certStore[idx]);
    }
  }

  /** The same certificates and P and Q sets; the stores are looked at separately. */
  lemma SameCertsSourced(w: World, net: set<Message>, held: set<Proposal>, s: ReplicaState, s': ReplicaState)
    requires w.Valid() && Sourced(w, net, held, s)
    requires s'.id == s.id && s'.certStore == s.certStore && s'.pset == s.pset && s'.qset == s.qset
    requires StoresSourced(w, net, s') && CheckpointsSourced(net, s')
    ensures Sourced(w, net, held, s')
  {
    forall idx | idx in s'.certStore ensures CertSourced(w.cfg, net, held, s'.id, idx, s'.certStore[idx]) {
      assert CertSourced(w.cfg, net, held, s.id, idx, s.certStore[idx]);
    }
  }

  lemma NewViewStoreSourced(w: World, net: set<Message>, held: set<Proposal>, s: ReplicaState, nv: NewView)
    requires w.Valid() && Sourced(w, net, held, s)
    requires MNewView(nv) in net && forall m | m in nv.vset :: Authentic(w, net, m)
    ensures Sourced(w, net, held, StoreNewView(s, nv))
  {
    SameCertsSourced(w, net, held, s, StoreNewView(s, nv));
  }

  lemma CheckpointStoreSourced(w: World, net: set<Message>, held: set<Proposal>, s: ReplicaState, c: Checkpoint)
    requires w.Valid() && Sourced(w, net, held, s) && MCheckpoint(c) in net
    ensures Sourced(w, net, held, AddCheckpoint(s, c))
    ensures Sourced(w, net, held, s.(hChkpts := s.hChkpts[c.replicaId := c.seqNo]))
  {
    SameCertsSourced(w, net, held, s, AddCheckpoint(s, c));
    assert MCheckpoint(Checkpoint(c.seqNo, c.replicaId, c.id)) in net;
    SameCertsSourced(w, net, held, s, s.(hChkpts := s.hChkpts[c.replicaId := c.seqNo]));
  }

  ghost predicate OnStore(a: Action) {
    a.AStoreViewChange? || a.ASendNewView? || a.AStoreNewView? || a.AAddCheckpoint? || a.ANoteHigh?
  }

  lemma StoreSources(w: World, net: set<Message>, held: set<Proposal>, s: ReplicaState, a: Action)
    requires w.Valid() && Enabled(w.cfg, s, a) && Delivered(w, net, a) && Sourced(w, net, held, s) && OnStore(a)
    requires Sent(w.cfg, s, a) <= net
    ensures Sourced(w, net, held, Apply(w.cfg, s, a))
  {
    if a.ASendNewView? || a.AStoreNewView? {
      NewViewStoreSources(w, net, held, s, a);
    } else if a.AStoreViewChange? {
      SameCertsSourced(w, net, held, s, StoreViewChange(s, a.vc));
    } else {
      CheckpointStoreSourced(w, net, held, s, a.chkpt);
    }
  }

  lemma NewViewStoreSources(w: World, net: set<Message>, held: set<Proposal>, s: ReplicaState, a: Action)
    requires w.Valid() && Enabled(w.cfg, s, a) && Delivered(w, net, a) && Sourced(w, net, held, s)
    requires Sent(w.cfg, s, a) <= net && (a.ASendNewView? || a.AStoreNewView?)
    ensures Sourced(w, net, held, Apply(w.cfg, s, a))
  {
    NewViewStoreSourced(w, net, held, s, a.nv);
  }

  lemma OtherShrinks(cfg: Config, s: ReplicaState, a: Action)
    requires cfg.Valid() && Enabled(cfg, s, a)
    requires !OnCertificate(a) && !OnWatermark(a) && !ChangesView(a) && !OnStore(a)
    ensures Shrinks(s, Apply(cfg, s, a))
  {
  }

  lemma MoveShrinks(s: ReplicaState, h: nat, s': ReplicaState)
    requires SameCore(MoveWatermarks(s, h), s')
    requires s'.checkpointStore == MoveWatermarks(s, h).checkpointStore && s'.hChkpts == s.hChkpts
    ensures Shrinks(s, s')
  {
  }

  lemma WatermarkShrinks(cfg: Config, s: ReplicaState, a: Action)
    requires cfg.Valid() && Enabled(cfg, s, a) && OnWatermark(a)
    ensures Shrinks(s, Apply(cfg, s, a))
  {
    WatermarkCore(cfg, s, a);
    MoveShrinks(s, WatermarkOf(a), Apply(cfg, s, a));
  }

  ghost predicate NoOwnPrepares(s: ReplicaState) {
    forall idx | idx in s.certStore :: forall p | p in s.certStore[idx].prepare :: p.replicaId != s.id
  }

  lemma OwnPrepareMeansActive(cfg: Config, net: set<Message>, s: ReplicaState, p: Prepare)
    requires cfg.Valid() && OwnMessages(cfg, net, s)
    requires MPrepare(p) in net && p.replicaId == s.id && p.view == s.view
    ensures s.activeView
  {
    assert MPrepare(p).Sender() == s.id && OwnMessage(cfg, s, MPrepare(p));
  }

  /** Before a view is entered none of its prepares is the replica's own. */
  lemma NotPreparedYet(w: World, net: set<Message>, held: set<Proposal>, s: ReplicaState)
    requires w.Valid() && LocalInv(w.cfg, s) && CertsSourced(w.cfg, net, held, s) && OwnMessages(w.cfg, net, s) && !s.activeView
    ensures NoOwnPrepares(s)
  {
    forall idx, p | idx in s.certStore && p in s.certStore[idx].prepare ensures p.replicaId != s.id {
      assert CertOk(w.cfg, s, idx, s.certStore[idx]) && CertSourced(w.cfg, net, held, s.id, idx, s.certStore[idx]);
      if p.replicaId == s.id {
        OwnPrepareMeansActive(w.cfg, net, s, p);
        assert false;
      }
    }
  }

  lemma ViewSources(w: World, net: set<Message>, held: set<Proposal>, s: ReplicaState, a: Action)
    requires w.Valid() && LocalInv(w.cfg, s) && Enabled(w.cfg, s, a) && Sourced(w, net, held, s)
    requires forall m | m in net :: m.Sender() < w.cfg.N
    requires Sent(w.cfg, s, a) <= net && HeldBy(Apply(w.cfg, s, a)) <= held
    requires ChangesView(a) && (!s.activeView ==> NoOwnPrepares(s))
    ensures Sourced(w, net, held, Apply(w.cfg, s, a))
  {
    if a.ASendViewChange? {
      ViewChangePQ(w, net, held, s, a.vc.view);
      SendViewChangeKeeps(w.cfg, s, a.vc.view);
    } else {
      EnterViewSourced(w, net, held, s, a.cp);
    }
  }

  lemma PlainSources(w: World, net: set<Message>, held: set<Proposal>, s: ReplicaState, a: Action)
    requires w.Valid() && Enabled(w.cfg, s, a) && Sourced(w, net, held, s)
    requires !OnCertificate(a) && !OnStore(a) && !ChangesView(a)
    ensures Sourced(w, net, held, Apply(w.cfg, s, a))
  {
    if OnWatermark(a) { WatermarkShrinks(w.cfg, s, a); } else { OtherShrinks(w.cfg, s, a); }
    ShrinkSourced(w, net, held, s, Apply(w.cfg, s, a));
  }

  /** An action on a certificate leaves everything else alone. */
  lemma CertificateActionSourced(w: World, net: set<Message>, held: set<Proposal>, s: ReplicaState, a: Action)
    requires w.Valid() && Enabled(w.cfg, s, a) && OnCertificate(a) && Delivered(w, net, a) && Sourced(w, net, held, s)
    requires Sent(w.cfg, s, a) <= net && HeldBy(Apply(w.cfg, s, a)) <= held
    ensures Sourced(w, net, held, Apply(w.cfg, s, a))
  {
    CertificateSources(w, net, held, s, a);
  }

  /** After an action everything the replica stores still comes from the messages sent. */
  lemma ActionSourced(w: World, net: set<Message>, held: set<Proposal>, s: ReplicaState, a: Action)
    requires w.Valid() && LocalInv(w.cfg, s) && Enabled(w.cfg, s, a) && Delivered(w, net, a) && Sourced(w, net, held, s)
    requires forall m | m in net :: m.Sender() < w.cfg.N
    requires Sent(w.cfg, s, a) <= net && HeldBy(Apply(w.cfg, s, a)) <= held
    requires !s.activeView ==> NoOwnPrepares(s)
    ensures Sourced(w, net, held, Apply(w.cfg, s, a))
  {
    if OnCertificate(a) {
      CertificateActionSourced(w, net, held, s, a);
    } else if OnStore(a) {
      StoreSources(w, net, held, s, a);
    } else if ChangesView(a) {
      ViewSources(w, net, held, s, a);
    } else {
      PlainSources(w, net, held, s, a);
    }
  }
}
