/** What every action of a replica keeps, whatever messages it is given. */
module ReplicaInvariant {
  import opened Common
  import opened PbftTypes
  import opened NewViewSelection
  import opened ReplicaModel

  ghost predicate CertOk(cfg: Config, s: ReplicaState, idx: MsgID, c: Cert)
    requires cfg.Valid()
  {
    && idx.v == s.view && idx.n <= s.h + cfg.L
    && (c.prePrepare.Some? ==>
          && s.activeView && c.prePrepare.value.view == idx.v && c.prePrepare.value.seqNo == idx.n
          && (cfg.Primary(idx.v) == s.id ==> idx.n <= s.seqNo))
    && (forall p | p in c.prepare :: p.view == idx.v && p.seqNo == idx.n && p.replicaId != cfg.Primary(idx.v))
    && (forall m | m in c.commit :: m.view == idx.v && m.seqNo == idx.n)
  }

  ghost predicate CertsOk(cfg: Config, s: ReplicaState)
    requires cfg.Valid()
  {
    forall idx | idx in s.certStore :: CertOk(cfg, s, idx, s.certStore[idx])
  }

  ghost predicate PsetOk(cfg: Config, s: ReplicaState) {
    forall n | n in s.pset :: s.pset[n].seqNo == n && s.pset[n].view < s.view && n <= s.h + cfg.L
  }

  ghost predicate QsetOk(cfg: Config, s: ReplicaState) {
    forall k | k in s.qset ::
      s.qset[k].seqNo == k.n && s.qset[k].digest == k.d && s.qset[k].view < s.view && k.n <= s.h + cfg.L
  }

  ghost predicate StoresOk(cfg: Config, s: ReplicaState)
    requires cfg.Valid()
  {
    && (forall w | w in s.newViewStore ::
          s.newViewStore[w].view == w && s.newViewStore[w].replicaId == cfg.Primary(w))
    && (forall k | k in s.viewChangeStore ::
          s.viewChangeStore[k].view == k.v && s.viewChangeStore[k].replicaId == k.id && k.v >= s.view)
  }

  /** The view was entered with the stored new-view, starting from checkpoint cp. */
  ghost predicate EnteredWith(cfg: Config, s: ReplicaState, cp: StableId) {
    && s.view in s.newViewStore
    && var nv := s.newViewStore[s.view];
    && NewViewOk(cfg, nv, cp) && cp.seqNo <= s.h
    && forall k | k in nv.xset ::
         k <= s.seqNo && (k <= s.h || CertProposes(GetCert(s, s.view, k), s.view, k, nv.xset[k]))
  }

  ghost predicate ActiveOk(cfg: Config, s: ReplicaState) {
    && (!s.activeView ==> s.view > 0)
    && (s.activeView && s.view > 0 ==> exists cp :: EnteredWith(cfg, s, cp))
  }

  /** A replica's own messages reach it only after it sent them. */
  ghost predicate InputOk(s: ReplicaState, a: Action) {
    && (a.AAcceptPrePrepare? && a.pp.replicaId == s.id ==> a.pp.seqNo <= s.seqNo)
    && (a.AAddPrepare? && a.p.replicaId == s.id ==> s.activeView)
  }

  /** Between handlers every certificate belongs to the current view, a proposal is
      only held in an entered view, P and Q entries belong to earlier views, and no
      number exceeds h+L. */
  ghost predicate LocalInv(cfg: Config, s: ReplicaState)
    requires cfg.Valid()
  {
    CertsOk(cfg, s) && PsetOk(cfg, s) && QsetOk(cfg, s) && StoresOk(cfg, s) && ActiveOk(cfg, s)
  }

  // ------------------------------------------------------ growth of a state

  ghost predicate CertGrows(c: Cert, c': Cert) {
    && (c.prePrepare.Some? ==> c'.prePrepare.Some? && c'.prePrepare.value.digest == c.prePrepare.value.digest)
    && (c.sentPrepare ==> c'.sentPrepare)
    && c.prepare <= c'.prepare
  }

  /** Nothing above the low watermark is lost; the view and its new-view stay. */
  ghost predicate Grows(s: ReplicaState, s': ReplicaState) {
    && s'.id == s.id && s'.view == s.view && s'.activeView == s.activeView
    && s'.h >= s.h && s'.seqNo >= s.seqNo
    && (s.view in s.newViewStore ==> s.view in s'.newViewStore && s'.newViewStore[s.view] == s.newViewStore[s.view])
    && (forall idx | idx in s.certStore && idx.n > s'.h ::
          idx in s'.certStore && CertGrows(s.certStore[idx], s'.certStore[idx]))
    && (forall n | n in s.pset && n > s'.h :: n in s'.pset)
    && (forall n | n in s'.pset :: n in s.pset && s'.pset[n] == s.pset[n])
    && (forall k | k in s'.qset :: k in s.qset && s'.qset[k] == s.qset[k])
  }

  lemma EnteredWithStays(cfg: Config, s: ReplicaState, s': ReplicaState, cp: StableId)
    requires cfg.Valid() && EnteredWith(cfg, s, cp) && Grows(s, s') && CertsOk(cfg, s')
    ensures EnteredWith(cfg, s', cp)
  {
    var nv := s.newViewStore[s.view];
    forall k | k in nv.xset
      ensures k <= s'.seqNo && (k <= s'.h || CertProposes(GetCert(s', s.view, k), s.view, k, nv.xset[k]))
    {
      if k > s'.h {
        assert MsgID(s.view, k) in s.certStore;
        assert CertOk(cfg, s', MsgID(s.view, k), s'.certStore[MsgID(s.view, k)]);
      }
    }
  }

  lemma EnteredWithGrows(cfg: Config, s: ReplicaState, s': ReplicaState)
    requires cfg.Valid() && ActiveOk(cfg, s) && Grows(s, s') && CertsOk(cfg, s')
    ensures ActiveOk(cfg, s')
  {
    if s.activeView && s.view > 0 {
      var cp :| EnteredWith(cfg, s, cp);
      EnteredWithStays(cfg, s, s', cp);
    }
  }

  lemma MoveWatermarksKeeps(cfg: Config, s: ReplicaState, h: nat)
    requires cfg.Valid() && LocalInv(cfg, s) && h >= s.h
    ensures LocalInv(cfg, MoveWatermarks(s, h)) && Grows(s, MoveWatermarks(s, h))
  {
    var s' := MoveWatermarks(s, h);
    forall idx | idx in s'.certStore ensures CertOk(cfg, s', idx, s'.certStore[idx]) {
      assert CertOk(cfg, s, idx, s.certStore[idx]);
    }
    EnteredWithGrows(cfg, s, s');
  }

  /** The effect of an action that touches a single certificate. */
  lemma CertUpdateKeeps(cfg: Config, s: ReplicaState, v: nat, n: nat, c: Cert)
    requires cfg.Valid() && LocalInv(cfg, s)
    requires CertOk(cfg, s, MsgID(v, n), c) && CertGrows(GetCert(s, v, n), c)
    ensures LocalInv(cfg, WithCert(s, v, n, c)) && Grows(s, WithCert(s, v, n, c))
  {
    var s' := WithCert(s, v, n, c);
    forall idx | idx in s'.certStore ensures CertOk(cfg, s', idx, s'.certStore[idx]) {
      if idx != MsgID(v, n) { assert CertOk(cfg, s, idx, s.certStore[idx]); }
    }
    EnteredWithGrows(cfg, s, s');
  }

  /** A change of fields the invariant does not mention. */
  ghost predicate SameCore(s: ReplicaState, s': ReplicaState) {
    && s'.id == s.id && s'.view == s.view && s'.activeView == s.activeView && s'.h == s.h && s'.seqNo == s.seqNo
    && s'.certStore == s.certStore && s'.pset == s.pset && s'.qset == s.qset
    && s'.newViewStore == s.newViewStore && s'.viewChangeStore == s.viewChangeStore
  }

  lemma SameCoreKeeps(cfg: Config, s: ReplicaState, s': ReplicaState)
    requires cfg.Valid() && LocalInv(cfg, s) && SameCore(s, s')
    ensures LocalInv(cfg, s') && Grows(s, s')
  {
    forall idx | idx in s'.certStore ensures CertOk(cfg, s', idx, s'.certStore[idx]) {
      assert CertOk(cfg, s, idx, s.certStore[idx]);
    }
    EnteredWithGrows(cfg, s, s');
  }

  lemma GetCertOk(cfg: Config, s: ReplicaState, v: nat, n: nat)
    requires cfg.Valid() && CertsOk(cfg, s) && InWV(cfg, s, v, n)
    ensures CertOk(cfg, s, MsgID(v, n), GetCert(s, v, n))
  {
  }

  lemma GrowsTwice(s: ReplicaState, s1: ReplicaState, s2: ReplicaState)
    requires Grows(s, s1) && Grows(s1, s2)
    ensures Grows(s, s2)
  {
  }

  lemma RaiseSeqNoKeeps(cfg: Config, s: ReplicaState, n: nat)
    requires cfg.Valid() && LocalInv(cfg, s) && n >= s.seqNo
    ensures LocalInv(cfg, s.(seqNo := n)) && Grows(s, s.(seqNo := n))
  {
    var s' := s.(seqNo := n);
    forall idx | idx in s'.certStore ensures CertOk(cfg, s', idx, s'.certStore[idx]) {
      assert CertOk(cfg, s, idx, s.certStore[idx]);
    }
    EnteredWithGrows(cfg, s, s');
  }

  lemma ProposeKeeps(cfg: Config, s: ReplicaState, req: Request)
    requires cfg.Valid() && LocalInv(cfg, s) && CanPropose(cfg, s, req)
    ensures LocalInv(cfg, Propose(s, req)) && Grows(s, Propose(s, req))
    ensures GetCert(s, s.view, s.seqNo + 1).prePrepare.None?
  {
    var n := s.seqNo + 1;
    GetCertOk(cfg, s, s.view, n);
    RaiseSeqNoKeeps(cfg, s, n);
    var s1 := s.(seqNo := n);
    CertUpdateKeeps(cfg, s1, s.view, n, GetCert(s, s.view, n).(prePrepare := Some(ProposalFor(s, req))));
    GrowsTwice(s, s1, Propose(s, req));
  }

  lemma StoreNewViewKeeps(cfg: Config, s: ReplicaState, nv: NewView)
    requires cfg.Valid() && LocalInv(cfg, s) && nv.view !in s.newViewStore && cfg.Primary(nv.view) == nv.replicaId
    ensures LocalInv(cfg, StoreNewView(s, nv)) && Grows(s, StoreNewView(s, nv))
  {
    var s' := StoreNewView(s, nv);
    forall idx | idx in s'.certStore ensures CertOk(cfg, s', idx, s'.certStore[idx]) {
      assert CertOk(cfg, s, idx, s.certStore[idx]);
    }
    EnteredWithGrows(cfg, s, s');
  }

  lemma StoreViewChangeKeeps(cfg: Config, s: ReplicaState, vc: ViewChange)
    requires cfg.Valid() && LocalInv(cfg, s) && CanStoreViewChange(cfg, s, vc)
    ensures LocalInv(cfg, StoreViewChange(s, vc)) && Grows(s, StoreViewChange(s, vc))
  {
    var s' := StoreViewChange(s, vc);
    forall idx | idx in s'.certStore ensures CertOk(cfg, s', idx, s'.certStore[idx]) {
      assert CertOk(cfg, s, idx, s.certStore[idx]);
    }
    EnteredWithGrows(cfg, s, s');
  }

  lemma SendViewChangeKeeps(cfg: Config, s: ReplicaState, target: nat)
    requires cfg.Valid() && LocalInv(cfg, s) && target > s.view
    ensures LocalInv(cfg, SendViewChange(cfg, s, target))
    ensures SendViewChange(cfg, s, target).certStore == map[]
  {
    var s' := SendViewChange(cfg, s, target);
    forall idx | idx in s.certStore ensures idx.v == s.view {
      assert CertOk(cfg, s, idx, s.certStore[idx]);
    }
    forall n | n in s'.pset ensures s'.pset[n].seqNo == n && s'.pset[n].view < target && n <= s'.h + cfg.L {
      if EntersP(cfg, s, n) {
        assert CertOk(cfg, s, MsgID(s.view, n), s.certStore[MsgID(s.view, n)]);
      }
    }
    forall k | k in s'.qset
      ensures s'.qset[k].seqNo == k.n && s'.qset[k].digest == k.d && s'.qset[k].view < target && k.n <= s'.h + cfg.L
    {
      if EntersQ(s, k) {
        assert CertOk(cfg, s, MsgID(s.view, k.n), s.certStore[MsgID(s.view, k.n)]);
      }
    }
  }

  lemma AssignmentKeys(cfg: Config, vset: seq<ViewChange>, h: nat, x: map<nat, Digest>)
    requires Assignment(cfg, vset, h) == Some(x)
    ensures forall n | n in x :: h < n <= h + cfg.L
  {
  }

  lemma EnterViewCerts(cfg: Config, s: ReplicaState, cp: StableId)
    requires cfg.Valid() && CertsOk(cfg, s) && Checked(cfg, s, cp) && s.h >= cp.seqNo
    ensures CertsOk(cfg, EnterView(cfg, s))
    ensures var x := s.newViewStore[s.view].xset;
            forall k | k in x ::
              && k <= EnterView(cfg, s).seqNo && MsgID(s.view, k) in EnterView(cfg, s).certStore
              && EnterView(cfg, s).certStore[MsgID(s.view, k)] == NewViewCert(cfg, s, k, x[k])
  {
    var s' := EnterView(cfg, s);
    var x := s.newViewStore[s.view].xset;
    AssignmentKeys(cfg, s.newViewStore[s.view].vset, cp.seqNo, x);
    forall idx | idx in s'.certStore ensures CertOk(cfg, s', idx, s'.certStore[idx]) {
      if idx in s.certStore { assert CertOk(cfg, s, idx, s.certStore[idx]); }
    }
  }

  lemma EnterViewKeeps(cfg: Config, s: ReplicaState, cp: StableId)
    requires cfg.Valid() && LocalInv(cfg, s) && Checked(cfg, s, cp) && s.h >= cp.seqNo
    ensures LocalInv(cfg, EnterView(cfg, s))
    ensures EnteredWith(cfg, EnterView(cfg, s), cp)
  {
    EnterViewCerts(cfg, s, cp);
    var s' := EnterView(cfg, s);
    var x := s.newViewStore[s.view].xset;
    assert s'.newViewStore[s.view] == s.newViewStore[s.view];
    forall k | k in x ensures CertProposes(GetCert(s', s.view, k), s.view, k, x[k]) {
      assert GetCert(s', s.view, k) == NewViewCert(cfg, s, k, x[k]);
    }
    assert EnteredWith(cfg, s', cp);
  }

  // ------------------------------------------------------------ every action

  ghost predicate ChangesView(a: Action) { a.ASendViewChange? || a.AEnterView? }

  ghost predicate OnCertificate(a: Action) {
    a.APropose? || a.AAcceptPrePrepare? || a.ASendPrepare? || a.AAddPrepare? || a.ASendCommit? || a.AAddCommit?
  }

  lemma ProposalActionKeeps(cfg: Config, s: ReplicaState, a: Action)
    requires cfg.Valid() && LocalInv(cfg, s) && Enabled(cfg, s, a) && InputOk(s, a)
    requires a.APropose? || a.AAcceptPrePrepare?
    ensures LocalInv(cfg, Apply(cfg, s, a)) && Grows(s, Apply(cfg, s, a))
  {
    if a.APropose? {
      ProposeKeeps(cfg, s, a.req);
    } else {
      GetCertOk(cfg, s, a.pp.view, a.pp.seqNo);
      CertUpdateKeeps(cfg, s, a.pp.view, a.pp.seqNo, GetCert(s, a.pp.view, a.pp.seqNo).(prePrepare := Some(a.pp)));
    }
  }

  lemma AddPrepareKeeps(cfg: Config, s: ReplicaState, p: Prepare)
    requires cfg.Valid() && LocalInv(cfg, s) && CanAddPrepare(cfg, s, p)
    ensures LocalInv(cfg, AddPrepare(s, p)) && Grows(s, AddPrepare(s, p))
  {
    GetCertOk(cfg, s, p.view, p.seqNo);
    var c := GetCert(s, p.view, p.seqNo);
    CertUpdateKeeps(cfg, s, p.view, p.seqNo, c.(prepare := c.prepare + [p]));
  }

  lemma AddCommitKeeps(cfg: Config, s: ReplicaState, m: Commit)
    requires cfg.Valid() && LocalInv(cfg, s) && CanAddCommit(cfg, s, m)
    ensures LocalInv(cfg, AddCommit(s, m)) && Grows(s, AddCommit(s, m))
  {
    GetCertOk(cfg, s, m.view, m.seqNo);
    var c := GetCert(s, m.view, m.seqNo);
    CertUpdateKeeps(cfg, s, m.view, m.seqNo, c.(commit := c.commit + [m]));
  }

  lemma FlagKeeps(cfg: Config, s: ReplicaState, v: nat, n: nat)
    requires cfg.Valid() && LocalInv(cfg, s) && InWV(cfg, s, v, n)
    ensures LocalInv(cfg, SendPrepare(s, v, n)) && Grows(s, SendPrepare(s, v, n))
    ensures LocalInv(cfg, SendCommit(s, v, n)) && Grows(s, SendCommit(s, v, n))
  {
    GetCertOk(cfg, s, v, n);
    CertUpdateKeeps(cfg, s, v, n, GetCert(s, v, n).(sentPrepare := true));
    CertUpdateKeeps(cfg, s, v, n, GetCert(s, v, n).(sentCommit := true));
  }

  lemma CertificateActionKeeps(cfg: Config, s: ReplicaState, a: Action)
    requires cfg.Valid() && LocalInv(cfg, s) && Enabled(cfg, s, a) && InputOk(s, a) && OnCertificate(a)
    ensures LocalInv(cfg, Apply(cfg, s, a)) && Grows(s, Apply(cfg, s, a))
  {
    if a.APropose? || a.AAcceptPrePrepare? {
      ProposalActionKeeps(cfg, s, a);
    } else if a.AAddPrepare? {
      AddPrepareKeeps(cfg, s, a.p);
    } else if a.AAddCommit? {
      AddCommitKeeps(cfg, s, a.c);
    } else {
      FlagKeeps(cfg, s, a.v, a.n);
    }
  }

  ghost predicate OnWatermark(a: Action) {
    a.AFallBehind? || a.AWeakSkip? || a.AStabilize? || a.ACleanUp? || a.ASkipToBase?
  }

  lemma JumpKeeps(cfg: Config, s: ReplicaState, h: nat, s': ReplicaState)
    requires cfg.Valid() && LocalInv(cfg, s) && h >= s.h && SameCore(MoveWatermarks(s, h), s')
    ensures LocalInv(cfg, s') && Grows(s, s')
  {
    MoveWatermarksKeeps(cfg, s, h);
    SameCoreKeeps(cfg, MoveWatermarks(s, h), s');
    GrowsTwice(s, MoveWatermarks(s, h), s');
  }

  lemma FallBehindCore(s: ReplicaState, m: nat)
    ensures SameCore(MoveWatermarks(s, m), FallBehind(s, m))
    ensures FallBehind(s, m).checkpointStore == MoveWatermarks(s, m).checkpointStore
  {
  }

  ghost function WatermarkOf(a: Action): nat
    requires OnWatermark(a)
  {
    if a.AFallBehind? then a.m else if a.ASkipToBase? then a.cp.seqNo else a.n
  }

  /** All ways to move the watermark raise it or leave it, and agree with moveWatermarks on
      what the invariants speak of. */
  lemma WatermarkCore(cfg: Config, s: ReplicaState, a: Action)
    requires cfg.Valid() && Enabled(cfg, s, a) && OnWatermark(a)
    ensures WatermarkOf(a) >= s.h && SameCore(MoveWatermarks(s, WatermarkOf(a)), Apply(cfg, s, a))
    ensures Apply(cfg, s, a).checkpointStore == MoveWatermarks(s, WatermarkOf(a)).checkpointStore
    ensures Apply(cfg, s, a).hChkpts == s.hChkpts
  {
    var s' := Apply(cfg, s, a);
    if a.AFallBehind? {
      assert s' == FallBehind(s, a.m);
      FallBehindCore(s, a.m);
    } else if a.AWeakSkip? {
      assert s' == WeakSkip(s, a.n);
    } else if a.ASkipToBase? {
      assert s' == MoveWatermarks(s, a.cp.seqNo);
    } else {
      assert s' == MoveWatermarks(s, a.n);
    }
  }

  lemma WatermarkActionKeeps(cfg: Config, s: ReplicaState, a: Action)
    requires cfg.Valid() && LocalInv(cfg, s) && Enabled(cfg, s, a) && OnWatermark(a)
    ensures LocalInv(cfg, Apply(cfg, s, a)) && Grows(s, Apply(cfg, s, a))
  {
    WatermarkCore(cfg, s, a);
    JumpKeeps(cfg, s, WatermarkOf(a), Apply(cfg, s, a));
  }

  lemma OtherActionKeeps(cfg: Config, s: ReplicaState, a: Action)
    requires cfg.Valid() && LocalInv(cfg, s) && Enabled(cfg, s, a)
    requires !OnCertificate(a) && !OnWatermark(a) && !ChangesView(a)
    ensures LocalInv(cfg, Apply(cfg, s, a)) && Grows(s, Apply(cfg, s, a))
  {
    if a.AStoreViewChange? {
      StoreViewChangeKeeps(cfg, s, a.vc);
    } else if a.ASendNewView? || a.AStoreNewView? {
      StoreNewViewKeeps(cfg, s, a.nv);
    } else {
      SameCoreKeeps(cfg, s, Apply(cfg, s, a));
    }
  }

  lemma ViewActionKeeps(cfg: Config, s: ReplicaState, a: Action)
    requires cfg.Valid() && LocalInv(cfg, s) && Enabled(cfg, s, a) && ChangesView(a)
    ensures LocalInv(cfg, Apply(cfg, s, a)) && Advances(s, Apply(cfg, s, a))
    ensures a.ASendViewChange? ==> Apply(cfg, s, a).view > s.view
  {
    if a.ASendViewChange? {
      SendViewChangeKeeps(cfg, s, a.vc.view);
    } else {
      EnterViewKeeps(cfg, s, a.cp);
    }
  }

  /** The low watermark, the view and the sequence number never go back. */
  ghost predicate Advances(s: ReplicaState, s': ReplicaState) {
    s'.id == s.id && s'.h >= s.h && s'.view >= s.view && s'.seqNo >= s.seqNo
  }

  lemma GrowsAdvances(s: ReplicaState, s': ReplicaState)
    requires Grows(s, s')
    ensures Advances(s, s')
  {
  }

  /** Every action keeps the invariant and never lowers the low watermark, the view
      or the sequence number; a view-change raises the view; and nothing above the
      watermark is lost unless the view changes. */
  lemma ActionKeeps(cfg: Config, s: ReplicaState, a: Action)
    requires cfg.Valid() && LocalInv(cfg, s) && Enabled(cfg, s, a) && InputOk(s, a)
    ensures LocalInv(cfg, Apply(cfg, s, a)) && Advances(s, Apply(cfg, s, a))
    ensures a.ASendViewChange? ==> Apply(cfg, s, a).view > s.view
    ensures !ChangesView(a) ==> Grows(s, Apply(cfg, s, a))
  {
    if ChangesView(a) {
      ViewActionKeeps(cfg, s, a);
    } else {
      if OnCertificate(a) {
        CertificateActionKeeps(cfg, s, a);
      } else if OnWatermark(a) {
        WatermarkActionKeeps(cfg, s, a);
      } else {
        OtherActionKeeps(cfg, s, a);
      }
      GrowsAdvances(s, Apply(cfg, s, a));
    }
  }
}
