/** Entering and leaving views: when a number of an entered view is prepared without a commit being
    sent, and when a replica refuses its own view-change. */
module EnteringViews {
  import opened PbftTypes
  import opened ReplicaModel
  import opened ReplicaInvariant
  import opened ReplicaLog

  // ------------------------------------------- prepared, but no commit is sent

  /** Prepares for the X entry of n that are held right after the view is entered: the stored ones
      and, at a backup, its own. */
  function HeldPrepares(cfg: Config, s: ReplicaState, n: nat, d: Digest): nat
    requires cfg.Valid()
  {
    PrepareCount(GetCert(s, s.view, n).prepare, s.view, n, d) + if cfg.Primary(s.view) == s.id then 0 else 1
  }

  ghost predicate PreparedUnsent(cfg: Config, s: ReplicaState, n: nat, d: Digest) {
    Prepared(cfg, s, d, s.view, n) && !GetCert(s, s.view, n).sentCommit
  }

  lemma CountOwn(ps: seq<Prepare>, p: Prepare, v: nat, n: nat, d: Digest)
    requires p.view == v && p.seqNo == n && p.digest == d
    ensures PrepareCount(ps + [p], v, n, d) == PrepareCount(ps, v, n, d) + 1
  {
    assert (ps + [p])[..|ps|] == ps;
  }

  /** In the current view only the certificate decides. */
  lemma PreparedByCert(cfg: Config, s: ReplicaState, n: nat, d: Digest)
    requires PsetOk(cfg, s) && MsgID(s.view, n) in s.certStore && CertProposes(GetCert(s, s.view, n), s.view, n, d)
    ensures Prepared(cfg, s, d, s.view, n) <==>
            (d == Null || d in s.reqStore) && PrepareCount(GetCert(s, s.view, n).prepare, s.view, n, d) + 1 >= cfg.IntersectionQuorum()
  {
  }

  lemma EnteredCert(cfg: Config, s: ReplicaState, cp: StableId, n: nat)
    requires cfg.Valid() && LocalInv(cfg, s) && Checked(cfg, s, cp) && s.h >= cp.seqNo && n in s.newViewStore[s.view].xset
    ensures var d, s' := s.newViewStore[s.view].xset[n], EnterView(cfg, s);
            && MsgID(s.view, n) in s'.certStore && GetCert(s', s.view, n) == NewViewCert(cfg, s, n, d)
            && s'.view == s.view && s'.reqStore == s.reqStore && PsetOk(cfg, s')
  {
    EnterViewCerts(cfg, s, cp);
  }

  lemma NewViewCertCount(cfg: Config, s: ReplicaState, n: nat, d: Digest)
    requires cfg.Valid()
    ensures PrepareCount(NewViewCert(cfg, s, n, d).prepare, s.view, n, d) == HeldPrepares(cfg, s, n, d)
    ensures NewViewCert(cfg, s, n, d).sentCommit == GetCert(s, s.view, n).sentCommit
    ensures CertProposes(NewViewCert(cfg, s, n, d), s.view, n, d)
  {
    CountOwn(GetCert(s, s.view, n).prepare, Prepare(s.view, n, d, s.id), s.view, n, d);
  }

  /** processNewView2 stores the proposals and a backup's own prepares without looking whether they
      complete a prepared certificate, and the own prepare comes back as a duplicate. So a number of
      the view is prepared with no commit sent if and only if its request is known and the prepares
      held make a quorum already. */
  lemma EnteredUnsentIff(cfg: Config, s: ReplicaState, cp: StableId, n: nat)
    requires cfg.Valid() && LocalInv(cfg, s) && Checked(cfg, s, cp) && s.h >= cp.seqNo && n in s.newViewStore[s.view].xset
    ensures var d := s.newViewStore[s.view].xset[n];
            PreparedUnsent(cfg, EnterView(cfg, s), n, d) <==>
            && (d == Null || d in s.reqStore) && !GetCert(s, s.view, n).sentCommit
            && HeldPrepares(cfg, s, n, d) + 1 >= cfg.IntersectionQuorum()
  {
    var d := s.newViewStore[s.view].xset[n];
    EnteredCert(cfg, s, cp, n);
    NewViewCertCount(cfg, s, n, d);
    PreparedByCert(cfg, EnterView(cfg, s), n, d);
  }

  /** What the replica is waiting for then: the commit is sent once a further prepare for the
      number is taken in, exactly if that is for the same digest. */
  lemma FurtherPrepareCommits(cfg: Config, s: ReplicaState, n: nat, d: Digest, p: Prepare)
    requires cfg.Valid() && LocalInv(cfg, s) && PreparedUnsent(cfg, s, n, d) && CertProposes(GetCert(s, s.view, n), s.view, n, d)
    requires CanAddPrepare(cfg, s, p) && p.view == s.view && p.seqNo == n
    ensures GetCert(WithPrepare(cfg, s, p), s.view, n).sentCommit <==> p.digest == d
  {
    var c := GetCert(s, s.view, n);
    var t := AddPrepare(s, p);
    assert GetCert(t, s.view, n) == c.(prepare := c.prepare + [p]);
    assert (c.prepare + [p])[..|c.prepare|] == c.prepare;
    if p.digest == d {
      assert Prepared(cfg, t, d, s.view, n);
      CommitSent(cfg, t, d, s.view, n);
    } else {
      assert !PrePrepared(t, p.digest, s.view, n);
    }
  }

  // -------------------------------------------------- one's own view-change

  /** What a replica that leaves its view lists lies within its window. */
  ghost predicate Presentable(cfg: Config, s: ReplicaState) {
    && AllAbove(s.pset, s.qset, s.h)
    && (forall idx | idx in s.certStore && idx.n <= s.h :: !Reportable(s, s.certStore[idx]))
    && ChkptsWithin(cfg, s)
  }

  ghost predicate ChkptsWithin(cfg: Config, s: ReplicaState) { forall n | n in s.chkpts :: s.h <= n <= s.h + cfg.L }

  /** The certificate holds a proposal whose request is known. */
  predicate Reportable(s: ReplicaState, c: Cert) {
    c.prePrepare.Some? && (c.prePrepare.value.digest == Null || c.prePrepare.value.digest in s.reqStore)
  }

  lemma ListedInP(cfg: Config, s: ReplicaState, n: nat)
    requires cfg.Valid() && LocalInv(cfg, s) && n in NextPset(cfg, s)
    ensures NextPset(cfg, s)[n].seqNo == n && NextPset(cfg, s)[n].view <= s.view && n <= s.h + cfg.L
    ensures n in s.pset || (MsgID(s.view, n) in s.certStore && Reportable(s, s.certStore[MsgID(s.view, n)]))
  {
    if EntersP(cfg, s, n) {
      assert CertOk(cfg, s, MsgID(s.view, n), s.certStore[MsgID(s.view, n)]);
    }
  }

  lemma ListedInQ(cfg: Config, s: ReplicaState, k: QIdx)
    requires cfg.Valid() && LocalInv(cfg, s) && k in NextQset(s)
    ensures NextQset(s)[k].seqNo == k.n && NextQset(s)[k].view <= s.view && k.n <= s.h + cfg.L
    ensures k in s.qset || (MsgID(s.view, k.n) in s.certStore && Reportable(s, s.certStore[MsgID(s.view, k.n)]))
  {
    if EntersQ(s, k) {
      assert CertOk(cfg, s, MsgID(s.view, k.n), s.certStore[MsgID(s.view, k.n)]);
    }
  }

  /** A reportable proposal gets into Q. */
  lemma ReportableListed(cfg: Config, s: ReplicaState, idx: MsgID)
    requires cfg.Valid() && LocalInv(cfg, s) && idx in s.certStore && Reportable(s, s.certStore[idx])
    ensures QIdx(s.certStore[idx].prePrepare.value.digest, idx.n) in NextQset(s)
  {
    assert CertOk(cfg, s, idx, s.certStore[idx]);
    assert idx == MsgID(s.view, idx.n) && GetCert(s, s.view, idx.n) == s.certStore[idx];
    assert EntersQ(s, QIdx(s.certStore[idx].prePrepare.value.digest, idx.n));
  }

  /** All that is listed lies above the watermark. */
  ghost predicate ListedAbove(cfg: Config, s: ReplicaState) { AllAbove(NextPset(cfg, s), NextQset(s), s.h) }

  ghost predicate AllAbove(pset: map<nat, PQ>, qset: map<QIdx, PQ>, h: nat) {
    (forall n | n in pset :: n > h) && (forall k | k in qset :: k.n > h)
  }

  lemma ListedAboveIff(cfg: Config, s: ReplicaState)
    requires cfg.Valid() && LocalInv(cfg, s)
    ensures ListedAbove(cfg, s) <==>
            && AllAbove(s.pset, s.qset, s.h)
            && forall idx | idx in s.certStore && idx.n <= s.h :: !Reportable(s, s.certStore[idx])
  {
    if ListedAbove(cfg, s) {
      forall n | n in s.pset ensures n > s.h { assert n in NextPset(cfg, s); }
      forall k | k in s.qset ensures k.n > s.h { assert k in NextQset(s); }
      forall idx | idx in s.certStore && idx.n <= s.h ensures !Reportable(s, s.certStore[idx]) {
        if Reportable(s, s.certStore[idx]) { ReportableListed(cfg, s, idx); }
      }
    } else {
      if n :| n in NextPset(cfg, s) && n <= s.h {
        ListedInP(cfg, s, n);
      } else {
        var k :| k in NextQset(s) && k.n <= s.h;
        ListedInQ(cfg, s, k);
      }
    }
  }

  /** The entries are filed under their numbers, are of earlier views, and do not exceed the window. */
  ghost predicate FiledBelow(cfg: Config, s: ReplicaState) {
    && (forall n | n in s.pset :: s.pset[n].seqNo == n && s.pset[n].view < s.view && n <= s.h + cfg.L)
    && (forall k | k in s.qset :: s.qset[k].seqNo == k.n && s.qset[k].view < s.view && k.n <= s.h + cfg.L)
  }

  lemma CorrectIff(cfg: Config, s: ReplicaState, vc: ViewChange)
    requires FiledBelow(cfg, s) && Announces(s, vc)
    ensures CorrectViewChange(cfg, vc) <==> AllAbove(s.pset, s.qset, s.h) && ChkptsWithin(cfg, s)
  {
    if CorrectViewChange(cfg, vc) {
      forall n | n in s.pset ensures n > s.h { assert s.pset[n] in vc.pset + vc.qset; }
      forall k | k in s.qset ensures k.n > s.h { assert s.qset[k] in vc.pset + vc.qset; }
      forall n | n in s.chkpts ensures s.h <= n <= s.h + cfg.L { assert StableId(n, s.chkpts[n]) in vc.cset; }
    }
  }

  lemma LeavingFiles(cfg: Config, s: ReplicaState, target: nat)
    requires cfg.Valid() && LocalInv(cfg, s) && target > s.view
    ensures FiledBelow(cfg, SendViewChange(cfg, s, target))
  {
    var left := SendViewChange(cfg, s, target);
    forall n | n in left.pset ensures left.pset[n].seqNo == n && left.pset[n].view < target && n <= s.h + cfg.L {
      ListedInP(cfg, s, n);
    }
    forall k | k in left.qset ensures left.qset[k].seqNo == k.n && left.qset[k].view < target && k.n <= s.h + cfg.L {
      ListedInQ(cfg, s, k);
    }
  }

  lemma LeavingLists(cfg: Config, s: ReplicaState, target: nat)
    requires target > s.view
    ensures var left := SendViewChange(cfg, s, target);
            left.pset == NextPset(cfg, s) && left.qset == NextQset(s) && left.h == s.h && left.chkpts == s.chkpts
  {
  }

  /** A replica's own view-change is acceptable, to itself and to others, if and only if everything
      it lists lies within its window. */
  lemma OwnViewChangeIff(cfg: Config, s: ReplicaState, target: nat, vc: ViewChange)
    requires cfg.Valid() && LocalInv(cfg, s) && target > s.view && Announces(SendViewChange(cfg, s, target), vc)
    ensures CorrectViewChange(cfg, vc) <==> Presentable(cfg, s)
  {
    AnnouncedIff(cfg, s, target, vc);
    PresentableIff(cfg, s);
  }

  lemma PresentableIff(cfg: Config, s: ReplicaState)
    requires cfg.Valid() && LocalInv(cfg, s)
    ensures Presentable(cfg, s) <==> ListedAbove(cfg, s) && ChkptsWithin(cfg, s)
  {
    ListedAboveIff(cfg, s);
  }

  lemma AnnouncedIff(cfg: Config, s: ReplicaState, target: nat, vc: ViewChange)
    requires cfg.Valid() && LocalInv(cfg, s) && target > s.view && Announces(SendViewChange(cfg, s, target), vc)
    ensures CorrectViewChange(cfg, vc) <==> ListedAbove(cfg, s) && ChkptsWithin(cfg, s)
  {
    LeavingFiles(cfg, s, target);
    LeavingLists(cfg, s, target);
    CorrectIff(cfg, SendViewChange(cfg, s, target), vc);
  }

  // ---------------------------------------- how something gets below the window

  ghost predicate NothingBelow(s: ReplicaState) {
    AllAbove(s.pset, s.qset, s.h) && forall idx | idx in s.certStore :: idx.n > s.h
  }

  /** Entering a view brings something below the window exactly if its X set reaches there. */
  lemma EnteringGoesBelowIff(cfg: Config, s: ReplicaState)
    requires cfg.Valid() && s.view in s.newViewStore && NothingBelow(s)
    ensures NothingBelow(EnterView(cfg, s)) <==> forall n | n in s.newViewStore[s.view].xset :: n > s.h
  {
    var s', x := EnterView(cfg, s), s.newViewStore[s.view].xset;
    forall n | n in x ensures MsgID(s.view, n) in s'.certStore {
    }
    if forall n | n in x :: n > s.h {
      forall idx | idx in s'.certStore ensures idx.n > s.h {
        if idx !in s.certStore { assert exists n :: n in x && idx == MsgID(s.view, n); }
      }
    }
  }

  lemma CertificateStaysAbove(cfg: Config, s: ReplicaState, a: Action)
    requires cfg.Valid() && Enabled(cfg, s, a) && NothingBelow(s) && OnCertificate(a)
    ensures NothingBelow(Apply(cfg, s, a))
  {
  }

  lemma LeavingStaysAbove(cfg: Config, s: ReplicaState, target: nat)
    requires cfg.Valid() && LocalInv(cfg, s) && target > s.view && NothingBelow(s)
    ensures NothingBelow(SendViewChange(cfg, s, target))
  {
    ListedAboveIff(cfg, s);
    LeavingLists(cfg, s, target);
  }

  /** Nothing else does. */
  lemma OnlyEnteringGoesBelow(cfg: Config, s: ReplicaState, a: Action)
    requires cfg.Valid() && LocalInv(cfg, s) && Enabled(cfg, s, a) && NothingBelow(s) && !a.AEnterView?
    ensures NothingBelow(Apply(cfg, s, a))
  {
    if OnWatermark(a) {
      WatermarkCore(cfg, s, a);
    } else if OnCertificate(a) {
      CertificateStaysAbove(cfg, s, a);
    } else if a.ASendViewChange? {
      LeavingStaysAbove(cfg, s, a.vc.view);
    } else {
      var s' := Apply(cfg, s, a);
      assert s'.certStore == s.certStore && s'.pset == s.pset && s'.qset == s.qset && s'.h == s.h;
    }
  }

  /** So a replica that is ahead of the view it enters, and then leaves that view with the request of
      such a number still known, sends a view-change that nobody accepts, not even itself. */
  lemma AheadOfViewRefused(cfg: Config, s: ReplicaState, s': ReplicaState, cp: StableId, n: nat, target: nat, vc: ViewChange)
    requires cfg.Valid() && LocalInv(cfg, s) && Checked(cfg, s, cp) && s.h >= cp.seqNo && s' == EnterView(cfg, s)
    requires var x := s.newViewStore[s.view].xset; n in x && n <= s.h && (x[n] == Null || x[n] in s.reqStore)
    requires target > s'.view && Announces(SendViewChange(cfg, s', target), vc)
    ensures !CorrectViewChange(cfg, vc)
  {
    EnterViewKeeps(cfg, s, cp);
    EnteredCert(cfg, s, cp, n);
    OwnViewChangeIff(cfg, s', target, vc);
    assert Reportable(s', s'.certStore[MsgID(s.view, n)]);
  }
}
