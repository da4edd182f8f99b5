/** When the requests behind proposals are still stored, which is what P and Q depend on. */
module RetainedRequests {
  import opened PbftTypes
  import opened ReplicaModel
  import opened ReplicaInvariant

  /** The certificate of (view, n) holds a proposal of d and enough prepares for it. */
  ghost predicate HasPrepareQuorum(cfg: Config, s: ReplicaState, n: nat, d: Digest) {
    && MsgID(s.view, n) in s.certStore && CertProposes(s.certStore[MsgID(s.view, n)], s.view, n, d)
    && PrepareCount(s.certStore[MsgID(s.view, n)].prepare, s.view, n, d) + 1 >= cfg.IntersectionQuorum()
  }

  /** A replica that leaves a view lists in P what it has prepared there if and only if the
      request is still stored. */
  lemma PreparedIffStored(cfg: Config, s: ReplicaState, n: nat, d: Digest)
    requires cfg.Valid() && PsetOk(cfg, s) && HasPrepareQuorum(cfg, s, n, d)
    ensures n in NextPset(cfg, s) && NextPset(cfg, s)[n] == PQ(n, d, s.view) <==> d == Null || d in s.reqStore
  {
    assert GetCert(s, s.view, n) == s.certStore[MsgID(s.view, n)];
    assert EntersP(cfg, s, n) <==> d == Null || d in s.reqStore;
  }

  /** Likewise for Q. */
  lemma PrePreparedIffStored(cfg: Config, s: ReplicaState, n: nat, d: Digest)
    requires cfg.Valid() && QsetOk(cfg, s) && HasPrepareQuorum(cfg, s, n, d)
    ensures QIdx(d, n) in NextQset(s) && NextQset(s)[QIdx(d, n)] == PQ(n, d, s.view) <==> d == Null || d in s.reqStore
  {
    assert GetCert(s, s.view, n) == s.certStore[MsgID(s.view, n)];
    assert EntersQ(s, QIdx(d, n)) <==> d == Null || d in s.reqStore;
  }

  /** A jump of the watermark empties the request store. What is proposed beyond the jump is then
      no longer stored, unless there is nothing but null requests. */
  lemma JumpRetainsIff(s: ReplicaState, m: nat)
    ensures RequestsRetained(FallBehind(s, m)) <==>
            forall idx | idx in s.certStore && idx.n > m && s.certStore[idx].prePrepare.Some? ::
              s.certStore[idx].prePrepare.value.digest == Null
  {
    var t := FallBehind(s, m);
    assert forall idx :: idx in t.certStore <==> idx in s.certStore && idx.n > m;
  }

  predicate Proposes(s: ReplicaState, idx: MsgID, d: Digest) {
    idx in s.certStore && s.certStore[idx].prePrepare.Some? && s.certStore[idx].prePrepare.value.digest == d
  }

  /** The digest is proposed at a number at or below m, in some view. */
  ghost predicate ProposedUpTo(s: ReplicaState, m: nat, d: Digest) {
    exists idx :: Proposes(s, idx, d) && idx.n <= m
  }

  /** An ordinary move of the watermark deletes the requests proposed at or below m. What is proposed
      above m then stays stored if and only if it was stored and is not proposed below as well. */
  lemma MoveRetainsIff(s: ReplicaState, m: nat)
    ensures RequestsRetained(MoveWatermarks(s, m)) <==>
            forall idx, d | Proposes(s, idx, d) && idx.n > m && d != Null :: d in s.reqStore && !ProposedUpTo(s, m, d)
  {
    var t := MoveWatermarks(s, m);
    forall idx: MsgID, d: Digest ensures Proposes(t, idx, d) <==> Proposes(s, idx, d) && idx.n > m {
    }
    forall d: Digest ensures d in t.reqStore <==> d in s.reqStore && !ProposedUpTo(s, m, d) {
      StoredAfterMove(s, m, d);
    }
    RetainedMeans(t);
  }

  lemma StoredAfterMove(s: ReplicaState, m: nat, d: Digest)
    ensures d in MoveWatermarks(s, m).reqStore <==> d in s.reqStore && !ProposedUpTo(s, m, d)
  {
    var gone := set idx | idx in s.certStore && idx.n <= m && s.certStore[idx].prePrepare.Some? ::
                  s.certStore[idx].prePrepare.value.digest;
    assert d in gone <==> ProposedUpTo(s, m, d) by {
      if idx :| Proposes(s, idx, d) && idx.n <= m { assert d in gone; }
      if d in gone {
        var idx :| idx in s.certStore && idx.n <= m && s.certStore[idx].prePrepare.Some? &&
                   s.certStore[idx].prePrepare.value.digest == d;
        assert Proposes(s, idx, d);
      }
    }
  }

  lemma RetainedMeans(s: ReplicaState)
    ensures RequestsRetained(s) <==> forall idx, d | Proposes(s, idx, d) && idx.n > s.h && d != Null :: d in s.reqStore
  {
    if forall idx, d | Proposes(s, idx, d) && idx.n > s.h && d != Null :: d in s.reqStore {
      forall idx | idx in s.certStore && idx.n > s.h && s.certStore[idx].prePrepare.Some?
        ensures var d := s.certStore[idx].prePrepare.value.digest; d == Null || d in s.reqStore
      {
        assert Proposes(s, idx, s.certStore[idx].prePrepare.value.digest);
      }
    }
  }

  /** A replica that has kept its requests so far loses one by moving to m if and only if some
      request is proposed on both sides of m. */
  lemma MoveLosesIff(s: ReplicaState, m: nat)
    requires RequestsRetained(s) && m >= s.h
    ensures !RequestsRetained(MoveWatermarks(s, m)) <==>
            exists idx, d :: Proposes(s, idx, d) && idx.n > m && d != Null && ProposedUpTo(s, m, d)
  {
    MoveRetainsIff(s, m);
    RetainedMeans(s);
  }
}
