/** The loops of the view-change handlers. */
module ReplicaViewChange {
  import opened Common
  import opened PbftTypes
  import opened Quorums
  import opened ReplicaModel
  import opened ReplicaLog

  // ------------------------------------------------------------ P and Q sets

  /** P after the certificates outside `todo` have been taken in. */
  ghost predicate PartlyP(cfg: Config, s: ReplicaState, todo: set<MsgID>, p: map<nat, PQ>) {
    && (forall n :: n in p <==> n in s.pset || (MsgID(s.view, n) !in todo && EntersP(cfg, s, n)))
    && (forall n | n in p ::
          p[n] == if MsgID(s.view, n) !in todo && EntersP(cfg, s, n)
                  then PQ(n, s.certStore[MsgID(s.view, n)].prePrepare.value.digest, s.view) else s.pset[n])
  }

  lemma AllOfP(cfg: Config, s: ReplicaState, p: map<nat, PQ>)
    requires PartlyP(cfg, s, {}, p)
    ensures p == NextPset(cfg, s)
  {
    forall n | EntersP(cfg, s, n) ensures n in s.pset.Keys + (set idx | idx in s.certStore :: idx.n) {
      assert MsgID(s.view, n) in s.certStore && MsgID(s.view, n).n == n;
    }
  }

  /** While P is being filled, `prepared` still sees the old entry of every certificate to come. */
  lemma PreparedMeanwhile(cfg: Config, s: ReplicaState, todo: set<MsgID>, p: map<nat, PQ>, d: Digest, idx: MsgID)
    requires PartlyP(cfg, s, todo, p) && idx in todo && idx.v == s.view
    ensures Prepared(cfg, s.(pset := p), d, idx.v, idx.n) == Prepared(cfg, s, d, idx.v, idx.n)
    ensures idx.n in p <==> idx.n in s.pset
    ensures idx.n in p ==> p[idx.n] == s.pset[idx.n]
  {
    assert MsgID(s.view, idx.n) == idx;
  }

  /** P with the certificate idx taken in. */
  function WithP(s: ReplicaState, p: map<nat, PQ>, idx: MsgID, enters: bool): map<nat, PQ>
    requires enters ==> idx in s.certStore && s.certStore[idx].prePrepare.Some?
  {
    if enters then p[idx.n := PQ(idx.n, s.certStore[idx].prePrepare.value.digest, idx.v)] else p
  }

  lemma OneMoreP(cfg: Config, s: ReplicaState, todo: set<MsgID>, p: map<nat, PQ>, idx: MsgID)
    requires PartlyP(cfg, s, todo, p) && idx in todo && idx.v == s.view
    ensures PartlyP(cfg, s, todo - {idx}, WithP(s, p, idx, EntersP(cfg, s, idx.n)))
  {
    assert MsgID(s.view, idx.n) == idx;
  }

  method EntersPNow(cfg: Config, s: ReplicaState, idx: MsgID) returns (b: bool)
    requires idx in s.certStore && idx.v == s.view
    ensures b == EntersP(cfg, s, idx.n)
  {
    assert MsgID(s.view, idx.n) == idx;
    if s.certStore[idx].prePrepare.None? {
      return false;
    }
    b := PreparedIn(cfg, s, s.certStore[idx].prePrepare.value.digest, idx.v, idx.n);
    if b && idx.n in s.pset && s.pset[idx.n].view > idx.v {
      return false;
    }
  }

  lemma EntersPMeanwhile(cfg: Config, s: ReplicaState, todo: set<MsgID>, p: map<nat, PQ>, idx: MsgID)
    requires PartlyP(cfg, s, todo, p) && idx in todo && idx.v == s.view && idx in s.certStore
    ensures EntersP(cfg, s.(pset := p), idx.n) == EntersP(cfg, s, idx.n)
  {
    var s', c := s.(pset := p), s.certStore[idx];
    assert MsgID(s.view, idx.n) == idx && s'.certStore == s.certStore && s'.view == s.view;
    if c.prePrepare.Some? {
      var d := c.prePrepare.value.digest;
      PreparedMeanwhile(cfg, s, todo, p, d, idx);
      assert Prepared(cfg, s', d, s'.view, idx.n) == Prepared(cfg, s, d, s.view, idx.n);
    }
  }

  /** The loop of sendViewChange that fills P. */
  method CollectP(cfg: Config, s: ReplicaState) returns (p: map<nat, PQ>)
    requires forall idx | idx in s.certStore :: idx.v == s.view
    ensures p == NextPset(cfg, s)
  {
    p := s.pset;
    var todo := s.certStore.Keys;
    while todo != {}
      invariant todo <= s.certStore.Keys && PartlyP(cfg, s, todo, p)
      decreases |todo|
    {
      var idx :| idx in todo;
      EntersPMeanwhile(cfg, s, todo, p, idx);
      OneMoreP(cfg, s, todo, p, idx);
      var enters := EntersPNow(cfg, s.(pset := p), idx);
      if enters {
        p := p[idx.n := PQ(idx.n, s.certStore[idx].prePrepare.value.digest, idx.v)];
      }
      todo := todo - {idx};
    }
    AllOfP(cfg, s, p);
  }

  ghost predicate PartlyQ(s: ReplicaState, todo: set<MsgID>, q: map<QIdx, PQ>) {
    && (forall k :: k in q <==> k in s.qset || (MsgID(s.view, k.n) !in todo && EntersQ(s, k)))
    && (forall k | k in q :: q[k] == if MsgID(s.view, k.n) !in todo && EntersQ(s, k) then PQ(k.n, k.d, s.view) else s.qset[k])
  }

  lemma AllOfQ(s: ReplicaState, q: map<QIdx, PQ>)
    requires PartlyQ(s, {}, q)
    ensures q == NextQset(s)
  {
    forall k | EntersQ(s, k)
      ensures k in s.qset.Keys + (set idx | idx in s.certStore && s.certStore[idx].prePrepare.Some? ::
                                    QIdx(s.certStore[idx].prePrepare.value.digest, idx.n))
    {
      var idx := MsgID(s.view, k.n);
      assert idx in s.certStore && QIdx(s.certStore[idx].prePrepare.value.digest, idx.n) == k;
    }
  }

  lemma EntersQMeanwhile(s: ReplicaState, todo: set<MsgID>, q: map<QIdx, PQ>, k: QIdx)
    requires PartlyQ(s, todo, q) && MsgID(s.view, k.n) in todo
    ensures EntersQ(s.(qset := q), k) == EntersQ(s, k)
  {
  }

  lemma OneMoreQ(s: ReplicaState, todo: set<MsgID>, q: map<QIdx, PQ>, idx: MsgID, q': map<QIdx, PQ>)
    requires PartlyQ(s, todo, q) && idx in todo && idx.v == s.view && idx in s.certStore
    requires if s.certStore[idx].prePrepare.Some?
             then var k := QIdx(s.certStore[idx].prePrepare.value.digest, idx.n);
                  q' == if EntersQ(s, k) then q[k := PQ(idx.n, k.d, idx.v)] else q
             else q' == q
    ensures PartlyQ(s, todo - {idx}, q')
  {
    assert MsgID(s.view, idx.n) == idx;
    forall k: QIdx | k.n != idx.n ensures MsgID(s.view, k.n) != idx {}
  }

  /** The loop of sendViewChange that fills Q. */
  method CollectQ(s: ReplicaState) returns (q: map<QIdx, PQ>)
    requires forall idx | idx in s.certStore :: idx.v == s.view
    ensures q == NextQset(s)
  {
    q := s.qset;
    var todo := s.certStore.Keys;
    while todo != {}
      invariant todo <= s.certStore.Keys && PartlyQ(s, todo, q)
      decreases |todo|
    {
      var idx :| idx in todo;
      ghost var before := q;
      if s.certStore[idx].prePrepare.Some? {
        var d := s.certStore[idx].prePrepare.value.digest;
        var k := QIdx(d, idx.n);
        assert MsgID(s.view, idx.n) == idx;
        EntersQMeanwhile(s, todo, q, k);
        if PrePrepared(s.(qset := q), d, idx.v, idx.n) && !(k in q && q[k].view > idx.v) {
          q := q[k := PQ(idx.n, d, idx.v)];
        }
      }
      OneMoreQ(s, todo, before, idx, q);
      todo := todo - {idx};
    }
    AllOfQ(s, q);
  }

  // ------------------------------------------------------ the message's lists

  method ListC(chkpts: map<nat, string>) returns (cset: seq<StableId>)
    ensures forall c | c in cset :: c.seqNo in chkpts && chkpts[c.seqNo] == c.id
    ensures forall n | n in chkpts :: StableId(n, chkpts[n]) in cset
    ensures |cset| == |chkpts|
  {
    cset := [];
    var todo := chkpts.Keys;
    while todo != {}
      invariant todo <= chkpts.Keys && |cset| + |todo| == |chkpts|
      invariant forall c | c in cset :: c.seqNo in chkpts && chkpts[c.seqNo] == c.id
      invariant forall n | n in chkpts && n !in todo :: StableId(n, chkpts[n]) in cset
      decreases |todo|
    {
      var n :| n in todo;
      cset := cset + [StableId(n, chkpts[n])];
      todo := todo - {n};
    }
  }

  method ListP(pset: map<nat, PQ>) returns (list: seq<PQ>)
    requires forall n | n in pset :: pset[n].seqNo == n
    ensures forall p | p in list :: p.seqNo in pset && pset[p.seqNo] == p
    ensures forall n | n in pset :: pset[n] in list
    ensures |list| == |pset|
  {
    list := [];
    var todo := pset.Keys;
    while todo != {}
      invariant todo <= pset.Keys && |list| + |todo| == |pset|
      invariant forall p | p in list :: p.seqNo in pset && pset[p.seqNo] == p
      invariant forall n | n in pset && n !in todo :: pset[n] in list
      decreases |todo|
    {
      var n :| n in todo;
      list := list + [pset[n]];
      todo := todo - {n};
    }
  }

  method ListQ(qset: map<QIdx, PQ>) returns (list: seq<PQ>)
    requires forall k | k in qset :: qset[k].seqNo == k.n && qset[k].digest == k.d
    ensures forall q | q in list :: QIdx(q.digest, q.seqNo) in qset && qset[QIdx(q.digest, q.seqNo)] == q
    ensures forall k | k in qset :: qset[k] in list
    ensures |list| == |qset|
  {
    list := [];
    var todo := qset.Keys;
    while todo != {}
      invariant todo <= qset.Keys && |list| + |todo| == |qset|
      invariant forall q | q in list :: QIdx(q.digest, q.seqNo) in qset && qset[QIdx(q.digest, q.seqNo)] == q
      invariant forall k | k in qset && k !in todo :: qset[k] in list
      decreases |todo|
    {
      var k :| k in todo;
      assert QIdx(qset[k].digest, qset[k].seqNo) == k;
      list := list + [qset[k]];
      todo := todo - {k};
    }
  }

  /** The view-change message of a state. */
  method Announce(s: ReplicaState) returns (vc: ViewChange)
    requires forall n | n in s.pset :: s.pset[n].seqNo == n
    requires forall k | k in s.qset :: s.qset[k].seqNo == k.n && s.qset[k].digest == k.d
    ensures Announces(s, vc)
  {
    var cset := ListC(s.chkpts);
    var pset := ListP(s.pset);
    var qset := ListQ(s.qset);
    vc := ViewChange(s.view, s.h, cset, pset, qset, s.id);
  }

  // --------------------------------------------------------------- the new view

  method DropCertsBefore(certs: map<MsgID, Cert>, v: nat) returns (certs': map<MsgID, Cert>)
    ensures certs' == map idx | idx in certs && idx.v >= v :: certs[idx]
  {
    certs' := certs;
    var todo := certs.Keys;
    while todo != {}
      invariant todo <= certs.Keys && certs' == map idx | idx in certs && (idx in todo || idx.v >= v) :: certs[idx]
      decreases |todo|
    {
      var idx :| idx in todo;
      if idx.v < v {
        certs' := certs' - {idx};
      }
      todo := todo - {idx};
    }
  }

  method DropViewChangesBefore(store: map<VCIdx, ViewChange>, v: nat) returns (store': map<VCIdx, ViewChange>)
    ensures store' == map k | k in store && k.v >= v :: store[k]
  {
    store' := store;
    var todo := store.Keys;
    while todo != {}
      invariant todo <= store.Keys && store' == map k | k in store && (k in todo || k.v >= v) :: store[k]
      decreases |todo|
    {
      var k :| k in todo;
      if k.v < v {
        store' := store' - {k};
      }
      todo := todo - {k};
    }
  }

  /** sendViewChange up to the broadcast. */
  method LeaveView(cfg: Config, s: ReplicaState, target: nat) returns (s': ReplicaState)
    requires target > s.view && forall idx | idx in s.certStore :: idx.v == s.view
    ensures s' == SendViewChange(cfg, s, target)
  {
    var p := CollectP(cfg, s);
    var q := CollectQ(s);
    var certs := DropCertsBefore(s.certStore, target);
    var vcs := DropViewChangesBefore(s.viewChangeStore, target);
    s' := s.(newViewStore := s.newViewStore - {target - 1}, view := target, activeView := false, pset := p, qset := q,
             certStore := certs, viewChangeStore := vcs);
  }

  // ------------------------------------------------------------ view-changes

  method IsCorrect(cfg: Config, vc: ViewChange) returns (b: bool)
    ensures b <==> CorrectViewChange(cfg, vc)
  {
    var pq := vc.pset + vc.qset;
    var i := 0;
    while i < |pq|
      invariant 0 <= i <= |pq|
      invariant forall j | 0 <= j < i :: pq[j].view < vc.view && vc.h < pq[j].seqNo <= vc.h + cfg.L
    {
      if !(pq[i].view < vc.view && vc.h < pq[i].seqNo <= vc.h + cfg.L) {
        return false;
      }
      i := i + 1;
    }
    i := 0;
    while i < |vc.cset|
      invariant 0 <= i <= |vc.cset|
      invariant forall j | 0 <= j < i :: vc.h <= vc.cset[j].seqNo <= vc.h + cfg.L
    {
      if !(vc.h <= vc.cset[i].seqNo <= vc.h + cfg.L) {
        return false;
      }
      i := i + 1;
    }
    return true;
  }

  /** The view-changes for later views. */
  ghost function Above(store: map<VCIdx, ViewChange>, v: nat): set<VCIdx> {
    set k | k in store && k.v > v
  }

  /** The replicas whose view-changes in `seen` are for views after v. */
  function Asking(seen: set<VCIdx>, v: nat): set<nat> { set k | k in seen && k.v > v :: k.id }

  lemma AskingOneMore(seen: set<VCIdx>, v: nat, k: VCIdx)
    ensures Asking(seen + {k}, v) == Asking(seen, v) + if k.v > v then {k.id} else {}
  {
  }

  /** minView is 0 while nobody asks, and then the smallest view asked for. */
  ghost predicate Smallest(seen: set<VCIdx>, v: nat, minView: nat) {
    && (Asking(seen, v) == {} ==> minView == 0)
    && (Asking(seen, v) != {} ==> minView > v && exists k :: k in seen && k.v == minView)
    && forall k | k in seen && k.v > v :: 0 < minView <= k.v
  }

  lemma SmallestOneMore(seen: set<VCIdx>, v: nat, k: VCIdx, minView: nat)
    requires Smallest(seen, v, minView)
    ensures Smallest(seen + {k}, v, if k.v > v && (minView == 0 || k.v < minView) then k.v else minView)
  {
    AskingOneMore(seen, v, k);
    var least := if k.v > v && (minView == 0 || k.v < minView) then k.v else minView;
    if k.v > v && least == k.v {
      assert k in seen + {k};
    } else if Asking(seen, v) != {} {
      var j :| j in seen && j.v == minView;
      assert j in seen + {k};
    }
  }

  lemma OneLessToDo(keys: set<VCIdx>, todo: set<VCIdx>, v: nat, k: VCIdx, minView: nat)
    requires todo <= keys && k in todo && Smallest(keys - todo, v, minView)
    ensures Asking(keys - (todo - {k}), v) == Asking(keys - todo, v) + if k.v > v then {k.id} else {}
    ensures Smallest(keys - (todo - {k}), v, if k.v > v && (minView == 0 || k.v < minView) then k.v else minView)
  {
    assert keys - (todo - {k}) == keys - todo + {k};
    AskingOneMore(keys - todo, v, k);
    SmallestOneMore(keys - todo, v, k, minView);
  }

  lemma AskingAll(store: map<VCIdx, ViewChange>, v: nat, minView: nat)
    requires Smallest(store.Keys, v, minView)
    ensures Asking(store.Keys, v) == set k | k in Above(store, v) :: k.id
    ensures Asking(store.Keys, v) != {} ==> minView > v && exists k :: k in store && k.v == minView
    ensures forall k | k in Above(store, v) :: minView <= k.v
  {
    forall k | k in Above(store, v) ensures minView <= k.v { assert k in store.Keys; }
  }

  /** The replicas that sent view-changes for later views, and the smallest such view. */
  method LaterViews(store: map<VCIdx, ViewChange>, v: nat) returns (replicas: set<nat>, minView: nat)
    ensures replicas == set k | k in Above(store, v) :: k.id
    ensures replicas != {} ==> minView > v && exists k :: k in store && k.v == minView
    ensures forall k | k in Above(store, v) :: minView <= k.v
  {
    replicas, minView := {}, 0;
    var todo := store.Keys;
    while todo != {}
      invariant todo <= store.Keys
      invariant replicas == Asking(store.Keys - todo, v)
      invariant Smallest(store.Keys - todo, v, minView)
      decreases todo
    {
      var k :| k in todo;
      OneLessToDo(store.Keys, todo, v, k, minView);
      if k.v > v {
        replicas := replicas + {k.id};
        if minView == 0 || k.v < minView {
          minView := k.v;
        }
      }
      todo := todo - {k};
    }
    assert store.Keys - todo == store.Keys;
    AskingAll(store, v, minView);
  }

  method CountForView(s: ReplicaState) returns (quorum: nat)
    ensures quorum == |ForView(s, s.view)|
  {
    quorum := 0;
    var todo := s.viewChangeStore.Keys;
    ghost var seen: set<VCIdx> := {};
    while todo != {}
      invariant todo <= s.viewChangeStore.Keys
      invariant seen == set k | k in s.viewChangeStore && k !in todo && k.v == s.view
      invariant quorum == |seen|
      decreases |todo|
    {
      var k :| k in todo;
      if k.v == s.view {
        quorum := quorum + 1;
        seen := seen + {k};
      }
      todo := todo - {k};
    }
    assert seen == ForView(s, s.view);
  }

  /** getViewChanges. */
  method GetViewChanges(store: map<VCIdx, ViewChange>) returns (vset: seq<ViewChange>)
    requires forall k | k in store :: store[k].view == k.v && store[k].replicaId == k.id
    ensures forall m | m in vset :: VCIdx(m.view, m.replicaId) in store && store[VCIdx(m.view, m.replicaId)] == m
    ensures forall k | k in store :: store[k] in vset
    ensures |vset| == |store|
  {
    vset := [];
    var todo := store.Keys;
    while todo != {}
      invariant todo <= store.Keys && |vset| + |todo| == |store|
      invariant forall m | m in vset :: VCIdx(m.view, m.replicaId) in store && store[VCIdx(m.view, m.replicaId)] == m
      invariant forall k | k in store && k !in todo :: store[k] in vset
      decreases |todo|
    {
      var k :| k in todo;
      assert VCIdx(store[k].view, store[k].replicaId) == k;
      vset := vset + [store[k]];
      todo := todo - {k};
    }
  }

  /** The checks of recvViewChange. */
  method TakesViewChange(cfg: Config, s: ReplicaState, vc: ViewChange) returns (b: bool)
    ensures b <==> CanStoreViewChange(cfg, s, vc)
  {
    b := IsCorrect(cfg, vc);
    return vc.view >= s.view && b && VCIdx(vc.view, vc.replicaId) !in s.viewChangeStore;
  }

  /** Enough replicas ask for later views. */
  ghost predicate Overtaken(cfg: Config, s: ReplicaState) {
    |set k | k in Above(s.viewChangeStore, s.view) :: k.id| >= cfg.f + 1
  }

  /** The smallest view f+1 replicas want to go beyond the current one for, if they do. */
  method JoinTarget(cfg: Config, s: ReplicaState) returns (target: Option<nat>)
    ensures target.Some? <==> Overtaken(cfg, s)
    ensures target.Some? ==> target.value > s.view && exists k :: k in s.viewChangeStore && k.v == target.value
    ensures target.Some? ==> forall k | k in Above(s.viewChangeStore, s.view) :: target.value <= k.v
  {
    var replicas, minView := LaterViews(s.viewChangeStore, s.view);
    if |replicas| >= cfg.f + 1 {
      return Some(minView);
    }
    return None;
  }

  // ------------------------------------------------------------ a measure

  /** The stored new-views for view v and later. */
  ghost function ViewsFrom(store: map<nat, NewView>, v: nat): set<nat> {
    set w | w in store && w >= v
  }

  /** What bounds the recursion of the view-change handlers in view v: the view-changes
      stored for later views and the new-views stored for this and later ones. */
  ghost function Fuel(vcs: map<VCIdx, ViewChange>, nvs: map<nat, NewView>, v: nat): nat {
    |Above(vcs, v)| + |ViewsFrom(nvs, v)|
  }

  /** Joining a later view that somebody asked for uses up a view-change. */
  lemma JoinUsesFuel(vcs: map<VCIdx, ViewChange>, nvs: map<nat, NewView>, v: nat, w: nat, k: VCIdx)
    requires v < w && k in vcs && k.v == w
    ensures Fuel(vcs, nvs, w) < Fuel(vcs, nvs, v)
  {
    assert k in Above(vcs, v) && k !in Above(vcs, w);
    SubsetSize(Above(vcs, w), Above(vcs, v) - {k});
    SubsetSize(ViewsFrom(nvs, w), ViewsFrom(nvs, v));
  }

  /** Giving up on the new-view of the current view uses it up. */
  lemma RefusalUsesFuel(vcs: map<VCIdx, ViewChange>, nvs: map<nat, NewView>, v: nat)
    requires v in nvs
    ensures Fuel(vcs, nvs, v + 1) < Fuel(vcs, nvs, v)
  {
    SubsetSize(Above(vcs, v + 1), Above(vcs, v));
    assert v in ViewsFrom(nvs, v) && v !in ViewsFrom(nvs, v + 1);
    SubsetSize(ViewsFrom(nvs, v + 1), ViewsFrom(nvs, v) - {v});
  }

  /** Moving to view w does not add to what is stored for w and later. */
  lemma LeavingKeepsFuel(cfg: Config, s: ReplicaState, w: nat, k: VCIdx, vc: ViewChange)
    requires w > s.view && k.v == w
    ensures var s' := SendViewChange(cfg, s, w);
            Fuel(s'.viewChangeStore[k := vc], s'.newViewStore, w) == Fuel(s.viewChangeStore, s.newViewStore, w)
  {
    var s' := SendViewChange(cfg, s, w);
    assert Above(s'.viewChangeStore[k := vc], w) == Above(s.viewChangeStore, w);
    assert ViewsFrom(s'.newViewStore, w) == ViewsFrom(s.newViewStore, w);
  }

  /** Storing the new-view of the current view adds one. */
  lemma StoringAddsFuel(vcs: map<VCIdx, ViewChange>, nvs: map<nat, NewView>, v: nat, nv: NewView)
    requires v !in nvs
    ensures Fuel(vcs, nvs[v := nv], v) == Fuel(vcs, nvs, v) + 1
  {
    assert ViewsFrom(nvs[v := nv], v) == ViewsFrom(nvs, v) + {v};
  }

  // -------------------------------------------------------- entering a view

  /** The certificate of n with the proposal of the X set. */
  function Proposing(s: ReplicaState, n: nat, d: Digest): Cert {
    GetCert(s, s.view, n).(prePrepare := Some(PrePrepare(s.view, n, d, None, s.id)))
  }

  /** The certificates once the numbers outside `todo` are proposed. */
  ghost predicate PartlyProposed(s: ReplicaState, x: map<nat, Digest>, todo: set<nat>, certs: map<MsgID, Cert>) {
    && (forall idx :: idx in certs <==> idx in s.certStore || (idx.v == s.view && idx.n in x && idx.n !in todo))
    && (forall idx | idx in certs ::
          certs[idx] == if idx.v == s.view && idx.n in x && idx.n !in todo then Proposing(s, idx.n, x[idx.n]) else s.certStore[idx])
  }

  lemma ProposeOneMore(s: ReplicaState, x: map<nat, Digest>, todo: set<nat>, certs: map<MsgID, Cert>, n: nat)
    requires todo <= x.Keys && n in todo && PartlyProposed(s, x, todo, certs)
    ensures var idx := MsgID(s.view, n);
            && (idx in certs <==> idx in s.certStore) && (idx in certs ==> certs[idx] == s.certStore[idx])
            && PartlyProposed(s, x, todo - {n}, certs[idx := Proposing(s, n, x[n])])
  {
  }

  /** The first loop of processNewView2. */
  method ProposeX(s: ReplicaState, x: map<nat, Digest>) returns (certs: map<MsgID, Cert>, seqNo: nat)
    ensures PartlyProposed(s, x, {}, certs) && seqNo == Raised(s.seqNo, x.Keys)
  {
    certs, seqNo := s.certStore, s.seqNo;
    var todo := x.Keys;
    while todo != {}
      invariant todo <= x.Keys && PartlyProposed(s, x, todo, certs)
      invariant seqNo >= s.seqNo && (seqNo == s.seqNo || seqNo in x.Keys) && forall n | n in x && n !in todo :: n <= seqNo
      decreases |todo|
    {
      var n :| n in todo;
      ProposeOneMore(s, x, todo, certs, n);
      var idx := MsgID(s.view, n);
      var cert := if idx in certs then certs[idx] else EMPTY_CERT;
      certs := certs[idx := cert.(prePrepare := Some(PrePrepare(s.view, n, x[n], None, s.id)))];
      if n > seqNo {
        seqNo := n;
      }
      todo := todo - {n};
    }
  }

  /** A backup's own prepare is added. */
  function Answering(s: ReplicaState, n: nat, d: Digest): Cert {
    var c := Proposing(s, n, d);
    c.(prepare := c.prepare + [Prepare(s.view, n, d, s.id)], sentPrepare := true)
  }

  ghost predicate PartlyAnswered(s: ReplicaState, x: map<nat, Digest>, todo: set<nat>, certs: map<MsgID, Cert>) {
    && (forall idx :: idx in certs <==> idx in s.certStore || (idx.v == s.view && idx.n in x))
    && (forall idx | idx in certs ::
          certs[idx] == if idx.v == s.view && idx.n in x
                        then (if idx.n in todo then Proposing(s, idx.n, x[idx.n]) else Answering(s, idx.n, x[idx.n]))
                        else s.certStore[idx])
  }

  lemma AnswerOneMore(s: ReplicaState, x: map<nat, Digest>, todo: set<nat>, certs: map<MsgID, Cert>, n: nat)
    requires todo <= x.Keys && n in todo && PartlyAnswered(s, x, todo, certs)
    ensures var idx := MsgID(s.view, n);
            && idx in certs && certs[idx] == Proposing(s, n, x[n])
            && PartlyAnswered(s, x, todo - {n}, certs[idx := Answering(s, n, x[n])])
  {
  }

  /** The second loop of processNewView2, for a backup. */
  method AnswerX(s: ReplicaState, x: map<nat, Digest>, proposed: map<MsgID, Cert>) returns (certs: map<MsgID, Cert>)
    requires PartlyProposed(s, x, {}, proposed)
    ensures PartlyAnswered(s, x, {}, certs)
  {
    certs := proposed;
    var todo := x.Keys;
    while todo != {}
      invariant todo <= x.Keys && PartlyAnswered(s, x, todo, certs)
      decreases |todo|
    {
      var n :| n in todo;
      AnswerOneMore(s, x, todo, certs, n);
      var cert := certs[MsgID(s.view, n)];
      certs := certs[MsgID(s.view, n) := cert.(prepare := cert.prepare + [Prepare(s.view, n, x[n], s.id)], sentPrepare := true)];
      todo := todo - {n};
    }
  }

  lemma EnteredKey(cfg: Config, s: ReplicaState, idx: MsgID)
    requires cfg.Valid() && s.view in s.newViewStore
    ensures idx in EnterView(cfg, s).certStore <==>
            idx in s.certStore || (idx.v == s.view && idx.n in s.newViewStore[s.view].xset)
  {
    if idx.v == s.view && idx.n in s.newViewStore[s.view].xset {
      assert idx == MsgID(s.view, idx.n);
    }
  }

  lemma EnteredCerts(cfg: Config, s: ReplicaState, certs: map<MsgID, Cert>)
    requires cfg.Valid() && s.view in s.newViewStore
    requires var x := s.newViewStore[s.view].xset;
             if cfg.Primary(s.view) == s.id then PartlyProposed(s, x, {}, certs) else PartlyAnswered(s, x, {}, certs)
    ensures certs == EnterView(cfg, s).certStore
  {
    var x := s.newViewStore[s.view].xset;
    var want := EnterView(cfg, s).certStore;
    forall idx: MsgID ensures idx in certs <==> idx in want {
      EnteredKey(cfg, s, idx);
    }
    forall idx | idx in certs ensures certs[idx] == want[idx] {
      EnteredKey(cfg, s, idx);
      if idx.v == s.view && idx.n in x { assert want[idx] == NewViewCert(cfg, s, idx.n, x[idx.n]); }
    }
  }

  /** processNewView2 up to its broadcasts. */
  method TakeView(cfg: Config, s: ReplicaState) returns (s': ReplicaState)
    requires cfg.Valid() && s.view in s.newViewStore && s.view > 0
    ensures s' == EnterView(cfg, s)
  {
    var x := s.newViewStore[s.view].xset;
    var certs, seqNo := ProposeX(s, x);
    if cfg.Primary(s.view) != s.id {
      certs := AnswerX(s, x, certs);
    }
    EnteredCerts(cfg, s, certs);
    s' := s.(activeView := true, newViewStore := s.newViewStore - {s.view - 1}, certStore := certs, seqNo := seqNo);
  }

  /** The prepares a backup sends on entering a view reach itself as duplicates. */
  lemma OwnPreparesKnown(cfg: Config, s: ReplicaState, n: nat)
    requires cfg.Valid() && s.view in s.newViewStore && cfg.Primary(s.view) != s.id && n in s.newViewStore[s.view].xset
    ensures !CanAddPrepare(cfg, EnterView(cfg, s), Prepare(s.view, n, s.newViewStore[s.view].xset[n], s.id))
    ensures EnterView(cfg, s).activeView
  {
    var s', p := EnterView(cfg, s), Prepare(s.view, n, s.newViewStore[s.view].xset[n], s.id);
    var x := s.newViewStore[s.view].xset;
    assert MsgID(s.view, n) in s'.certStore && GetCert(s', s.view, n) == NewViewCert(cfg, s, n, x[n]);
    var c := GetCert(s', s.view, n);
    assert c.prepare[|c.prepare| - 1] == p && p in c.prepare;
  }

  /** The requests that the X set names at the given numbers above the watermark and that are not stored. */
  function Unknown(s: ReplicaState, x: map<nat, Digest>, numbers: set<nat>): set<Digest> {
    set n | n in numbers && n in x && n > s.h && x[n] != Null && x[n] !in s.reqStore :: x[n]
  }

  /** The unknown requests at the given numbers are marked missing. */
  function WithMissing(s: ReplicaState, x: map<nat, Digest>, numbers: set<nat>): ReplicaState {
    s.(missingReqs := s.missingReqs + Unknown(s, x, numbers))
  }

  /** One pass of the loop. */
  function NotePass(s: ReplicaState, n: nat, d: Digest): ReplicaState {
    if n > s.h && d != Null && d !in s.reqStore && d !in s.missingReqs then NoteMissing(s, d) else s
  }

  lemma NoteNone(s: ReplicaState, x: map<nat, Digest>)
    ensures WithMissing(s, x, {}) == s
  {
    assert Unknown(s, x, {}) == {};
  }

  function New(s: ReplicaState, n: nat, d: Digest): set<Digest> {
    if n > s.h && d != Null && d !in s.reqStore then {d} else {}
  }

  lemma UnknownGrows(s: ReplicaState, x: map<nat, Digest>, numbers: set<nat>, n: nat)
    requires n in x
    ensures Unknown(s, x, numbers + {n}) == Unknown(s, x, numbers) + New(s, n, x[n])
  {
  }

  lemma NoteOnce(s: ReplicaState, n: nat, d: Digest)
    ensures NotePass(s, n, d) == s.(missingReqs := s.missingReqs + New(s, n, d))
  {
    assert d in s.missingReqs ==> s.missingReqs + {d} == s.missingReqs;
    assert s.missingReqs + {} == s.missingReqs;
  }

  lemma NoteOneMore(s: ReplicaState, x: map<nat, Digest>, numbers: set<nat>, n: nat)
    requires n in x
    ensures NotePass(WithMissing(s, x, numbers), n, x[n]) == WithMissing(s, x, numbers + {n})
  {
    NoteOnce(WithMissing(s, x, numbers), n, x[n]);
    UnknownGrows(s, x, numbers, n);
    var m, u, w := s.missingReqs, Unknown(s, x, numbers), New(s, n, x[n]);
    assert (m + u) + w == m + (u + w);
  }

  method CountMatching(s: ReplicaState, n: nat, id: string) returns (matching: nat)
    ensures matching == |Matching(s, n, id)|
  {
    matching := 0;
    var todo := s.checkpointStore;
    ghost var seen: set<Checkpoint> := {};
    while todo != {}
      invariant todo <= s.checkpointStore && matching == |seen|
      invariant seen == set c | c in s.checkpointStore && c !in todo && c.seqNo == n && c.id == id
      decreases |todo|
    {
      var c :| c in todo;
      if c.seqNo == n && c.id == id {
        matching := matching + 1;
        seen := seen + {c};
      }
      todo := todo - {c};
    }
    assert seen == Matching(s, n, id);
  }

  method AllVerified(vset: seq<ViewChange>, verified: ViewChange -> bool) returns (b: bool)
    ensures b <==> forall m | m in vset :: verified(m)
  {
    var i := 0;
    while i < |vset|
      invariant 0 <= i <= |vset| && forall j | 0 <= j < i :: verified(vset[j])
    {
      if !verified(vset[i]) {
        return false;
      }
      i := i + 1;
    }
    return true;
  }
}
