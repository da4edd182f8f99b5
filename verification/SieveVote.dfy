/** How Sieve decides whether a speculative execution was deterministic. */
module SieveVote {
  import opened Common

  /** What an execution leads to: the block number and the id of the resulting ledger state. */
  datatype SieveId = SieveId(blockNumber: nat, obcId: string)

  /** A request under an ideal digest; None is the empty digest. */
  type ReqDigest = Option<string>

  datatype Verify = Verify(view: nat, blockNumber: nat, requestDigest: ReqDigest, result: SieveId, replicaId: nat, signed: bool)

  datatype VerifySet = VerifySet(view: nat, blockNumber: nat, requestDigest: ReqDigest, dset: seq<Verify>, replicaId: nat, signed: bool)

  // ------------------------------------------------------------------ groups

  /** The verifies for result r, in their order. */
  function Group(vs: seq<Verify>, r: SieveId): (g: seq<Verify>)
    ensures |g| <= |vs|
    ensures forall v | v in g :: v in vs && v.result == r
  {
    if vs == [] then []
    else
      var k := |vs| - 1;
      Group(vs[..k], r) + if vs[k].result == r then [vs[k]] else []
  }

  predicate Unanimous(vs: seq<Verify>) {
    forall v, w | v in vs && w in vs :: v.result == w.result
  }

  /** Result r is backed by more than f verifies. */
  predicate Backed(f: nat, vs: seq<Verify>, r: SieveId) { |Group(vs, r)| >= f + 1 }

  lemma {:induction false} GroupOfAll(vs: seq<Verify>, r: SieveId)
    ensures Group(vs, r) == vs <==> forall v | v in vs :: v.result == r
    ensures |Group(vs, r)| == |vs| ==> Group(vs, r) == vs
  {
    if vs != [] {
      var k := |vs| - 1;
      assert vs == vs[..k] + [vs[k]];
      GroupOfAll(vs[..k], r);
      if Group(vs, r) == vs && vs[k].result == r { assert Group(vs, r)[..k] == vs[..k]; }
    }
  }

  lemma {:induction false} GroupsApart(vs: seq<Verify>, r: SieveId, s: SieveId)
    requires r != s
    ensures |Group(vs, r)| + |Group(vs, s)| <= |vs|
  {
    if vs != [] {
      GroupsApart(vs[..|vs| - 1], r, s);
    }
  }

  lemma {:induction false} GroupMember(vs: seq<Verify>, v: Verify)
    requires v in vs
    ensures v in Group(vs, v.result)
  {
    var k := |vs| - 1;
    assert vs == vs[..k] + [vs[k]];
    if v in vs[..k] { GroupMember(vs[..k], v); }
  }

  // -------------------------------------------------------------- verifyDset

  /** What verifyDset may return; which backed group it returns depends on the order in
      which it visits its map. */
  ghost predicate DsetOf(f: nat, vs: seq<Verify>, d: seq<Verify>, ok: bool) {
    if ok then exists r :: Backed(f, vs, r) && d == Group(vs, r)
    else d == vs && forall r :: !Backed(f, vs, r)
  }

  ghost predicate Sorted(sortV: map<SieveId, seq<Verify>>, vs: seq<Verify>) {
    && (forall r | r in sortV :: sortV[r] == Group(vs, r))
    && (forall r | r !in sortV :: Group(vs, r) == [])
  }

  lemma SortOneMore(sortV: map<SieveId, seq<Verify>>, vs: seq<Verify>, v: Verify)
    requires Sorted(sortV, vs)
    ensures Sorted(sortV[v.result := (if v.result in sortV then sortV[v.result] else []) + [v]], vs + [v])
  {
    assert (vs + [v])[..|vs|] == vs;
    assert forall r :: Group(vs + [v], r) == Group(vs, r) + if v.result == r then [v] else [];
  }

  method SortByResult(vs: seq<Verify>) returns (sortV: map<SieveId, seq<Verify>>)
    ensures Sorted(sortV, vs)
  {
    sortV := map[];
    var i := 0;
    while i < |vs|
      invariant 0 <= i <= |vs| && Sorted(sortV, vs[..i])
    {
      var v := vs[i];
      SortOneMore(sortV, vs[..i], v);
      assert vs[..i] + [v] == vs[..i + 1];
      sortV := sortV[v.result := (if v.result in sortV then sortV[v.result] else []) + [v]];
      i := i + 1;
    }
    assert vs[..i] == vs;
  }

  /** verifyDset. */
  method VerifyDset(f: nat, vs: seq<Verify>) returns (d: seq<Verify>, ok: bool)
    ensures DsetOf(f, vs, d, ok)
  {
    var sortV := SortByResult(vs);
    var todo := sortV.Keys;
    while todo != {}
      invariant todo <= sortV.Keys
      invariant forall r | r in sortV && r !in todo :: !Backed(f, vs, r)
      decreases |todo|
    {
      var r :| r in todo;
      if |sortV[r]| >= f + 1 {
        assert Backed(f, vs, r);
        return sortV[r], true;
      }
      todo := todo - {r};
    }
    return vs, false;
  }

  /** At most one result is backed, so the order of the map does not matter. */
  ghost predicate OneBacked(f: nat, vs: seq<Verify>) {
    forall r, s | Backed(f, vs, r) && Backed(f, vs, s) :: r == s
  }

  /** verifyDset is independent of the map order exactly when at most one result is backed. */
  lemma DsetDeterminedIff(f: nat, vs: seq<Verify>)
    ensures OneBacked(f, vs) <==>
            forall d, ok, d', ok' | DsetOf(f, vs, d, ok) && DsetOf(f, vs, d', ok') :: d == d' && ok == ok'
  {
    if !OneBacked(f, vs) {
      var r, s :| Backed(f, vs, r) && Backed(f, vs, s) && r != s;
      var g, h := Group(vs, r), Group(vs, s);
      assert DsetOf(f, vs, g, true) && DsetOf(f, vs, h, true);
      assert g[0] in g && h[0] in h;
    }
  }

  /** With at most 2f+1 verifies at most one result is backed. */
  lemma FewVerifiesOneBacked(f: nat, vs: seq<Verify>)
    requires |vs| <= 2 * f + 1
    ensures OneBacked(f, vs)
  {
    forall r, s | Backed(f, vs, r) && Backed(f, vs, s) ensures r == s {
      if r != s {
        GroupsApart(vs, r, s);
        assert false;
      }
    }
  }

  function Copies(v: Verify, k: nat): seq<Verify> { seq(k, _ => v) }

  lemma {:induction false} GroupOfCopies(v: Verify, k: nat)
    ensures Group(Copies(v, k), v.result) == Copies(v, k)
  {
    if k > 0 {
      assert Copies(v, k)[..k - 1] == Copies(v, k - 1);
      GroupOfCopies(v, k - 1);
    }
  }

  lemma {:induction false} GroupJoins(a: seq<Verify>, b: seq<Verify>, r: SieveId)
    ensures Group(a + b, r) == Group(a, r) + Group(b, r)
  {
    if b == [] {
      assert a + b == a;
    } else {
      var k := |b| - 1;
      assert (a + b)[..|a| + k] == a + b[..k];
      GroupJoins(a, b[..k], r);
    }
  }

  lemma BackedByCopies(f: nat, v: Verify, before: seq<Verify>, after: seq<Verify>)
    ensures Backed(f, before + Copies(v, f + 1) + after, v.result)
  {
    GroupOfCopies(v, f + 1);
    GroupJoins(before, Copies(v, f + 1), v.result);
    GroupJoins(before + Copies(v, f + 1), after, v.result);
  }

  /** One verify more and the outcome can depend on the order. */
  lemma TwoBackedResults(f: nat, v: Verify, w: Verify)
    requires v.result != w.result
    ensures var vs := Copies(v, f + 1) + Copies(w, f + 1);
            |vs| == 2 * f + 2 && !OneBacked(f, vs)
  {
    var a, b := Copies(v, f + 1), Copies(w, f + 1);
    BackedByCopies(f, v, [], b);
    BackedByCopies(f, w, a, []);
    assert [] + a + b == a + b && a + b + [] == a + b;
  }

  /** verifyDset is idempotent, whatever its input and in whatever order it visits its map. */
  lemma DsetIdempotent(f: nat, vs: seq<Verify>, d: seq<Verify>, ok: bool, d': seq<Verify>, ok': bool)
    requires DsetOf(f, vs, d, ok) && DsetOf(f, d, d', ok')
    ensures d' == d && ok' == ok
  {
    if ok {
      var r :| Backed(f, vs, r) && d == Group(vs, r);
      GroupOfAll(d, r);
      assert Backed(f, d, r);
      var s :| Backed(f, d, s) && d' == Group(d, s);
      assert Group(d, s)[0] in Group(d, s);
    }
  }

  /** verifyDset leaves its input unchanged exactly when it is unanimous and backed, or
      no result is backed. */
  lemma CoherentIff(f: nat, vs: seq<Verify>, d: seq<Verify>, ok: bool)
    requires DsetOf(f, vs, d, ok)
    ensures d == vs <==> (Unanimous(vs) && |vs| >= f + 1) || (forall r :: !Backed(f, vs, r))
  {
    if ok {
      var r :| Backed(f, vs, r) && d == Group(vs, r);
      GroupOfAll(vs, r);
      assert Group(vs, r)[0] in vs;
    }
  }

  // ------------------------------------------------------- validateVerifySet

  ghost predicate DistinctSenders(vs: seq<Verify>) {
    forall i, j | 0 <= i < j < |vs| :: vs[i].replicaId != vs[j].replicaId
  }

  ghost predicate Consistent(x: VerifySet) {
    forall v | v in x.dset :: v.view == x.view && v.blockNumber == x.blockNumber && v.requestDigest == x.requestDigest
  }

  /** What a replica accepts: a signed set from the primary of its view, of signed and
      consistent verifies from distinct replicas, that agree on one result of at least f+1
      of them or leave every result without f+1. */
  ghost predicate Acceptable(f: nat, primary: nat, x: VerifySet) {
    && x.signed && x.replicaId == primary
    && (forall v | v in x.dset :: v.signed) && DistinctSenders(x.dset) && Consistent(x)
    && |x.dset| >= f + 1
    && (Unanimous(x.dset) || forall r :: !Backed(f, x.dset, r))
  }

  method CheckSenders(vs: seq<Verify>) returns (ok: bool)
    ensures ok <==> (forall v | v in vs :: v.signed) && DistinctSenders(vs)
  {
    var dups: set<nat> := {};
    var i := 0;
    while i < |vs|
      invariant 0 <= i <= |vs|
      invariant dups == set j | 0 <= j < i :: vs[j].replicaId
      invariant forall j | 0 <= j < i :: vs[j].signed
      invariant forall j, k | 0 <= j < k < i :: vs[j].replicaId != vs[k].replicaId
    {
      if !vs[i].signed {
        return false;
      }
      if vs[i].replicaId in dups {
        return false;
      }
      dups := dups + {vs[i].replicaId};
      i := i + 1;
    }
    return true;
  }

  method CheckMembers(x: VerifySet) returns (ok: bool)
    ensures ok <==> Consistent(x)
  {
    var i := 0;
    while i < |x.dset|
      invariant 0 <= i <= |x.dset|
      invariant forall j | 0 <= j < i ::
        x.dset[j].view == x.view && x.dset[j].blockNumber == x.blockNumber && x.dset[j].requestDigest == x.requestDigest
    {
      var v := x.dset[i];
      if v.view != x.view || v.blockNumber != x.blockNumber || v.requestDigest != x.requestDigest {
        return false;
      }
      i := i + 1;
    }
    return true;
  }

  /** validateVerifySet accepts exactly the acceptable sets, whatever the map order. */
  method ValidateVerifySet(f: nat, primary: nat, x: VerifySet) returns (ok: bool)
    ensures ok <==> Acceptable(f, primary, x)
  {
    if !x.signed || x.replicaId != primary {
      return false;
    }
    ok := CheckSenders(x.dset);
    if !ok {
      return false;
    }
    ok := CheckMembers(x);
    if !ok || |x.dset| < f + 1 {
      return false;
    }
    var d, backed := VerifyDset(f, x.dset);
    CoherentIff(f, x.dset, d, backed);
    return d == x.dset;
  }
}
