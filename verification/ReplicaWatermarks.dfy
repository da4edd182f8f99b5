/** The loops of moveWatermarks and weakCheckpointSetOutOfRange. */
module ReplicaWatermarks {
  import opened Common
  import opened PbftTypes
  import opened Quorums
  import opened ReplicaModel

  // ---------------------------------------------------------------- the window

  /** inW as it is computed, on unsigned numbers that wrap around. */
  predicate InWWrapping(h: uint64, L: uint64, n: uint64) {
    Wrap(n - h) > 0 && Wrap(n - h) <= L
  }

  lemma WrappedDistance(h: uint64, n: uint64)
    ensures Wrap(n - h) == if n >= h then n - h else n - h + TWO64
  {
    if n < h {
      assert (n - h + TWO64) % TWO64 == n - h + TWO64;
    }
  }

  /** The wrapping test is h < n <= h+L for all n exactly when h+L does not overflow. */
  lemma InWExactIff(h: uint64, L: uint64)
    ensures h + L < TWO64 <==> forall n: uint64 :: InWWrapping(h, L, n) <==> h < n <= h + L
  {
    forall n: uint64 ensures InWWrapping(h, L, n) <==> (h < n <= h + L) || (n < h && n + TWO64 <= h + L) {
      WrappedDistance(h, n);
    }
    if h + L >= TWO64 {
      assert InWWrapping(h, L, 0) && !(h < 0);
    }
  }

  // ------------------------------------------------------------ moveWatermarks

  function ProposedBelow(certs: map<MsgID, Cert>, h: nat): set<Digest> {
    set idx | idx in certs && idx.n <= h && certs[idx].prePrepare.Some? :: certs[idx].prePrepare.value.digest
  }

  method DropCerts(certs: map<MsgID, Cert>, reqs: map<Digest, Request>, h: nat)
      returns (certs': map<MsgID, Cert>, reqs': map<Digest, Request>)
    ensures certs' == map idx | idx in certs && idx.n > h :: certs[idx]
    ensures reqs' == reqs - ProposedBelow(certs, h)
  {
    certs', reqs' := certs, reqs;
    var todo := certs.Keys;
    ghost var gone: set<Digest> := {};
    while todo != {}
      invariant todo <= certs.Keys
      invariant certs' == map idx | idx in certs && (idx in todo || idx.n > h) :: certs[idx]
      invariant gone == set idx | idx in certs && idx !in todo && idx.n <= h && certs[idx].prePrepare.Some? ::
                          certs[idx].prePrepare.value.digest
      invariant reqs' == reqs - gone
      decreases |todo|
    {
      var idx :| idx in todo;
      if idx.n <= h {
        if certs[idx].prePrepare.Some? {
          reqs' := reqs' - {certs[idx].prePrepare.value.digest};
          gone := gone + {certs[idx].prePrepare.value.digest};
        }
        certs' := certs' - {idx};
      }
      todo := todo - {idx};
    }
    assert gone == ProposedBelow(certs, h);
  }

  method DropCheckpoints(cs: set<Checkpoint>, h: nat) returns (cs': set<Checkpoint>)
    ensures cs' == set c | c in cs && c.seqNo > h
  {
    cs' := cs;
    var todo := cs;
    while todo != {}
      invariant todo <= cs && cs' == set c | c in cs && (c in todo || c.seqNo > h)
      decreases |todo|
    {
      var c :| c in todo;
      if c.seqNo <= h {
        cs' := cs' - {c};
      }
      todo := todo - {c};
    }
  }

  /** The loops over pset (drop up to h) and over chkpts (drop up to h-1). */
  method DropNumbers<V>(m: map<nat, V>, h: int) returns (m': map<nat, V>)
    ensures m' == map n | n in m && n > h :: m[n]
  {
    m' := m;
    var todo := m.Keys;
    while todo != {}
      invariant todo <= m.Keys && m' == map n | n in m && (n in todo || n > h) :: m[n]
      decreases |todo|
    {
      var n :| n in todo;
      if n <= h {
        m' := m' - {n};
      }
      todo := todo - {n};
    }
  }

  method DropQ(q: map<QIdx, PQ>, h: nat) returns (q': map<QIdx, PQ>)
    ensures q' == map k | k in q && k.n > h :: q[k]
  {
    q' := q;
    var todo := q.Keys;
    while todo != {}
      invariant todo <= q.Keys && q' == map k | k in q && (k in todo || k.n > h) :: q[k]
      decreases |todo|
    {
      var k :| k in todo;
      if k.n <= h {
        q' := q' - {k};
      }
      todo := todo - {k};
    }
  }

  /** moveWatermarks up to the resubmission of requests. */
  method Trim(s: ReplicaState, h: nat) returns (s': ReplicaState)
    ensures s' == MoveWatermarks(s, h)
  {
    var certs, reqs := DropCerts(s.certStore, s.reqStore, h);
    var checkpoints := DropCheckpoints(s.checkpointStore, h);
    var p := DropNumbers(s.pset, h);
    var q := DropQ(s.qset, h);
    var c := DropNumbers(s.chkpts, h - 1);
    assert c == map n | n in s.chkpts && n >= h :: s.chkpts[n];
    s' := s.(certStore := certs, reqStore := reqs, checkpointStore := checkpoints, pset := p, qset := q, chkpts := c, h := h);
  }

  // -------------------------------------------------------------- falling behind

  function CountFrom(vs: seq<nat>, m: nat): nat {
    if vs == [] then 0 else CountFrom(vs[..|vs| - 1], m) + if vs[|vs| - 1] >= m then 1 else 0
  }

  ghost predicate SortedUp(vs: seq<nat>) {
    forall i, j | 0 <= i < j < |vs| :: vs[i] <= vs[j]
  }

  lemma {:induction false} CountJoins(a: seq<nat>, b: seq<nat>, m: nat)
    ensures CountFrom(a + b, m) == CountFrom(a, m) + CountFrom(b, m)
  {
    if b == [] {
      assert a + b == a;
    } else {
      var k := |b| - 1;
      assert (a + b)[..|a| + k] == a + b[..k];
      CountJoins(a, b[..k], m);
    }
  }

  lemma CountSplits(vs: seq<nat>, k: nat, m: nat)
    requires k <= |vs|
    ensures CountFrom(vs, m) == CountFrom(vs[..k], m) + CountFrom(vs[k..], m)
  {
    assert vs == vs[..k] + vs[k..];
    CountJoins(vs[..k], vs[k..], m);
  }

  lemma {:induction false} CountAtMost(vs: seq<nat>, m: nat)
    ensures CountFrom(vs, m) <= |vs|
  {
    if vs != [] { CountAtMost(vs[..|vs| - 1], m); }
  }

  lemma {:induction false} CountAll(vs: seq<nat>, m: nat)
    requires forall i | 0 <= i < |vs| :: vs[i] >= m
    ensures CountFrom(vs, m) == |vs|
  {
    if vs != [] { CountAll(vs[..|vs| - 1], m); }
  }

  lemma {:induction false} CountNone(vs: seq<nat>, m: nat)
    requires forall i | 0 <= i < |vs| :: vs[i] < m
    ensures CountFrom(vs, m) == 0
  {
    if vs != [] { CountNone(vs[..|vs| - 1], m); }
  }

  /** In a sorted list, from place k on there are as many numbers as are at least the k-th, and
      fewer exceed it. */
  lemma RankOf(vs: seq<nat>, k: nat)
    requires SortedUp(vs) && k < |vs|
    ensures CountFrom(vs, vs[k]) >= |vs| - k
    ensures CountFrom(vs, vs[k] + 1) <= |vs| - k - 1
  {
    RankFrom(vs, k);
    RankAbove(vs, k);
  }

  lemma RankFrom(vs: seq<nat>, k: nat)
    requires SortedUp(vs) && k < |vs|
    ensures CountFrom(vs, vs[k]) >= |vs| - k
  {
    CountSplits(vs, k, vs[k]);
    var rest := vs[k..];
    forall i | 0 <= i < |rest| ensures rest[i] >= vs[k] { assert rest[i] == vs[k + i]; }
    CountAll(rest, vs[k]);
  }

  lemma RankAbove(vs: seq<nat>, k: nat)
    requires SortedUp(vs) && k < |vs|
    ensures CountFrom(vs, vs[k] + 1) <= |vs| - k - 1
  {
    CountSplits(vs, k + 1, vs[k] + 1);
    var low := vs[..k + 1];
    forall i | 0 <= i < |low| ensures low[i] < vs[k] + 1 { assert low[i] == vs[i]; }
    CountNone(low, vs[k] + 1);
    CountAtMost(vs[k + 1..], vs[k] + 1);
  }

  lemma InsertCounts(vs: seq<nat>, i: nat, x: nat, m: nat)
    requires i <= |vs|
    ensures CountFrom(vs[..i] + [x] + vs[i..], m) == CountFrom(vs, m) + if x >= m then 1 else 0
  {
    CountJoins(vs[..i] + [x], vs[i..], m);
    CountJoins(vs[..i], [x], m);
    CountSplits(vs, i, m);
    assert [x][..0] == [];
    assert CountFrom([x], m) == if x >= m then 1 else 0;
  }

  lemma InsertKeepsOrder(vs: seq<nat>, i: nat, x: nat)
    requires SortedUp(vs) && i <= |vs|
    requires (i > 0 ==> vs[i - 1] <= x) && forall j | i <= j < |vs| :: vs[j] > x
    ensures SortedUp(vs[..i] + [x] + vs[i..])
  {
    var ws := vs[..i] + [x] + vs[i..];
    forall j | 0 <= j < |ws| ensures ws[j] == if j < i then vs[j] else if j == i then x else vs[j - 1] {}
  }

  method InsertSorted(vs: seq<nat>, x: nat) returns (ws: seq<nat>)
    requires SortedUp(vs)
    ensures SortedUp(ws) && |ws| == |vs| + 1
    ensures forall m :: CountFrom(ws, m) == CountFrom(vs, m) + if x >= m then 1 else 0
  {
    var i := |vs|;
    while i > 0 && vs[i - 1] > x
      invariant 0 <= i <= |vs| && forall j | i <= j < |vs| :: vs[j] > x
    {
      i := i - 1;
    }
    ws := vs[..i] + [x] + vs[i..];
    InsertKeepsOrder(vs, i, x);
    forall m: nat ensures CountFrom(ws, m) == CountFrom(vs, m) + if x >= m then 1 else 0 {
      InsertCounts(vs, i, x, m);
    }
  }

  function ReportsFrom(reports: map<nat, nat>, ids: set<nat>, m: nat): set<nat>
    requires ids <= reports.Keys
  {
    set r | r in ids && reports[r] >= m
  }

  /** The recorded numbers, sorted. */
  method SortedReports(reports: map<nat, nat>) returns (vs: seq<nat>)
    ensures SortedUp(vs) && |vs| == |reports|
    ensures forall m :: CountFrom(vs, m) == |ReportsFrom(reports, reports.Keys, m)|
  {
    vs := [];
    var seen: set<nat> := {};
    while seen != reports.Keys
      invariant seen <= reports.Keys && SortedUp(vs) && |vs| == |seen|
      invariant forall m :: CountFrom(vs, m) == |ReportsFrom(reports, seen, m)|
      decreases |reports.Keys - seen|
    {
      var r :| r in reports.Keys - seen;
      vs := InsertSorted(vs, reports[r]);
      forall m: nat ensures |ReportsFrom(reports, seen + {r}, m)| == |ReportsFrom(reports, seen, m)| + if reports[r] >= m then 1 else 0 {
        assert ReportsFrom(reports, seen + {r}, m) == ReportsFrom(reports, seen, m) + if reports[r] >= m then {r} else {};
      }
      seen := seen + {r};
    }
    assert |reports| == |reports.Keys|;
  }

  /** The (f+1)-th largest recorded number. */
  method WeakHigh(reports: map<nat, nat>, f: nat) returns (m: nat)
    requires |reports| >= f + 1
    ensures |ReportsFrom(reports, reports.Keys, m)| >= f + 1
    ensures |ReportsFrom(reports, reports.Keys, m + 1)| <= f
  {
    var vs := SortedReports(reports);
    m := vs[|vs| - (f + 1)];
    RankOf(vs, |vs| - (f + 1));
  }

  /** m is the (f+1)-th largest of the reports. */
  ghost predicate WeakHighest(reports: map<nat, nat>, f: nat, m: nat) {
    |ReportsFrom(reports, reports.Keys, m)| >= f + 1 && |ReportsFrom(reports, reports.Keys, m + 1)| <= f
  }

  /** The low watermark jumped from t's to the (f+1)-th largest report, beyond t's window, and
      a starting point is now looked for. */
  ghost predicate Jumped(cfg: Config, t: ReplicaState, reports: map<nat, nat>, s: ReplicaState) {
    WindowPassed(cfg, t, reports, s.h) && s.skipInProgress && s.view == t.view
  }

  /** m lies beyond the window of t and is the (f+1)-th largest of the reports. */
  ghost predicate WindowPassed(cfg: Config, t: ReplicaState, reports: map<nat, nat>, m: nat) {
    m > t.h + cfg.L && WeakHighest(reports, cfg.f, m)
  }

  /** At least f+1 reports lie beyond the high watermark. */
  ghost predicate Beyond(reports: map<nat, nat>, f: nat, high: nat) {
    |ReportsFrom(reports, reports.Keys, high + 1)| >= f + 1
  }

  /** The recorded numbers once checkpoint c is recorded too. */
  function HighReports(s: ReplicaState, c: Checkpoint): map<nat, nat> { s.hChkpts[c.replicaId := c.seqNo] }

  /** At least f+1 replicas last reported a checkpoint beyond the high watermark, c among them or at it. */
  ghost predicate OutOfRange(cfg: Config, s: ReplicaState, c: Checkpoint) {
    c.seqNo >= s.h + cfg.L && Beyond(HighReports(s, c), cfg.f, s.h + cfg.L)
  }

  lemma FewReports(reports: map<nat, nat>, f: nat, m: nat)
    requires |reports| <= f
    ensures |ReportsFrom(reports, reports.Keys, m)| <= f
  {
    SubsetSize(ReportsFrom(reports, reports.Keys, m), reports.Keys);
    assert |reports| == |reports.Keys|;
  }

  lemma RankDecides(reports: map<nat, nat>, f: nat, m: nat, high: nat)
    requires WeakHighest(reports, f, m)
    ensures m > high <==> |ReportsFrom(reports, reports.Keys, high + 1)| >= f + 1
  {
    if m > high {
      SubsetSize(ReportsFrom(reports, reports.Keys, m), ReportsFrom(reports, reports.Keys, high + 1));
    } else {
      SubsetSize(ReportsFrom(reports, reports.Keys, high + 1), ReportsFrom(reports, reports.Keys, m + 1));
    }
  }

  /** Where to jump: the (f+1)-th largest report if it exceeds the high watermark, else 0. */
  method JumpTarget(reports: map<nat, nat>, f: nat, high: nat) returns (m: nat)
    ensures m > high <==> Beyond(reports, f, high)
    ensures m > high ==> WeakHighest(reports, f, m)
  {
    if |reports| < f + 1 {
      FewReports(reports, f, high + 1);
      return 0;
    }
    m := WeakHigh(reports, f);
    RankDecides(reports, f, m, high);
  }

  /** The reports below the high watermark, which are dropped once there are f+1 in all. */
  function Stale(reports: map<nat, nat>, f: nat, high: nat): set<nat> {
    if |reports| < f + 1 then {} else set r | r in reports && reports[r] < high
  }

  function WithoutStale(cfg: Config, s: ReplicaState): ReplicaState {
    s.(hChkpts := s.hChkpts - Stale(s.hChkpts, cfg.f, s.h + cfg.L))
  }

  /** What is recorded after checkpoint c when the watermark does not jump. */
  function WithReport(cfg: Config, s: ReplicaState, c: Checkpoint): ReplicaState {
    if c.seqNo < s.h + cfg.L then s.(hChkpts := s.hChkpts - {c.replicaId})
    else WithoutStale(cfg, s.(hChkpts := HighReports(s, c)))
  }

  lemma ReportsKeepWindow(s: ReplicaState, reports: map<nat, nat>)
    ensures s.(hChkpts := reports).h == s.h && s.(hChkpts := reports).view == s.view
  {
  }

  lemma ReportKeepsWindow(cfg: Config, s: ReplicaState, c: Checkpoint)
    ensures WithReport(cfg, s, c).h == s.h && WithReport(cfg, s, c).view == s.view
  {
    if c.seqNo < s.h + cfg.L {
      ReportsKeepWindow(s, s.hChkpts - {c.replicaId});
    } else {
      var t := s.(hChkpts := HighReports(s, c));
      ReportsKeepWindow(s, HighReports(s, c));
      ReportsKeepWindow(t, t.hChkpts - Stale(t.hChkpts, cfg.f, t.h + cfg.L));
    }
  }

  lemma StaleIrrelevant(cfg: Config, s: ReplicaState, m: nat)
    requires WindowPassed(cfg, s, s.hChkpts, m)
    ensures CanFallBehind(cfg, WithoutStale(cfg, s), m)
  {
    var s' := WithoutStale(cfg, s);
    assert ReportedFrom(s', m) == ReportsFrom(s.hChkpts, s.hChkpts.Keys, m);
  }

  /** Where a report beyond the window sends the replica, if anywhere; the stale reports dropped
      on the way do not change the answer. */
  method Target(cfg: Config, s: ReplicaState, c: Checkpoint) returns (m: Option<nat>)
    requires c.seqNo >= s.h + cfg.L
    ensures m.Some? <==> OutOfRange(cfg, s, c)
    ensures m.Some? ==> WindowPassed(cfg, s, HighReports(s, c), m.value) && CanFallBehind(cfg, WithReport(cfg, s, c), m.value)
  {
    var k := JumpTarget(HighReports(s, c), cfg.f, s.h + cfg.L);
    if k > s.h + cfg.L {
      StaleIrrelevant(cfg, s.(hChkpts := HighReports(s, c)), k);
      return Some(k);
    }
    return None;
  }
}
