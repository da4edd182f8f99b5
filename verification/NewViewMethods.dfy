/** The two functions of viewchange.go as loops, proved against NewViewSelection. */
module NewViewMethods {
  import opened Common
  import opened PbftTypes
  import opened NewViewSelection

  // ---------------------------------------------------------------- counters

  lemma VotesPrefix(vset: seq<ViewChange>, i: nat, weight: ViewChange -> nat)
    requires i < |vset|
    ensures Votes(vset[..i + 1], weight) == Votes(vset[..i], weight) + weight(vset[i])
  {
    assert vset[..i + 1][..i] == vset[..i];
  }

  method CountA1(vset: seq<ViewChange>, n: nat, em: PQ) returns (quorum: nat)
    ensures quorum == Votes(vset, A1Weight(n, em))
  {
    quorum := 0;
    for i := 0 to |vset|
      invariant quorum == Votes(vset[..i], A1Weight(n, em))
    {
      VotesPrefix(vset, i, A1Weight(n, em));
      var mp := vset[i];
      var ok := mp.h < n;
      if ok {
        for j := 0 to |mp.pset|
          invariant ok <==> forall p | p in mp.pset[..j] && p.seqNo == n ::
                              p.view < em.view || (p.view == em.view && p.digest == em.digest)
        {
          var emp := mp.pset[j];
          assert mp.pset[..j + 1] == mp.pset[..j] + [emp];
          if n == emp.seqNo && !(emp.view < em.view || (emp.view == em.view && emp.digest == em.digest)) {
            ok := false;
          }
        }
        assert mp.pset[..|mp.pset|] == mp.pset;
      }
      if ok {
        quorum := quorum + 1;
      }
    }
    assert vset[..|vset|] == vset;
  }

  method CountA2(vset: seq<ViewChange>, n: nat, em: PQ) returns (quorum: nat)
    ensures quorum == Votes(vset, A2Weight(n, em))
  {
    quorum := 0;
    for i := 0 to |vset|
      invariant quorum == Votes(vset[..i], A2Weight(n, em))
    {
      VotesPrefix(vset, i, A2Weight(n, em));
      var qset := vset[i].qset;
      for j := 0 to |qset|
        invariant quorum == Votes(vset[..i], A2Weight(n, em)) + QCount(qset[..j], n, em)
      {
        var emp := qset[j];
        assert qset[..j + 1][..j] == qset[..j];
        if n == emp.seqNo && emp.view >= em.view && emp.digest == em.digest {
          quorum := quorum + 1;
        }
      }
      assert qset[..|qset|] == qset;
    }
    assert vset[..|vset|] == vset;
  }

  method CountNull(vset: seq<ViewChange>, n: nat) returns (quorum: nat)
    ensures quorum == Votes(vset, NullWeight(n))
  {
    quorum := 0;
    for i := 0 to |vset|
      invariant quorum == Votes(vset[..i], NullWeight(n))
    {
      VotesPrefix(vset, i, NullWeight(n));
      var m := vset[i];
      var none := true;
      for j := 0 to |m.pset|
        invariant none <==> forall p | p in m.pset[..j] :: p.seqNo != n
      {
        assert m.pset[..j + 1] == m.pset[..j] + [m.pset[j]];
        if m.pset[j].seqNo == n {
          none := false;
        }
      }
      assert m.pset[..|m.pset|] == m.pset;
      if none {
        quorum := quorum + 1;
      }
    }
    assert vset[..|vset|] == vset;
  }

  // -------------------------------------------------- assignSequenceNumbers

  lemma PEntriesNext(vset: seq<ViewChange>, i: nat)
    requires i < |vset|
    ensures PEntries(vset[..i + 1]) == PEntries(vset[..i]) + vset[i].pset
  {
    assert vset[..i + 1][..i] == vset[..i];
  }

  lemma {:induction false} PEntriesPrefix(vset: seq<ViewChange>, i: nat)
    requires i <= |vset|
    ensures PEntries(vset[..i]) <= PEntries(vset)
    decreases |vset| - i
  {
    if i == |vset| {
      assert vset[..i] == vset;
    } else {
      PEntriesNext(vset, i);
      PEntriesPrefix(vset, i + 1);
    }
  }

  /** The body of the loop over n: the first P entry that meets A1 and A2, else
      the null request, else nothing. */
  method SelectRequest(cfg: Config, vset: seq<ViewChange>, n: nat) returns (c: Choice)
    ensures c == Select(cfg, vset, n)
  {
    for i := 0 to |vset|
      invariant forall em | em in PEntries(vset[..i]) :: !Passes(cfg, vset, n, em)
    {
      PEntriesNext(vset, i);
      PEntriesPrefix(vset, i + 1);
      ghost var seen := PEntries(vset[..i]);
      var pset := vset[i].pset;
      for j := 0 to |pset|
        invariant forall em | em in seen + pset[..j] :: !Passes(cfg, vset, n, em)
      {
        var em := pset[j];
        var a1 := CountA1(vset, n, em);
        if a1 >= cfg.IntersectionQuorum() {
          var a2 := CountA2(vset, n, em);
          if a2 >= cfg.f + 1 {
            SkipPrefix(cfg, vset, n, seen + pset[..j], em);
            return Chosen(em.digest);
          }
        }
        assert pset[..j + 1] == pset[..j] + [em];
      }
      assert pset[..|pset|] == pset;
    }
    assert vset[..|vset|] == vset;
    SelectNone(cfg, vset, n);
    var quorum := CountNull(vset, n);
    c := if quorum >= cfg.IntersectionQuorum() then NullRequest else Stuck;
  }

  lemma SkipPrefix(cfg: Config, vset: seq<ViewChange>, n: nat, before: seq<PQ>, em: PQ)
    requires before + [em] <= PEntries(vset)
    requires forall e | e in before :: !Passes(cfg, vset, n, e)
    requires Passes(cfg, vset, n, em)
    ensures Select(cfg, vset, n) == Chosen(em.digest)
  {
    var i := |before|;
    assert (before + [em])[i] == PEntries(vset)[i];
    assert forall j | 0 <= j < i :: PEntries(vset)[j] == (before + [em])[j] == before[j];
    assert FirstPassing(cfg, vset, n, i);
    SelectFirst(cfg, vset, n, i);
  }

  /** `list` holds the selection for the numbers h+1..n-1. */
  ghost predicate Filled(cfg: Config, vset: seq<ViewChange>, h: nat, n: nat, list: map<nat, Digest>) {
    && (forall k :: k in list <==> h < k < n)
    && (forall k | k in list :: !Select(cfg, vset, k).Stuck? && list[k] == DigestOf(Select(cfg, vset, k)))
  }

  /** Above the last chosen number there are only null requests, so all up to it is kept. */
  lemma KeptAt(cfg: Config, vset: seq<ViewChange>, h: nat, list: map<nat, Digest>, top: nat, k: nat)
    requires Filled(cfg, vset, h, h + cfg.L + 1, list) && top == LastChosen(cfg, vset, h, cfg.L)
    ensures k in list && !(k > top && list[k] == Null) <==> h < k <= top && k <= h + cfg.L
    ensures k in list ==> list[k] == DigestOf(Select(cfg, vset, k))
  {
    if k in list && k > top {
      assert !Select(cfg, vset, k).Chosen?;
    }
  }

  lemma NothingStuck(cfg: Config, vset: seq<ViewChange>, h: nat, list: map<nat, Digest>)
    requires Filled(cfg, vset, h, h + cfg.L + 1, list)
    ensures !SomeStuck(cfg, vset, h, cfg.L)
  {
    forall n | h < n <= h + cfg.L ensures !Select(cfg, vset, n).Stuck? {
      assert n in list;
    }
  }

  lemma PruneTopNulls(cfg: Config, vset: seq<ViewChange>, h: nat, list: map<nat, Digest>, top: nat)
    requires Filled(cfg, vset, h, h + cfg.L + 1, list) && top == LastChosen(cfg, vset, h, cfg.L)
    ensures Some(map k | k in list && !(k > top && list[k] == Null) :: list[k]) == Assignment(cfg, vset, h)
  {
    NothingStuck(cfg, vset, h, list);
    var kept := map k | k in list && !(k > top && list[k] == Null) :: list[k];
    var want := map n: nat | h < n <= top && n <= h + cfg.L :: DigestOf(Select(cfg, vset, n));
    forall k: nat ensures k in kept <==> k in want { KeptAt(cfg, vset, h, list, top, k); }
    forall k | k in kept ensures kept[k] == want[k] { KeptAt(cfg, vset, h, list, top, k); }
    assert kept == want;
  }

  lemma FillNext(cfg: Config, vset: seq<ViewChange>, h: nat, n: nat, list: map<nat, Digest>, c: Choice)
    requires h < n && Filled(cfg, vset, h, n, list) && c == Select(cfg, vset, n) && !c.Stuck?
    ensures Filled(cfg, vset, h, n + 1, list[n := DigestOf(c)])
    ensures LastChosen(cfg, vset, h, n - h) == if c.Chosen? then n else LastChosen(cfg, vset, h, n - h - 1)
  {
  }

  lemma StuckStops(cfg: Config, vset: seq<ViewChange>, h: nat, n: nat)
    requires h < n <= h + cfg.L && Select(cfg, vset, n).Stuck?
    ensures Assignment(cfg, vset, h) == None
  {
    assert SomeStuck(cfg, vset, h, cfg.L);
  }

  /** assignSequenceNumbers. */
  method AssignSequenceNumbers(cfg: Config, vset: seq<ViewChange>, h: nat) returns (msgList: Option<map<nat, Digest>>)
    ensures msgList == Assignment(cfg, vset, h)
  {
    var list: map<nat, Digest> := map[];
    var maxN := h + 1;
    var n := h + 1;
    while n <= h + cfg.L
      invariant h < n <= h + cfg.L + 1
      invariant maxN == LastChosen(cfg, vset, h, n - h - 1)
      invariant Filled(cfg, vset, h, n, list)
    {
      var c := SelectRequest(cfg, vset, n);
      if c.Stuck? {
        StuckStops(cfg, vset, h, n);
        return None;
      }
      FillNext(cfg, vset, h, n, list, c);
      list := list[n := if c.Chosen? then c.digest else Null];
      if c.Chosen? {
        maxN := n;
      }
      n := n + 1;
    }
    assert n == h + cfg.L + 1;
    PruneTopNulls(cfg, vset, h, list, maxN);
    msgList := Some(map k | k in list && !(k > maxN && list[k] == Null) :: list[k]);
  }

  // ------------------------------------------------- selectInitialCheckpoint

  function Listed(groups: map<StableId, seq<ViewChange>>, c: StableId): seq<ViewChange> {
    if c in groups then groups[c] else []
  }

  /** m once for every mention of c in the C entries `cset`. */
  function MentionsIn(m: ViewChange, cset: seq<StableId>, c: StableId): (l: seq<ViewChange>)
    ensures |l| == Occurrences(cset, c)
  {
    if cset == [] then []
    else MentionsIn(m, cset[..|cset| - 1], c) + if cset[|cset| - 1] == c then [m] else []
  }

  function Mentions(vset: seq<ViewChange>, c: StableId): seq<ViewChange> {
    if vset == [] then []
    else var m := vset[|vset| - 1]; Mentions(vset[..|vset| - 1], c) + MentionsIn(m, m.cset, c)
  }

  function LowCount(list: seq<ViewChange>, n: nat): nat {
    if list == [] then 0
    else LowCount(list[..|list| - 1], n) + if list[|list| - 1].h <= n then 1 else 0
  }

  lemma LowCountAppend(a: seq<ViewChange>, b: seq<ViewChange>, n: nat)
    ensures LowCount(a + b, n) == LowCount(a, n) + LowCount(b, n)
  {
    if b == [] {
      assert a + b == a;
    } else {
      var k := |b| - 1;
      assert (a + b)[..|a + b| - 1] == a + b[..k];
      LowCountAppend(a, b[..k], n);
    }
  }

  lemma LowCountMentionsIn(m: ViewChange, cset: seq<StableId>, c: StableId, n: nat)
    ensures LowCount(MentionsIn(m, cset, c), n) == if m.h <= n then Occurrences(cset, c) else 0
  {
    if cset != [] {
      var before := MentionsIn(m, cset[..|cset| - 1], c);
      LowCountMentionsIn(m, cset[..|cset| - 1], c, n);
      LowCountAppend(before, [m], n);
      assert before + [] == before;
      assert LowCount([m], n) == LowCount([m][..0], n) + if m.h <= n then 1 else 0;
    }
  }

  lemma {:induction false} MentionsCount(vset: seq<ViewChange>, c: StableId)
    ensures |Mentions(vset, c)| == Votes(vset, CarryWeight(c))
    ensures LowCount(Mentions(vset, c), c.seqNo) == Votes(vset, LowCarryWeight(c))
  {
    if vset != [] {
      var m := vset[|vset| - 1];
      MentionsCount(vset[..|vset| - 1], c);
      LowCountAppend(Mentions(vset[..|vset| - 1], c), MentionsIn(m, m.cset, c), c.seqNo);
      LowCountMentionsIn(m, m.cset, c, c.seqNo);
    }
  }

  /** `groups` lists, for every checkpoint, the view-changes that mention it. */
  ghost predicate Grouped(groups: map<StableId, seq<ViewChange>>, vset: seq<ViewChange>) {
    forall c {:trigger Listed(groups, c)} :: Listed(groups, c) == Mentions(vset, c)
  }

  /** ... with the first C entries `part` of the next view-change m as well. */
  ghost predicate GroupedPart(groups: map<StableId, seq<ViewChange>>, vset: seq<ViewChange>, m: ViewChange, part: seq<StableId>) {
    forall c {:trigger Listed(groups, c)} :: Listed(groups, c) == Mentions(vset, c) + MentionsIn(m, part, c)
  }

  lemma GroupNext(groups: map<StableId, seq<ViewChange>>, vset: seq<ViewChange>, m: ViewChange, part: seq<StableId>, c: StableId)
    requires GroupedPart(groups, vset, m, part)
    ensures GroupedPart(groups[c := Listed(groups, c) + [m]], vset, m, part + [c])
  {
    var groups' := groups[c := Listed(groups, c) + [m]];
    assert (part + [c])[..|part|] == part;
    forall d ensures Listed(groups', d) == Mentions(vset, d) + MentionsIn(m, part + [c], d) {
      assert Listed(groups, d) == Mentions(vset, d) + MentionsIn(m, part, d);
      assert MentionsIn(m, part + [c], d) == MentionsIn(m, part, d) + if c == d then [m] else [];
    }
  }

  method GroupCheckpoints(vset: seq<ViewChange>) returns (checkpoints: map<StableId, seq<ViewChange>>)
    ensures Grouped(checkpoints, vset)
  {
    checkpoints := map[];
    for i := 0 to |vset|
      invariant Grouped(checkpoints, vset[..i])
    {
      var vc := vset[i];
      for j := 0 to |vc.cset|
        invariant GroupedPart(checkpoints, vset[..i], vc, vc.cset[..j])
      {
        GroupNext(checkpoints, vset[..i], vc, vc.cset[..j], vc.cset[j]);
        assert vc.cset[..j + 1] == vc.cset[..j] + [vc.cset[j]];
        checkpoints := checkpoints[vc.cset[j] := Listed(checkpoints, vc.cset[j]) + [vc]];
      }
      assert vc.cset[..|vc.cset|] == vc.cset;
      assert vset[..i + 1][..i] == vset[..i];
    }
    assert vset[..|vset|] == vset;
  }

  method CountLow(list: seq<ViewChange>, n: nat) returns (quorum: nat)
    ensures quorum == LowCount(list, n)
  {
    quorum := 0;
    for i := 0 to |list|
      invariant quorum == LowCount(list[..i], n)
    {
      assert list[..i + 1][..i] == list[..i];
      if list[i].h <= n {
        quorum := quorum + 1;
      }
    }
    assert list[..|list|] == list;
  }

  ghost predicate GoodGroup(cfg: Config, groups: map<StableId, seq<ViewChange>>, c: StableId) {
    c in groups && |groups[c]| > cfg.f && LowCount(groups[c], c.seqNo) >= cfg.IntersectionQuorum()
  }

  lemma GoodGroupQualifies(cfg: Config, groups: map<StableId, seq<ViewChange>>, vset: seq<ViewChange>, c: StableId)
    requires Grouped(groups, vset)
    ensures GoodGroup(cfg, groups, c) <==> Qualifies(cfg, vset, c)
  {
    assert Listed(groups, c) == Mentions(vset, c);
    MentionsCount(vset, c);
  }

  /** selectInitialCheckpoint; `todo` is visited in an arbitrary order, as a Go map is. */
  method SelectInitialCheckpoint(cfg: Config, vset: seq<ViewChange>) returns (checkpoint: StableId, ok: bool)
    ensures ok ==> InitialCheckpoint(cfg, vset, checkpoint)
    ensures !ok ==> forall c :: !Qualifies(cfg, vset, c)
  {
    checkpoint, ok := StableId(0, ""), false;
    var checkpoints := GroupCheckpoints(vset);
    var todo := checkpoints.Keys;
    while todo != {}
      invariant todo <= checkpoints.Keys
      invariant ok ==> GoodGroup(cfg, checkpoints, checkpoint)
      invariant !ok ==> checkpoint.seqNo == 0
      invariant forall c | GoodGroup(cfg, checkpoints, c) && c !in todo :: ok && c.seqNo <= checkpoint.seqNo
    {
      var idx :| idx in todo;
      todo := todo - {idx};
      var vcList := checkpoints[idx];
      if |vcList| > cfg.f {
        var quorum := CountLow(vcList, idx.seqNo);
        if quorum >= cfg.IntersectionQuorum() && checkpoint.seqNo <= idx.seqNo {
          checkpoint, ok := idx, true;
        }
      }
    }
    forall c ensures GoodGroup(cfg, checkpoints, c) <==> Qualifies(cfg, vset, c) {
      GoodGroupQualifies(cfg, checkpoints, vset, c);
    }
  }

  /** The checks of processNewView on a new-view: its X set is the one its V set leads to. */
  method CheckNewView(cfg: Config, nv: NewView) returns (cp: StableId, ok: bool)
    ensures ok ==> InitialCheckpoint(cfg, nv.vset, cp) && Assignment(cfg, nv.vset, cp.seqNo) == Some(nv.xset)
    ensures !ok ==> forall c :: !(InitialCheckpoint(cfg, nv.vset, c) && Assignment(cfg, nv.vset, c.seqNo) == Some(nv.xset))
  {
    cp, ok := SelectInitialCheckpoint(cfg, nv.vset);
    if !ok {
      return;
    }
    var msgList := AssignSequenceNumbers(cfg, nv.vset, cp.seqNo);
    ok := msgList == Some(nv.xset);
    forall c | InitialCheckpoint(cfg, nv.vset, c) ensures c.seqNo == cp.seqNo {
      assert Qualifies(cfg, nv.vset, c) && Qualifies(cfg, nv.vset, cp);
    }
  }

  /** The start and the X set a V set leads to, if there are any. */
  method ComposeNewView(cfg: Config, vset: seq<ViewChange>) returns (cp: StableId, xset: Option<map<nat, Digest>>)
    ensures xset.Some? ==> InitialCheckpoint(cfg, vset, cp) && Assignment(cfg, vset, cp.seqNo) == xset
    ensures xset.None? ==> forall c | InitialCheckpoint(cfg, vset, c) :: Assignment(cfg, vset, c.seqNo).None?
  {
    var ok;
    cp, ok := SelectInitialCheckpoint(cfg, vset);
    if !ok {
      return cp, None;
    }
    xset := AssignSequenceNumbers(cfg, vset, cp.seqNo);
    forall c | InitialCheckpoint(cfg, vset, c) ensures c.seqNo == cp.seqNo {
      assert Qualifies(cfg, vset, c) && Qualifies(cfg, vset, cp);
    }
  }
}
