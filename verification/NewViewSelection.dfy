/** How a new view starts: the initial checkpoint and the requests carried over
    (selectInitialCheckpoint and assignSequenceNumbers). */
module NewViewSelection {
  import opened Common
  import opened PbftTypes

  // ---------------------------------------------------------------- counting

  /** The loops of both functions add up a weight over the view-changes of the V set. */
  ghost function Votes(vset: seq<ViewChange>, weight: ViewChange -> nat): nat {
    if vset == [] then 0
    else Votes(vset[..|vset| - 1], weight) + weight(vset[|vset| - 1])
  }

  /** The replicas that contribute to the sum. */
  ghost function Voters(vset: seq<ViewChange>, weight: ViewChange -> nat): set<nat> {
    set m | m in vset && weight(m) > 0 :: m.replicaId
  }

  /** Nobody contributes twice: neither by two view-changes nor by one of weight above 1. */
  ghost predicate OneVoteEach(vset: seq<ViewChange>, weight: ViewChange -> nat) {
    && (forall i | 0 <= i < |vset| :: weight(vset[i]) <= 1)
    && (forall i, j | 0 <= i < j < |vset| && weight(vset[i]) > 0 && weight(vset[j]) > 0 ::
          vset[i].replicaId != vset[j].replicaId)
  }

  lemma VotersInit(vset: seq<ViewChange>, weight: ViewChange -> nat)
    requires vset != []
    ensures var k := |vset| - 1;
            Voters(vset, weight) ==
            Voters(vset[..k], weight) + (if weight(vset[k]) > 0 then {vset[k].replicaId} else {})
  {
    var k := |vset| - 1;
    assert vset == vset[..k] + [vset[k]];
    forall r | r in Voters(vset, weight)
      ensures r in Voters(vset[..k], weight) + (if weight(vset[k]) > 0 then {vset[k].replicaId} else {})
    {
      var m :| m in vset && weight(m) > 0 && m.replicaId == r;
      assert m in vset[..k] || m == vset[k];
    }
  }

  lemma OneVoteEachInit(vset: seq<ViewChange>, weight: ViewChange -> nat)
    requires vset != []
    ensures var k := |vset| - 1;
            OneVoteEach(vset, weight) <==>
            && OneVoteEach(vset[..k], weight) && weight(vset[k]) <= 1
            && (weight(vset[k]) > 0 ==> vset[k].replicaId !in Voters(vset[..k], weight))
  {
    var k := |vset| - 1;
    var init, last := vset[..k], vset[k];
    if OneVoteEach(vset, weight) && weight(last) > 0 {
      forall m | m in init && weight(m) > 0 ensures m.replicaId != last.replicaId {
        var i :| 0 <= i < k && init[i] == m;
        assert vset[i] == m;
      }
    }
    if OneVoteEach(init, weight) && weight(last) <= 1 && (weight(last) > 0 ==> last.replicaId !in Voters(init, weight)) {
      forall i, j | 0 <= i < j < |vset| && weight(vset[i]) > 0 && weight(vset[j]) > 0
        ensures vset[i].replicaId != vset[j].replicaId
      {
        assert init[i] in init && vset[i].replicaId in Voters(init, weight);
        if j < k { assert init[j].replicaId != init[i].replicaId; }
      }
      forall i | 0 <= i < |vset| ensures weight(vset[i]) <= 1 {
        if i < k { assert weight(init[i]) <= 1; }
      }
    }
  }

  /** The code's counters count distinct replicas exactly when nobody contributes
      twice; otherwise they overstate the quorum. */
  lemma {:induction false} CountsDistinctReplicasIff(vset: seq<ViewChange>, weight: ViewChange -> nat)
    ensures Votes(vset, weight) >= |Voters(vset, weight)|
    ensures Votes(vset, weight) == |Voters(vset, weight)| <==> OneVoteEach(vset, weight)
  {
    if vset == [] {
      assert Voters(vset, weight) == {};
    } else {
      CountsDistinctReplicasIff(vset[..|vset| - 1], weight);
      VotersInit(vset, weight);
      OneVoteEachInit(vset, weight);
    }
  }

  /** One view-change per replica. */
  ghost predicate DistinctReplicas(vset: seq<ViewChange>) {
    forall i, j | 0 <= i < j < |vset| :: vset[i].replicaId != vset[j].replicaId
  }

  // --------------------------------------------------- the initial checkpoint

  function Occurrences(cset: seq<StableId>, c: StableId): nat {
    if cset == [] then 0
    else Occurrences(cset[..|cset| - 1], c) + if cset[|cset| - 1] == c then 1 else 0
  }

  /** Every mention in a C set counts, so a repeated entry counts again. */
  ghost function CarryWeight(c: StableId): ViewChange -> nat {
    (m: ViewChange) => Occurrences(m.cset, c)
  }

  ghost function LowCarryWeight(c: StableId): ViewChange -> nat {
    (m: ViewChange) => if m.h <= c.seqNo then Occurrences(m.cset, c) else 0
  }

  /** Carried often enough, by view-changes whose low watermark does not exceed it. */
  ghost predicate Qualifies(cfg: Config, vset: seq<ViewChange>, c: StableId) {
    && Votes(vset, CarryWeight(c)) > cfg.f
    && Votes(vset, LowCarryWeight(c)) >= cfg.IntersectionQuorum()
  }

  /** A highest qualifying checkpoint. */
  ghost predicate InitialCheckpoint(cfg: Config, vset: seq<ViewChange>, c: StableId) {
    && Qualifies(cfg, vset, c)
    && forall d :: Qualifies(cfg, vset, d) ==> d.seqNo <= c.seqNo
  }

  // ------------------------------------------------------- carried requests

  predicate A1Holds(m: ViewChange, n: nat, em: PQ) {
    && m.h < n
    && forall p | p in m.pset && p.seqNo == n ::
         p.view < em.view || (p.view == em.view && p.digest == em.digest)
  }

  predicate QMatches(q: PQ, n: nat, em: PQ) {
    q.seqNo == n && q.view >= em.view && q.digest == em.digest
  }

  function QCount(qset: seq<PQ>, n: nat, em: PQ): nat {
    if qset == [] then 0
    else QCount(qset[..|qset| - 1], n, em) + if QMatches(qset[|qset| - 1], n, em) then 1 else 0
  }

  predicate NoPEntry(m: ViewChange, n: nat) {
    forall p | p in m.pset :: p.seqNo != n
  }

  ghost function A1Weight(n: nat, em: PQ): ViewChange -> nat {
    (m: ViewChange) => if A1Holds(m, n, em) then 1 else 0
  }

  ghost function A2Weight(n: nat, em: PQ): ViewChange -> nat {
    (m: ViewChange) => QCount(m.qset, n, em)
  }

  ghost function NullWeight(n: nat): ViewChange -> nat {
    (m: ViewChange) => if NoPEntry(m, n) then 1 else 0
  }

  /** Conditions A1 and A2 for the P entry `em` at number n. The entry's own
      sequence number is not looked at. */
  ghost predicate Passes(cfg: Config, vset: seq<ViewChange>, n: nat, em: PQ) {
    && Votes(vset, A1Weight(n, em)) >= cfg.IntersectionQuorum()
    && Votes(vset, A2Weight(n, em)) >= cfg.f + 1
  }

  ghost predicate NullQuorum(cfg: Config, vset: seq<ViewChange>, n: nat) {
    Votes(vset, NullWeight(n)) >= cfg.IntersectionQuorum()
  }

  /** All P entries, in the order the loops visit them. */
  function PEntries(vset: seq<ViewChange>): seq<PQ> {
    if vset == [] then [] else PEntries(vset[..|vset| - 1]) + vset[|vset| - 1].pset
  }

  datatype Choice = Chosen(digest: Digest) | NullRequest | Stuck

  ghost predicate FirstPassing(cfg: Config, vset: seq<ViewChange>, n: nat, i: nat) {
    && i < |PEntries(vset)|
    && Passes(cfg, vset, n, PEntries(vset)[i])
    && forall j | 0 <= j < i :: !Passes(cfg, vset, n, PEntries(vset)[j])
  }

  ghost predicate SomePasses(cfg: Config, vset: seq<ViewChange>, n: nat) {
    exists i: nat :: FirstPassing(cfg, vset, n, i)
  }

  /** What is selected for number n. */
  ghost function Select(cfg: Config, vset: seq<ViewChange>, n: nat): Choice {
    if SomePasses(cfg, vset, n) then
      var i: nat :| FirstPassing(cfg, vset, n, i);
      Chosen(PEntries(vset)[i].digest)
    else if NullQuorum(cfg, vset, n) then NullRequest
    else Stuck
  }

  lemma SelectFirst(cfg: Config, vset: seq<ViewChange>, n: nat, i: nat)
    requires FirstPassing(cfg, vset, n, i)
    ensures Select(cfg, vset, n) == Chosen(PEntries(vset)[i].digest)
  {
    assert SomePasses(cfg, vset, n);
    var j: nat :| FirstPassing(cfg, vset, n, j) && Select(cfg, vset, n) == Chosen(PEntries(vset)[j].digest);
    var ps := PEntries(vset);
    assert ps[i].digest == ps[j].digest by {
      var k := if i < j then i else j;
      assert Passes(cfg, vset, n, ps[k]);
    }
  }

  lemma SelectNone(cfg: Config, vset: seq<ViewChange>, n: nat)
    requires forall em | em in PEntries(vset) :: !Passes(cfg, vset, n, em)
    ensures Select(cfg, vset, n) == if NullQuorum(cfg, vset, n) then NullRequest else Stuck
  {
    forall i: nat ensures !FirstPassing(cfg, vset, n, i) {
      assert i < |PEntries(vset)| ==> PEntries(vset)[i] in PEntries(vset);
    }
  }

  /** The last number of h+1..h+k that is not left to the null request, h+1 if there is none. */
  ghost function LastChosen(cfg: Config, vset: seq<ViewChange>, h: nat, k: nat): (r: nat)
    ensures h < r && (k >= 1 ==> r <= h + k)
    ensures forall n | h < n <= h + k && Select(cfg, vset, n).Chosen? :: n <= r
    ensures r == h + 1 || (r <= h + k && Select(cfg, vset, r).Chosen?)
  {
    if k == 0 then h + 1
    else if Select(cfg, vset, h + k).Chosen? then h + k
    else LastChosen(cfg, vset, h, k - 1)
  }

  ghost predicate SomeStuck(cfg: Config, vset: seq<ViewChange>, h: nat, k: nat) {
    exists n | h < n <= h + k :: Select(cfg, vset, n).Stuck?
  }

  ghost function DigestOf(c: Choice): Digest {
    match c
    case Chosen(d) => d
    case NullRequest => Null
    case Stuck => Null
  }

  /** The X set of the new view that starts above h, or None when some number of
      the window meets neither rule. */
  ghost function Assignment(cfg: Config, vset: seq<ViewChange>, h: nat): Option<map<nat, Digest>> {
    if SomeStuck(cfg, vset, h, cfg.L) then None
    else
      var top := LastChosen(cfg, vset, h, cfg.L);
      Some(map n: nat | h < n <= top && n <= h + cfg.L :: DigestOf(Select(cfg, vset, n)))
  }
}
