/** Configuration, messages and quorum arithmetic of the PBFT core. */
module PbftTypes {
  import opened Common

  datatype Request = Request(payload: string, replicaId: nat)

  /** A request digest under an ideal hash: `HashOf` is collision free, the empty
      string is `Null`, and `Unmatched` is any text that is the hash of no request. */
  datatype Digest = Null | HashOf(request: Request) | Unmatched(text: string)

  /** general.N, general.f, general.K and L = logmultiplier * K. */
  datatype Config = Config(N: nat, f: nat, K: nat, L: nat) {

    /** What newPbftCore insists on (it panics otherwise); K is a divisor. */
    predicate Valid() { N >= 3 * f + 1 && K >= 1 }

    function IntersectionQuorum(): nat { (N + f + 2) / 2 }

    function AllCorrectReplicasQuorum(): int { N - f }

    function Primary(v: nat): (p: nat)
      requires Valid()
      ensures p < N
    {
      v % N
    }
  }

  datatype PrePrepare = PrePrepare(view: nat, seqNo: nat, digest: Digest, request: Option<Request>, replicaId: nat)
  datatype Prepare = Prepare(view: nat, seqNo: nat, digest: Digest, replicaId: nat)
  datatype Commit = Commit(view: nat, seqNo: nat, digest: Digest, replicaId: nat)
  datatype Checkpoint = Checkpoint(seqNo: nat, replicaId: nat, id: string)

  /** An element of a view-change's C set. */
  datatype StableId = StableId(seqNo: nat, id: string)

  /** An element of a view-change's P or Q set. */
  datatype PQ = PQ(seqNo: nat, digest: Digest, view: nat)

  datatype ViewChange = ViewChange(view: nat, h: nat, cset: seq<StableId>, pset: seq<PQ>, qset: seq<PQ>, replicaId: nat)
  datatype NewView = NewView(view: nat, vset: seq<ViewChange>, xset: map<nat, Digest>, replicaId: nat)

  datatype Message =
    | MPrePrepare(prePrepare: PrePrepare)
    | MPrepare(prepare: Prepare)
    | MCommit(commit: Commit)
    | MCheckpoint(checkpoint: Checkpoint)
    | MViewChange(viewChange: ViewChange)
    | MNewView(newView: NewView)
  {
    /** The replica id every receive function compares with the sending stream. */
    function Sender(): nat {
      match this
      case MPrePrepare(m) => m.replicaId
      case MPrepare(m) => m.replicaId
      case MCommit(m) => m.replicaId
      case MCheckpoint(m) => m.replicaId
      case MViewChange(m) => m.replicaId
      case MNewView(m) => m.replicaId
    }
  }
}

/** Counting arguments about sets of replica ids. */
module Quorums {
  import opened PbftTypes

  /** The replica ids 0..n-1. */
  function Replicas(n: nat): (r: set<nat>)
    ensures forall i: nat :: i in r <==> i < n
    ensures |r| == n
  {
    if n == 0 then {} else Replicas(n - 1) + {n - 1}
  }

  lemma SubsetSize<T>(a: set<T>, b: set<T>)
    requires a <= b
    ensures |a| <= |b|
  {
    assert b == a + (b - a);
  }

  lemma Overlap(n: nat, a: set<nat>, b: set<nat>)
    requires a <= Replicas(n) && b <= Replicas(n)
    ensures |a * b| + n >= |a| + |b|
  {
    SubsetSize(a + b, Replicas(n));
    assert |a + b| == |a| + |b| - |a * b|;
  }

  /** A set with more than `bound` elements has one outside any set of at most `bound`. */
  lemma Outside(a: set<nat>, faulty: set<nat>) returns (r: nat)
    requires |a| > |faulty|
    ensures r in a && r !in faulty
  {
    if a <= faulty {
      SubsetSize(a, faulty);
      assert false;
    }
    r :| r in a && r !in faulty;
  }

  /** Two intersection quorums share a correct replica. */
  lemma QuorumsMeet(cfg: Config, faulty: set<nat>, a: set<nat>, b: set<nat>) returns (r: nat)
    requires |faulty| <= cfg.f
    requires a <= Replicas(cfg.N) && b <= Replicas(cfg.N)
    requires |a| >= cfg.IntersectionQuorum() && |b| >= cfg.IntersectionQuorum()
    ensures r in a && r in b && r !in faulty
  {
    Overlap(cfg.N, a, b);
    r := Outside(a * b, faulty);
  }

  /** Two prepare quorums (one short of an intersection quorum, without the
      primary) share a correct backup as soon as the primary is faulty. */
  lemma BackupQuorumsMeet(cfg: Config, faulty: set<nat>, p: nat, a: set<nat>, b: set<nat>) returns (r: nat)
    requires |faulty| <= cfg.f && p in faulty && p < cfg.N
    requires a <= Replicas(cfg.N) - {p} && b <= Replicas(cfg.N) - {p}
    requires |a| + 1 >= cfg.IntersectionQuorum() && |b| + 1 >= cfg.IntersectionQuorum()
    ensures r in a && r in b && r !in faulty
  {
    Overlap(cfg.N, a + {p}, b + {p});
    assert (a + {p}) * (b + {p}) == a * b + {p};
    r := Outside(a * b, faulty - {p});
  }

  /** An intersection quorum holds at least IntersectionQuorum() - f correct replicas, and at least one. */
  lemma CorrectMembers(cfg: Config, faulty: set<nat>, a: set<nat>)
    requires cfg.Valid() && |faulty| <= cfg.f && |a| >= cfg.IntersectionQuorum()
    ensures |a - faulty| >= cfg.IntersectionQuorum() - cfg.f >= 1
  {
    assert a == (a - faulty) + (a * faulty);
    SubsetSize(a * faulty, faulty);
  }
}
