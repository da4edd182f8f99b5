/** Safety of the PBFT core within a view: agreement and sound commit certificates, in every
    run with at most f faulty replicas. */
module PbftSafety {
  import opened PbftTypes
  import opened Quorums
  import opened ReplicaModel
  import opened PbftSystem
  import opened SystemInvariant
  import opened SystemSteps
  import opened SystemRuns

  // --------------------------------------------------- agreement within a view

  /** A correct primary assigns one digest to a number of its view, by pre-prepares
      and its new-view together. */
  lemma PrimaryProposesOnce(w: World, y: Sys, v: nat, n: nat, d: Digest, e: Digest)
    requires w.Valid() && SysInv(w, y) && w.Correct(w.cfg.Primary(v))
    requires Proposed(w.cfg, y.net, v, n, d) && Proposed(w.cfg, y.net, v, n, e)
    ensures d == e
  {
  }

  /** No two prepared certificates for different digests exist at the same view and number. */
  lemma CertificatesAgree(w: World, y: Sys, v: nat, n: nat, d: Digest, e: Digest)
    requires w.Valid() && SysInv(w, y)
    requires PreparedCert(w.cfg, y.net, v, n, d) && PreparedCert(w.cfg, y.net, v, n, e)
    ensures d == e
  {
    var p := w.cfg.Primary(v);
    if p in w.faulty {
      var r := BackupQuorumsMeet(w.cfg, w.faulty, p, Preparers(w.cfg, y.net, v, n, d), Preparers(w.cfg, y.net, v, n, e));
      assert MPrepare(Prepare(v, n, d, r)) in y.net && MPrepare(Prepare(v, n, e, r)) in y.net;
    } else {
      PrimaryProposesOnce(w, y, v, n, d, e);
    }
  }

  /** Correct replica r has prepared d at (v, n) in the i-th state of the run. */
  ghost predicate PreparedAt(w: World, run: seq<Sys>, i: nat, r: nat, v: nat, n: nat, d: Digest) {
    i < |run| && r < |run[i].replicas| && Prepared(w.cfg, run[i].replicas[r], d, v, n)
  }

  lemma PreparedAtIsCertified(w: World, run: seq<Sys>, i: nat, r: nat, v: nat, n: nat, d: Digest)
    requires w.Valid() && IsRun(w, run) && w.Correct(r) && PreparedAt(w, run, i, r, v, n, d)
    ensures PreparedCert(w.cfg, run[i].net, v, n, d)
  {
    var y := run[i];
    RunInv(w, run, i);
    assert ReplicaInv(w, y, r);
    PreparedIsCertified(w, y.net, y.held, y.replicas[r], d, v, n);
  }

  lemma CertifiedAtEnd(w: World, run: seq<Sys>, i: nat, v: nat, n: nat, d: Digest)
    requires w.Valid() && IsRun(w, run) && i < |run| && PreparedCert(w.cfg, run[i].net, v, n, d)
    ensures PreparedCert(w.cfg, run[|run| - 1].net, v, n, d)
  {
    RunGrows(w, run, i, |run| - 1);
    CertificatesStay(w.cfg, run[i].net, run[|run| - 1].net, v, n, d);
  }

  lemma CertificatesAgreeAtEnd(w: World, run: seq<Sys>, v: nat, n: nat, d: Digest, e: Digest)
    requires w.Valid() && IsRun(w, run)
    requires PreparedCert(w.cfg, run[|run| - 1].net, v, n, d) && PreparedCert(w.cfg, run[|run| - 1].net, v, n, e)
    ensures d == e
  {
    RunInv(w, run, |run| - 1);
    CertificatesAgree(w, run[|run| - 1], v, n, d, e);
  }

  lemma PreparedIsCertifiedAtEnd(w: World, run: seq<Sys>, i: nat, r: nat, v: nat, n: nat, d: Digest)
    requires w.Valid() && IsRun(w, run) && w.Correct(r) && PreparedAt(w, run, i, r, v, n, d)
    ensures PreparedCert(w.cfg, run[|run| - 1].net, v, n, d)
  {
    PreparedAtIsCertified(w, run, i, r, v, n, d);
    CertifiedAtEnd(w, run, i, v, n, d);
  }

  /** In every run, no two correct replicas prepare different digests at the same view and
      number, at whatever moments and however the pre-prepare reached them. */
  lemma AgreementWithinView(w: World, run: seq<Sys>, i: nat, j: nat, q: nat, r: nat, v: nat, n: nat, d: Digest, e: Digest)
    requires w.Valid() && IsRun(w, run)
    requires w.Correct(q) && PreparedAt(w, run, i, q, v, n, d)
    requires w.Correct(r) && PreparedAt(w, run, j, r, v, n, e)
    ensures d == e
  {
    PreparedIsCertifiedAtEnd(w, run, i, q, v, n, d);
    PreparedIsCertifiedAtEnd(w, run, j, r, v, n, e);
    CertificatesAgreeAtEnd(w, run, v, n, d, e);
  }

  // ------------------------------------------------------- commit certificates

  /** The correct replicas that sent a commit for d at (v, n). */
  ghost function CommittedCorrectly(w: World, net: set<Message>, v: nat, n: nat, d: Digest): set<nat> {
    set k | k in Replicas(w.cfg.N) && k !in w.faulty && MCommit(Commit(v, n, d, k)) in net
  }

  lemma CommitsMatch(w: World, y: Sys, v: nat, n: nat, d: Digest, k: nat)
    requires w.Valid() && SysInv(w, y) && PreparedCert(w.cfg, y.net, v, n, d)
    requires k in Committers(w.cfg, y.net, v, n) && k !in w.faulty
    ensures MCommit(Commit(v, n, d, k)) in y.net
  {
    var e :| MCommit(Commit(v, n, e, k)) in y.net;
    var c := Commit(v, n, e, k);
    assert w.Correct(c.replicaId) && PreparedCert(w.cfg, y.net, c.view, c.seqNo, c.digest);
    CertificatesAgree(w, y, v, n, d, e);
  }

  lemma CommitQuorumIsCorrect(w: World, y: Sys, v: nat, n: nat, d: Digest)
    requires w.Valid() && SysInv(w, y) && CommittedCert(w.cfg, y.net, v, n, d)
    ensures |CommittedCorrectly(w, y.net, v, n, d)| >= w.cfg.IntersectionQuorum() - w.cfg.f >= 1
    ensures forall k | k in CommittedCorrectly(w, y.net, v, n, d) :: Proposal(k, v, n, d) in y.held
  {
    var c := Committers(w.cfg, y.net, v, n);
    CorrectMembers(w.cfg, w.faulty, c);
    forall k | k in c - w.faulty ensures k in CommittedCorrectly(w, y.net, v, n, d) {
      CommitsMatch(w, y, v, n, d, k);
    }
    SubsetSize(c - w.faulty, CommittedCorrectly(w, y.net, v, n, d));
    forall k | k in CommittedCorrectly(w, y.net, v, n, d) ensures Proposal(k, v, n, d) in y.held {
      var m := Commit(v, n, d, k);
      assert MCommit(m) in y.net && w.Correct(m.replicaId);
    }
  }

  /** Only a prepared replica sends a commit. */
  lemma CommitSentPrepared(cfg: Config, s: ReplicaState, a: Action, c: Commit)
    requires cfg.Valid() && Enabled(cfg, s, a) && MCommit(c) in Sent(cfg, s, a)
    ensures c.replicaId == s.id && Prepared(cfg, s, c.digest, c.view, c.seqNo)
  {
    assert a.ASendCommit?;
  }

  /** A correct replica's messages are sent by its own actions. */
  lemma SentByMover(w: World, run: seq<Sys>, i: nat, m: Message) returns (r: nat, a: Action)
    requires w.Valid() && IsRun(w, run) && i + 1 < |run| && w.Correct(m.Sender()) && m in run[i + 1].net && m !in run[i].net
    ensures CanStep(w, run[i], r, a) && m in Sent(w.cfg, run[i].replicas[r], a)
  {
    assert StepAt(w, run, i);
    r, a :| LocalNext(w, run[i], r, a, run[i + 1]);
  }

  lemma NewCommitPrepared(w: World, run: seq<Sys>, i: nat, c: Commit)
    requires w.Valid() && IsRun(w, run) && i + 1 < |run| && w.Correct(c.replicaId)
    requires MCommit(c) in run[i + 1].net && MCommit(c) !in run[i].net
    ensures PreparedAt(w, run, i, c.replicaId, c.view, c.seqNo, c.digest)
  {
    var r, a := SentByMover(w, run, i, MCommit(c));
    CommitSentPrepared(w.cfg, run[i].replicas[r], a, c);
    IdAt(w, run, i, r);
  }

  lemma IdAt(w: World, run: seq<Sys>, i: nat, r: nat)
    requires w.Valid() && IsRun(w, run) && i < |run| && w.Correct(r)
    ensures r < |run[i].replicas| && run[i].replicas[r].id == r
  {
    RunInv(w, run, i);
    assert ReplicaInv(w, run[i], r);
  }

  /** A correct replica sends a commit only after it has prepared. */
  lemma {:induction false} CommitAfterPrepare(w: World, run: seq<Sys>, i: nat, c: Commit)
    requires w.Valid() && IsRun(w, run) && i < |run| && w.Correct(c.replicaId) && MCommit(c) in run[i].net
    ensures exists j: nat | j < i :: PreparedAt(w, run, j, c.replicaId, c.view, c.seqNo, c.digest)
  {
    if i > 0 {
      if MCommit(c) in run[i - 1].net {
        CommitAfterPrepare(w, run, i - 1, c);
      } else {
        NewCommitPrepared(w, run, i - 1, c);
      }
    }
  }

  /** A commit certificate is sound although `committed` does not compare digests: at
      least IntersectionQuorum() - f correct replicas sent a commit for exactly d at
      (v, n), after each of them had prepared d there. */
  lemma CommitCertificateSound(w: World, run: seq<Sys>, i: nat, r: nat, v: nat, n: nat, d: Digest)
    requires w.Valid() && IsRun(w, run) && i < |run| && |run[i].replicas| == w.cfg.N
    requires w.Correct(r) && Committed(w.cfg, run[i].replicas[r], d, v, n)
    ensures |CommittedCorrectly(w, run[i].net, v, n, d)| >= w.cfg.IntersectionQuorum() - w.cfg.f >= 1
    ensures forall k | k in CommittedCorrectly(w, run[i].net, v, n, d) :: exists j: nat | j < i :: PreparedAt(w, run, j, k, v, n, d)
    ensures PreparedCert(w.cfg, run[i].net, v, n, d)
    ensures forall k | k in CommittedCorrectly(w, run[i].net, v, n, d) :: Proposal(k, v, n, d) in run[i].held
  {
    var y := run[i];
    RunInv(w, run, i);
    assert ReplicaInv(w, y, r);
    CommittedIsCertified(w, y.net, y.held, y.replicas[r], d, v, n);
    CommitQuorumIsCorrect(w, y, v, n, d);
    forall k | k in CommittedCorrectly(w, y.net, v, n, d) ensures exists j: nat | j < i :: PreparedAt(w, run, j, k, v, n, d) {
      CommitAfterPrepare(w, run, i, Commit(v, n, d, k));
    }
  }
}
