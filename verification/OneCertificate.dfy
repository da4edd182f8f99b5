/** A replica that works on a single certificate. */
module OneCertificate {
  import opened PbftTypes
  import opened ReplicaModel

  /** c is the only certificate, and its number is in the window of the current view. */
  ghost predicate WorksOn(cfg: Config, s: ReplicaState, idx: MsgID, c: Cert) {
    s.certStore == map[idx := c] && InWV(cfg, s, idx.v, idx.n)
  }

  function WithOnly(s: ReplicaState, idx: MsgID, c: Cert): ReplicaState { s.(certStore := map[idx := c]) }

  /** The certificate proposes d, whose request is known. */
  ghost predicate Proposing(s: ReplicaState, idx: MsgID, c: Cert, d: Digest) {
    (d == Null || d in s.reqStore) && CertProposes(c, idx.v, idx.n, d)
  }

  lemma OnlyCert(cfg: Config, s: ReplicaState, idx: MsgID, c: Cert, c': Cert)
    requires WorksOn(cfg, s, idx, c)
    ensures GetCert(s, idx.v, idx.n) == c && WithCert(s, idx.v, idx.n, c') == WithOnly(s, idx, c')
  {
    assert MsgID(idx.v, idx.n) == idx;
    assert map[idx := c][idx := c'] == map[idx := c'];
  }

  lemma TakesPrepare(cfg: Config, s: ReplicaState, idx: MsgID, c: Cert, p: Prepare)
    requires cfg.Valid() && WorksOn(cfg, s, idx, c) && p.view == idx.v && p.seqNo == idx.n && p.replicaId != cfg.Primary(idx.v)
    requires forall q | q in c.prepare :: q.replicaId != p.replicaId
    ensures CanAddPrepare(cfg, s, p) && AddPrepare(s, p) == WithOnly(s, idx, c.(prepare := c.prepare + [p]))
  {
    OnlyCert(cfg, s, idx, c, c.(prepare := c.prepare + [p]));
  }

  lemma SendsCommit(cfg: Config, s: ReplicaState, idx: MsgID, c: Cert, d: Digest)
    requires WorksOn(cfg, s, idx, c) && Proposing(s, idx, c, d) && !c.sentCommit
    requires PrepareCount(c.prepare, idx.v, idx.n, d) + 1 >= cfg.IntersectionQuorum()
    ensures CanSendCommit(cfg, s, d, idx.v, idx.n) && SendCommit(s, idx.v, idx.n) == WithOnly(s, idx, c.(sentCommit := true))
  {
    OnlyCert(cfg, s, idx, c, c.(sentCommit := true));
  }

  lemma TakesCommit(cfg: Config, s: ReplicaState, idx: MsgID, c: Cert, m: Commit)
    requires WorksOn(cfg, s, idx, c) && m.view == idx.v && m.seqNo == idx.n
    requires forall q | q in c.commit :: q.replicaId != m.replicaId
    ensures CanAddCommit(cfg, s, m) && AddCommit(s, m) == WithOnly(s, idx, c.(commit := c.commit + [m]))
  {
    OnlyCert(cfg, s, idx, c, c.(commit := c.commit + [m]));
  }

  lemma Executes(cfg: Config, s: ReplicaState, idx: MsgID, c: Cert, d: Digest)
    requires WorksOn(cfg, s, idx, c) && Proposing(s, idx, c, d) && idx.n == s.lastExec + 1 && !s.skipInProgress
    requires PrepareCount(c.prepare, idx.v, idx.n, d) + 1 >= cfg.IntersectionQuorum()
    requires CommitCount(c.commit, idx.v, idx.n) >= cfg.IntersectionQuorum()
    ensures CanExecute(cfg, s, idx) && Execute(s, idx).deliveries == s.deliveries + [Executed(idx.n, d, idx.v)]
  {
    OnlyCert(cfg, s, idx, c, c);
  }
}
