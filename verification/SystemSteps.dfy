/** Every step keeps the invariant of the replica system. */
module SystemSteps {
  import opened PbftTypes
  import opened Quorums
  import opened ReplicaModel
  import opened ReplicaInvariant
  import opened PbftSystem
  import opened SystemInvariant

  // ---------------------------------------------- counters and certificates

  ghost predicate FromPrepare(ps: seq<Prepare>, r: nat) { exists i :: 0 <= i < |ps| && ps[i].replicaId == r }

  lemma PreparerIn(cfg: Config, net: set<Message>, p: Prepare)
    requires cfg.Valid() && MPrepare(p) in net && p.replicaId < cfg.N && p.replicaId != cfg.Primary(p.view)
    ensures p.replicaId in Preparers(cfg, net, p.view, p.seqNo, p.digest)
  {
    assert p == Prepare(p.view, p.seqNo, p.digest, p.replicaId);
  }

  /** The prepare counter counts distinct backups. */
  lemma {:induction false} CountPreparers(cfg: Config, net: set<Message>, ps: seq<Prepare>, v: nat, n: nat, d: Digest)
      returns (ids: set<nat>)
    requires cfg.Valid() && DistinctPrepares(ps)
    requires forall i | 0 <= i < |ps| :: MPrepare(ps[i]) in net && ps[i].replicaId < cfg.N && ps[i].replicaId != cfg.Primary(v)
    ensures ids <= Preparers(cfg, net, v, n, d) && |ids| == PrepareCount(ps, v, n, d)
    ensures forall r | r in ids :: FromPrepare(ps, r)
  {
    if ps == [] {
      ids := {};
    } else {
      var k := |ps| - 1;
      var init, p := ps[..k], ps[k];
      ids := CountPreparers(cfg, net, init, v, n, d);
      forall r | r in ids ensures FromPrepare(ps, r) && r != p.replicaId {
        var i :| 0 <= i < |init| && init[i].replicaId == r;
        assert ps[i].replicaId == r;
      }
      if p.view == v && p.seqNo == n && p.digest == d {
        PreparerIn(cfg, net, p);
        assert FromPrepare(ps, p.replicaId) by { assert ps[k].replicaId == p.replicaId; }
        ids := ids + {p.replicaId};
      }
    }
  }

  lemma CommitWitness(net: set<Message>, c: Commit)
    requires MCommit(c) in net
    ensures HasCommit(net, c.view, c.seqNo, c.replicaId)
  {
    assert c == Commit(c.view, c.seqNo, c.digest, c.replicaId);
  }

  ghost predicate FromCommit(cs: seq<Commit>, r: nat) { exists i :: 0 <= i < |cs| && cs[i].replicaId == r }

  lemma {:induction false} CountCommitters(cfg: Config, net: set<Message>, cs: seq<Commit>, v: nat, n: nat)
      returns (ids: set<nat>)
    requires DistinctCommits(cs)
    requires forall i | 0 <= i < |cs| :: MCommit(cs[i]) in net && cs[i].replicaId < cfg.N
    ensures ids <= Committers(cfg, net, v, n) && |ids| == CommitCount(cs, v, n)
    ensures forall r | r in ids :: FromCommit(cs, r)
  {
    if cs == [] {
      ids := {};
    } else {
      var k := |cs| - 1;
      var init, c := cs[..k], cs[k];
      ids := CountCommitters(cfg, net, init, v, n);
      forall r | r in ids ensures FromCommit(cs, r) && r != c.replicaId {
        var i :| 0 <= i < |init| && init[i].replicaId == r;
        assert cs[i].replicaId == r;
      }
      if c.view == v && c.seqNo == n {
        CommitWitness(net, c);
        assert cs[k].replicaId == c.replicaId;
        ids := ids + {c.replicaId};
      }
    }
  }

  /** In the current view only the certificate's own pre-prepare counts. */
  lemma PrePreparedHere(cfg: Config, s: ReplicaState, d: Digest, n: nat)
    requires QsetOk(cfg, s) && PrePrepared(s, d, s.view, n)
    ensures CertProposes(GetCert(s, s.view, n), s.view, n, d)
  {
  }

  /** `prepared` is sound: the proposal and enough prepares from distinct backups were sent. */
  lemma PreparedIsCertified(w: World, net: set<Message>, held: set<Proposal>, s: ReplicaState, d: Digest, v: nat, n: nat)
    requires w.Valid() && LocalInv(w.cfg, s) && Sourced(w, net, held, s)
    requires forall m | m in net :: m.Sender() < w.cfg.N
    requires Prepared(w.cfg, s, d, v, n)
    ensures PreparedCert(w.cfg, net, v, n, d) && Proposal(s.id, v, n, d) in held
    ensures v == s.view ==>
              && CertProposes(GetCert(s, v, n), v, n, d)
              && PrepareCount(GetCert(s, v, n).prepare, v, n, d) + 1 >= w.cfg.IntersectionQuorum()
  {
    if !(n in s.pset && s.pset[n].view == v && s.pset[n].digest == d) {
      var c := s.certStore[MsgID(v, n)];
      assert CertOk(w.cfg, s, MsgID(v, n), c) && CertSourced(w.cfg, net, held, s.id, MsgID(v, n), c);
      PrePreparedHere(w.cfg, s, d, n);
      forall i | 0 <= i < |c.prepare| ensures c.prepare[i].replicaId < w.cfg.N {
        assert MPrepare(c.prepare[i]) in net && MPrepare(c.prepare[i]).Sender() < w.cfg.N;
      }
      var ids := CountPreparers(w.cfg, net, c.prepare, v, n, d);
      SubsetSize(ids, Preparers(w.cfg, net, v, n, d));
    }
  }

  /** `committed` is sound: enough commits from distinct replicas were sent. */
  lemma CommittedIsCertified(w: World, net: set<Message>, held: set<Proposal>, s: ReplicaState, d: Digest, v: nat, n: nat)
    requires w.Valid() && LocalInv(w.cfg, s) && Sourced(w, net, held, s)
    requires forall m | m in net :: m.Sender() < w.cfg.N
    requires Committed(w.cfg, s, d, v, n)
    ensures CommittedCert(w.cfg, net, v, n, d)
  {
    PreparedIsCertified(w, net, held, s, d, v, n);
    var c := s.certStore[MsgID(v, n)];
    assert CertSourced(w.cfg, net, held, s.id, MsgID(v, n), c);
    forall i | 0 <= i < |c.commit| ensures c.commit[i].replicaId < w.cfg.N {
      assert MCommit(c.commit[i]) in net && MCommit(c.commit[i]).Sender() < w.cfg.N;
    }
    var ids := CountCommitters(w.cfg, net, c.commit, v, n);
    SubsetSize(ids, Committers(w.cfg, net, v, n));
  }

  // ------------------------------------------------ a replica's own messages

  lemma OwnGrows(cfg: Config, s: ReplicaState, s': ReplicaState, m: Message)
    requires cfg.Valid() && OwnMessage(cfg, s, m) && Grows(s, s')
    ensures OwnMessage(cfg, s', m)
  {
    if m.MPrepare? && m.prepare.view == s.view && m.prepare.seqNo > s'.h {
      assert MsgID(s.view, m.prepare.seqNo) in s.certStore;
    }
  }

  lemma OwnChangesView(cfg: Config, s: ReplicaState, a: Action, m: Message)
    requires cfg.Valid() && LocalInv(cfg, s) && OwnMessage(cfg, s, m) && Enabled(cfg, s, a) && ChangesView(a)
    ensures OwnMessage(cfg, Apply(cfg, s, a), m)
  {
    if a.AEnterView? {
      assert s.view > 0;
    }
  }

  lemma OwnSent(cfg: Config, s: ReplicaState, a: Action, m: Message)
    requires cfg.Valid() && LocalInv(cfg, s) && Enabled(cfg, s, a) && m in Sent(cfg, s, a)
    requires a.ASendNewView? ==> !s.activeView
    ensures m.Sender() == s.id && OwnMessage(cfg, Apply(cfg, s, a), m)
  {
    var s' := Apply(cfg, s, a);
    if a.ASendPrepare? {
      PrePreparedHere(cfg, s, a.d, a.n);
    } else if a.AEnterView? {
      EnterViewCerts(cfg, s, a.cp);
      var p := m.prepare;
      assert GetCert(s', s.view, p.seqNo) == NewViewCert(cfg, s, p.seqNo, p.digest);
    }
  }

  // ------------------------------------------------------ remembered commits

  lemma PrepareCountGrows(ps: seq<Prepare>, qs: seq<Prepare>, v: nat, n: nat, d: Digest)
    requires ps <= qs
    ensures PrepareCount(ps, v, n, d) <= PrepareCount(qs, v, n, d)
  {
    if |qs| > |ps| {
      PrepareCountGrows(ps, qs[..|qs| - 1], v, n, d);
    } else {
      assert ps == qs;
    }
  }

  lemma RemembersGrows(cfg: Config, s: ReplicaState, s': ReplicaState, c: Commit)
    requires cfg.Valid() && RemembersCommit(cfg, s, c) && Grows(s, s') && CertsOk(cfg, s')
    ensures RemembersCommit(cfg, s', c)
  {
    if c.seqNo > s'.h && c.view == s.view {
      var idx := MsgID(c.view, c.seqNo);
      assert idx in s.certStore && idx in s'.certStore;
      assert CertOk(cfg, s', idx, s'.certStore[idx]);
      PrepareCountGrows(s.certStore[idx].prepare, s'.certStore[idx].prepare, c.view, c.seqNo, c.digest);
    }
  }

  lemma RemembersViewChange(cfg: Config, s: ReplicaState, target: nat, c: Commit)
    requires cfg.Valid() && LocalInv(cfg, s) && RemembersCommit(cfg, s, c) && RequestsRetained(s)
    requires target > s.view && c.view <= s.view
    ensures RemembersCommit(cfg, SendViewChange(cfg, s, target), c)
  {
    var s' := SendViewChange(cfg, s, target);
    if c.seqNo > s.h {
      if c.view == s.view && CertProposes(GetCert(s, c.view, c.seqNo), c.view, c.seqNo, c.digest) {
        var idx := MsgID(c.view, c.seqNo);
        assert idx in s.certStore;
        assert EntersP(cfg, s, c.seqNo);
        assert idx.n in (set i | i in s.certStore :: i.n);
        assert c.seqNo in s'.pset;
      } else {
        assert c.seqNo in s'.pset;
      }
    }
  }

  lemma RemembersEnter(cfg: Config, s: ReplicaState, cp: StableId, c: Commit)
    requires cfg.Valid() && LocalInv(cfg, s) && RemembersCommit(cfg, s, c) && Checked(cfg, s, cp)
    ensures RemembersCommit(cfg, EnterView(cfg, s), c)
  {
  }
}
