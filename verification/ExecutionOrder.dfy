/** In what order replicas execute, and that they execute the same requests. */
module ExecutionOrder {
  import opened PbftTypes
  import opened ReplicaModel
  import opened PbftSystem
  import opened SystemInvariant
  import opened SystemSteps
  import opened SystemRuns
  import opened CrossViewSafety

  // ----------------------------------------------------------- one replica

  function LastNumber(ds: seq<Delivery>): nat {
    if ds == [] then 0 else ds[|ds| - 1].n
  }

  /** Every executed number is one more than the number delivered or skipped to just before it. */
  ghost predicate InSequence(ds: seq<Delivery>) {
    forall k | 0 <= k < |ds| && ds[k].Executed? :: ds[k].n == LastNumber(ds[..k]) + 1
  }

  ghost predicate Ordered(s: ReplicaState) {
    InSequence(s.deliveries) && s.lastExec == LastNumber(s.deliveries)
  }

  /** What an action does to the deliveries and to lastExec. */
  ghost predicate Delivers(s: ReplicaState, s': ReplicaState) {
    || (s'.deliveries == s.deliveries && s'.lastExec == s.lastExec)
    || (&& |s'.deliveries| == |s.deliveries| + 1 && s'.deliveries[..|s.deliveries|] == s.deliveries
        && var x := s'.deliveries[|s.deliveries|];
           x.n == s'.lastExec && (x.Executed? ==> x.n == s.lastExec + 1))
  }

  lemma ActionDelivers(cfg: Config, s: ReplicaState, a: Action)
    requires cfg.Valid() && Enabled(cfg, s, a)
    ensures Delivers(s, Apply(cfg, s, a))
  {
    var s' := Apply(cfg, s, a);
    if a.AExecute? {
      assert s' == Execute(s, a.idx);
    } else if a.ASkipTo? {
      assert s' == SkipTo(s, a.n);
    } else {
      assert s'.deliveries == s.deliveries && s'.lastExec == s.lastExec;
    }
  }

  lemma DeliversKeepsOrder(s: ReplicaState, s': ReplicaState)
    requires Ordered(s) && Delivers(s, s')
    ensures Ordered(s')
  {
    var ds, ds' := s.deliveries, s'.deliveries;
    forall k | 0 <= k < |ds'| && ds'[k].Executed? ensures ds'[k].n == LastNumber(ds'[..k]) + 1 {
      if k < |ds| {
        assert ds'[..k] == ds[..k] && ds'[k] == ds'[..|ds|][k];
      } else {
        assert ds'[..k] == ds;
      }
    }
  }

  /** Until the first skip the executed numbers are 1, 2, 3, ... */
  lemma {:induction false} NumbersFromOne(ds: seq<Delivery>, k: nat)
    requires InSequence(ds) && k < |ds| && forall j | 0 <= j <= k :: ds[j].Executed?
    ensures ds[k].n == k + 1
  {
    if k > 0 {
      NumbersFromOne(ds, k - 1);
      assert ds[..k][|ds[..k]| - 1] == ds[k - 1];
    }
  }

  // -------------------------------------------------------------- all replicas

  /** Every executed digest has a commit certificate. */
  ghost predicate Certified(cfg: Config, net: set<Message>, ds: seq<Delivery>)
    requires cfg.Valid()
  {
    forall k | 0 <= k < |ds| && ds[k].Executed? :: CommittedCert(cfg, net, ds[k].view, ds[k].n, ds[k].digest)
  }

  ghost predicate Executes(w: World, y: Sys, r: nat)
    requires w.Valid() && r < |y.replicas|
  {
    Ordered(y.replicas[r]) && Certified(w.cfg, y.net, y.replicas[r].deliveries)
  }

  ghost predicate AllExecute(w: World, y: Sys)
    requires w.Valid()
  {
    |y.replicas| == w.cfg.N && forall r: nat | w.Correct(r) :: Executes(w, y, r)
  }

  lemma CertifiedStays(cfg: Config, net: set<Message>, net': set<Message>, ds: seq<Delivery>)
    requires cfg.Valid() && Certified(cfg, net, ds) && net <= net'
    ensures Certified(cfg, net', ds)
  {
    forall k | 0 <= k < |ds| && ds[k].Executed? ensures CommittedCert(cfg, net', ds[k].view, ds[k].n, ds[k].digest) {
      CertificatesStay(cfg, net, net', ds[k].view, ds[k].n, ds[k].digest);
    }
  }

  lemma ExecuteIsCertified(w: World, y: Sys, r: nat, idx: MsgID)
    requires w.Valid() && SysInv(w, y) && w.Correct(r) && CanExecute(w.cfg, y.replicas[r], idx)
    ensures CommittedCert(w.cfg, y.net, idx.v, idx.n, y.replicas[r].certStore[idx].prePrepare.value.digest)
  {
    var s := y.replicas[r];
    assert ReplicaInv(w, y, r);
    CommittedIsCertified(w, y.net, y.held, s, s.certStore[idx].prePrepare.value.digest, idx.v, idx.n);
  }

  lemma OnlyExecuteExecutes(cfg: Config, s: ReplicaState, a: Action)
    requires cfg.Valid() && Enabled(cfg, s, a) && !a.AExecute?
    ensures var ds := Apply(cfg, s, a).deliveries;
            forall k | 0 <= k < |ds| && ds[k].Executed? :: k < |s.deliveries| && ds[k] == s.deliveries[k]
  {
    ActionDelivers(cfg, s, a);
    var s' := Apply(cfg, s, a);
    if a.ASkipTo? {
      assert s' == SkipTo(s, a.n);
    } else {
      assert s'.deliveries == s.deliveries;
    }
  }

  lemma MoverCertified(w: World, y: Sys, r: nat, a: Action)
    requires w.Valid() && SysInv(w, y) && CanStep(w, y, r, a) && Certified(w.cfg, y.net, y.replicas[r].deliveries)
    ensures Certified(w.cfg, y.net, Apply(w.cfg, y.replicas[r], a).deliveries)
  {
    if a.AExecute? {
      ExecuteIsCertified(w, y, r, a.idx);
    } else {
      OnlyExecuteExecutes(w.cfg, y.replicas[r], a);
    }
  }

  lemma ExecutesStep(w: World, y: Sys, r: nat, a: Action)
    requires w.Valid() && SysInv(w, y) && CanStep(w, y, r, a) && AllExecute(w, y)
    ensures AllExecute(w, Stepped(w, y, r, a))
  {
    var y' := Stepped(w, y, r, a);
    forall q: nat | w.Correct(q) ensures Executes(w, y', q) {
      assert Executes(w, y, q);
      if q == r {
        ActionDelivers(w.cfg, y.replicas[r], a);
        DeliversKeepsOrder(y.replicas[r], y'.replicas[r]);
        MoverCertified(w, y, r, a);
      }
      CertifiedStays(w.cfg, y.net, y'.net, y'.replicas[q].deliveries);
    }
  }

  lemma ExecutesNext(w: World, run: seq<Sys>, i: nat)
    requires w.Valid() && IsRun(w, run) && i + 1 < |run| && AllExecute(w, run[i])
    ensures AllExecute(w, run[i + 1])
  {
    var y, y' := run[i], run[i + 1];
    RunInv(w, run, i);
    assert StepAt(w, run, i);
    if m :| FaultyNext(w, y, m, y') {
      forall r: nat | w.Correct(r) ensures Executes(w, y', r) {
        assert Executes(w, y, r);
        CertifiedStays(w.cfg, y.net, y'.net, y.replicas[r].deliveries);
      }
    } else {
      var r, a :| LocalNext(w, y, r, a, y');
      ExecutesStep(w, y, r, a);
    }
  }

  /** In every run, a correct replica executes numbers in sequence, and only digests
      with a commit certificate. */
  lemma {:induction false} RunExecutes(w: World, run: seq<Sys>, i: nat)
    requires w.Valid() && IsRun(w, run) && i < |run|
    ensures AllExecute(w, run[i])
  {
    if i > 0 {
      RunExecutes(w, run, i - 1);
      ExecutesNext(w, run, i - 1);
    }
  }

  // --------------------------------------------------------------- agreement

  /** x is the k-th delivery of the correct replica r in the i-th state. */
  ghost predicate DeliveredAt(w: World, run: seq<Sys>, i: nat, r: nat, k: nat, x: Delivery) {
    && i < |run| && w.Correct(r) && r < |run[i].replicas|
    && k < |run[i].replicas[r].deliveries| && run[i].replicas[r].deliveries[k] == x
  }

  lemma DeliveredCertified(w: World, run: seq<Sys>, i: nat, r: nat, k: nat, x: Delivery)
    requires w.Valid() && IsRun(w, run) && DeliveredAt(w, run, i, r, k, x) && x.Executed?
    ensures CommittedCert(w.cfg, run[|run| - 1].net, x.view, x.n, x.digest)
  {
    RunExecutes(w, run, i);
    assert Executes(w, run[i], r);
    RunGrows(w, run, i, |run| - 1);
    CertificatesStay(w.cfg, run[i].net, run[|run| - 1].net, x.view, x.n, x.digest);
  }

  /** Whatever two correct replicas execute for the same number, at any two moments of a
      run and however they skipped before, is the same digest. */
  lemma ExecutionsAgree(w: World, run: seq<Sys>, i: nat, q: nat, k: nat, x: Delivery, j: nat, r: nat, l: nat, z: Delivery)
    requires w.Valid() && IsRun(w, run)
    requires DeliveredAt(w, run, i, q, k, x) && DeliveredAt(w, run, j, r, l, z)
    requires x.Executed? && z.Executed? && x.n == z.n
    requires x.view != z.view ==> GoodViews(w, run[|run| - 1], FirstOf(x.view, z.view), x.n)
    ensures x.digest == z.digest
  {
    DeliveredCertified(w, run, i, q, k, x);
    DeliveredCertified(w, run, j, r, l, z);
    CommitsAgree(w, run, x.view, z.view, x.n, x.digest, z.digest);
  }

  function Digests(ds: seq<Delivery>): seq<Digest> {
    seq(|ds|, k requires 0 <= k < |ds| => if ds[k].Executed? then ds[k].digest else Null)
  }

  lemma PrefixDigests(a: seq<Delivery>, b: seq<Delivery>)
    requires Unskipped(a) && Unskipped(b)
    requires forall k | 0 <= k < |a| && k < |b| :: a[k].digest == b[k].digest
    ensures Digests(a) <= Digests(b) || Digests(b) <= Digests(a)
  {
  }

  /** No skip so far. */
  ghost predicate Unskipped(ds: seq<Delivery>) {
    forall k | 0 <= k < |ds| :: ds[k].Executed?
  }

  /** Where two lists were executed in different views, the views between were good. */
  ghost predicate ComparableViews(w: World, y: Sys, a: seq<Delivery>, b: seq<Delivery>) {
    forall k | 0 <= k < |a| && k < |b| && a[k].Executed? && b[k].Executed? ::
      a[k].view != b[k].view ==> GoodViews(w, y, FirstOf(a[k].view, b[k].view), k + 1)
  }

  lemma NumberedFromOne(w: World, run: seq<Sys>, i: nat, q: nat, k: nat)
    requires w.Valid() && IsRun(w, run) && i < |run| && w.Correct(q) && q < |run[i].replicas|
    requires Unskipped(run[i].replicas[q].deliveries) && k < |run[i].replicas[q].deliveries|
    ensures run[i].replicas[q].deliveries[k].n == k + 1
  {
    RunExecutes(w, run, i);
    assert Executes(w, run[i], q);
    NumbersFromOne(run[i].replicas[q].deliveries, k);
  }

  lemma DigestsMatch(w: World, run: seq<Sys>, i: nat, q: nat, j: nat, r: nat, k: nat)
    requires w.Valid() && IsRun(w, run) && i < |run| && j < |run| && w.Correct(q) && w.Correct(r)
    requires q < |run[i].replicas| && r < |run[j].replicas|
    requires Unskipped(run[i].replicas[q].deliveries) && Unskipped(run[j].replicas[r].deliveries)
    requires ComparableViews(w, run[|run| - 1], run[i].replicas[q].deliveries, run[j].replicas[r].deliveries)
    requires k < |run[i].replicas[q].deliveries| && k < |run[j].replicas[r].deliveries|
    ensures run[i].replicas[q].deliveries[k].digest == run[j].replicas[r].deliveries[k].digest
  {
    var a, b := run[i].replicas[q].deliveries, run[j].replicas[r].deliveries;
    NumberedFromOne(w, run, i, q, k);
    NumberedFromOne(w, run, j, r, k);
    ExecutionsAgree(w, run, i, q, k, a[k], j, r, k, b[k]);
  }

  /** The requests two correct replicas have executed, at any two moments of a run
      before their first skips, are prefixes of one another. */
  lemma ExecutionPrefix(w: World, run: seq<Sys>, i: nat, q: nat, j: nat, r: nat)
    requires w.Valid() && IsRun(w, run) && i < |run| && j < |run| && w.Correct(q) && w.Correct(r)
    requires q < |run[i].replicas| && r < |run[j].replicas|
    requires Unskipped(run[i].replicas[q].deliveries) && Unskipped(run[j].replicas[r].deliveries)
    requires ComparableViews(w, run[|run| - 1], run[i].replicas[q].deliveries, run[j].replicas[r].deliveries)
    ensures var a, b := Digests(run[i].replicas[q].deliveries), Digests(run[j].replicas[r].deliveries);
            a <= b || b <= a
    ensures forall k | 0 <= k < |run[i].replicas[q].deliveries| :: run[i].replicas[q].deliveries[k].n == k + 1
  {
    var a, b := run[i].replicas[q].deliveries, run[j].replicas[r].deliveries;
    forall k: nat | k < |a| ensures a[k].n == k + 1 { NumberedFromOne(w, run, i, q, k); }
    forall k: nat | k < |a| && k < |b| ensures a[k].digest == b[k].digest { DigestsMatch(w, run, i, q, j, r, k); }
    PrefixDigests(a, b);
  }
}
