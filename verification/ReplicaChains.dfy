/** Chains of actions: what a handler does is a legal chain, and a legal chain is a run. */
module ReplicaChains {
  import opened PbftTypes
  import opened ReplicaModel
  import opened ReplicaInvariant
  import opened PbftSystem

  /** The messages an action takes in. */
  function Consumes(a: Action): set<Message> {
    match a
    case AAcceptPrePrepare(pp) => {MPrePrepare(pp)}
    case AAddPrepare(p) => {MPrepare(p)}
    case AAddCommit(c) => {MCommit(c)}
    case ANoteHigh(c) => {MCheckpoint(c)}
    case AAddCheckpoint(c) => {MCheckpoint(c)}
    case AStoreViewChange(vc) => {MViewChange(vc)}
    case AStoreNewView(nv) => {MNewView(nv)}
    case _ => {}
  }

  /** Actions, the states before, between and after them, and the messages known in each
      state: those given at the start and those sent since. */
  datatype Chain = Chain(acts: seq<Action>, states: seq<ReplicaState>, known: seq<set<Message>>) {
    ghost predicate Shaped() { |states| == |acts| + 1 && |known| == |acts| + 1 }

    ghost function Start(): ReplicaState
      requires Shaped()
    {
      states[0]
    }

    ghost function Last(): ReplicaState
      requires Shaped()
    {
      states[|acts|]
    }

    ghost function Known(): set<Message>
      requires Shaped()
    {
      known[|acts|]
    }
  }

  ghost function NewChain(s: ReplicaState, given: set<Message>): Chain { Chain([], [s], [given]) }

  /** The chain with one action more, that leads to s and sends the given messages. */
  ghost function Grown(c: Chain, a: Action, s: ReplicaState, sent: set<Message>): Chain
    requires c.Shaped()
  {
    Chain(c.acts + [a], c.states + [s], c.known + [c.Known() + sent])
  }

  ghost predicate Longer(c: Chain, d: Chain) {
    && c.Shaped() && d.Shaped()
    && c.acts <= d.acts && c.states <= d.states && c.known <= d.known && c.Known() <= d.Known()
  }

  /** d goes on from c with action a. */
  ghost predicate GoesOn(c: Chain, d: Chain, a: Action) {
    Longer(c, d) && |c.acts| < |d.acts| && d.acts[|c.acts|] == a
  }

  /** d is c with the one action a. */
  ghost predicate Adds(c: Chain, d: Chain, a: Action) {
    GoesOn(c, d, a) && |d.acts| == |c.acts| + 1
  }

  lemma GrownAdds(c: Chain, a: Action, s: ReplicaState, sent: set<Message>)
    requires c.Shaped()
    ensures Adds(c, Grown(c, a, s, sent), a) && sent <= Grown(c, a, s, sent).Known()
  {
  }

  /** The action is enabled, takes in only known messages, and a new-view it stores only
      carries view-changes whose signatures verify. */
  ghost predicate Continues(cfg: Config, verified: ViewChange -> bool, known: set<Message>, s: ReplicaState, a: Action)
    requires cfg.Valid()
  {
    && Enabled(cfg, s, a) && Consumes(a) <= known && InputOk(s, a)
    && (a.AStoreNewView? ==> forall m | m in a.nv.vset :: verified(m))
  }

  ghost predicate LinkOk(cfg: Config, verified: ViewChange -> bool, c: Chain, k: nat)
    requires cfg.Valid() && c.Shaped() && k < |c.acts|
  {
    && Continues(cfg, verified, c.known[k], c.states[k], c.acts[k])
    && c.states[k + 1] == Apply(cfg, c.states[k], c.acts[k])
    && c.known[k + 1] == c.known[k] + Sent(cfg, c.states[k], c.acts[k])
  }

  ghost predicate Legal(cfg: Config, verified: ViewChange -> bool, c: Chain)
    requires cfg.Valid()
  {
    c.Shaped() && forall k: nat | k < |c.acts| :: LinkOk(cfg, verified, c, k)
  }

  lemma LinkStays(cfg: Config, verified: ViewChange -> bool, c: Chain, d: Chain, k: nat)
    requires cfg.Valid() && Longer(c, d) && k < |c.acts| && LinkOk(cfg, verified, c, k)
    ensures LinkOk(cfg, verified, d, k)
  {
  }

  lemma GrowLegal(cfg: Config, verified: ViewChange -> bool, c: Chain, a: Action)
    requires cfg.Valid() && Legal(cfg, verified, c) && Continues(cfg, verified, c.Known(), c.Last(), a)
    ensures Legal(cfg, verified, Grown(c, a, Apply(cfg, c.Last(), a), Sent(cfg, c.Last(), a)))
  {
    var d := Grown(c, a, Apply(cfg, c.Last(), a), Sent(cfg, c.Last(), a));
    LastLink(cfg, verified, c, a);
    forall k: nat | k < |d.acts| ensures LinkOk(cfg, verified, d, k) {
      if k < |c.acts| { LinkStays(cfg, verified, c, d, k); }
    }
  }

  lemma LastLink(cfg: Config, verified: ViewChange -> bool, c: Chain, a: Action)
    requires cfg.Valid() && c.Shaped() && Continues(cfg, verified, c.Known(), c.Last(), a)
    ensures var d := Grown(c, a, Apply(cfg, c.Last(), a), Sent(cfg, c.Last(), a));
            d.Shaped() && Longer(c, d) && |d.acts| == |c.acts| + 1 && LinkOk(cfg, verified, d, |c.acts|)
  {
  }

  // ----------------------------------------------------------- chains are runs

  lemma SameStep(w: World, run: seq<Sys>, run': seq<Sys>, i: nat)
    requires w.Valid() && i + 1 < |run| && i + 1 < |run'| && run[i] == run'[i] && run[i + 1] == run'[i + 1]
    requires StepAt(w, run, i)
    ensures StepAt(w, run', i)
  {
  }

  lemma LastStep(w: World, run: seq<Sys>, r: nat, a: Action, z: Sys)
    requires w.Valid() && run != [] && LocalNext(w, run[|run| - 1], r, a, z)
    ensures StepAt(w, run + [z], |run| - 1)
  {
    var run' := run + [z];
    assert run'[|run| - 1] == run[|run| - 1] && run'[|run|] == z;
  }

  lemma KeptStep(w: World, run: seq<Sys>, run': seq<Sys>, i: nat)
    requires w.Valid() && IsRun(w, run) && run <= run' && i + 1 < |run|
    ensures StepAt(w, run', i)
  {
    assert StepAt(w, run, i);
    SameStep(w, run, run', i);
  }

  lemma OneMoreStep(w: World, run: seq<Sys>, k: nat)
    requires w.Valid() && |run| == k + 2 && run[0] == Start(w)
    requires forall i: nat | i < k :: StepAt(w, run, i)
    requires StepAt(w, run, k)
    ensures IsRun(w, run)
  {
    forall i: nat | i + 1 < |run| ensures StepAt(w, run, i) {
      assert i < k || i == k;
    }
  }

  lemma KeptSteps(w: World, run: seq<Sys>, run': seq<Sys>)
    requires w.Valid() && IsRun(w, run) && |run'| == |run| + 1 && run <= run' && StepAt(w, run', |run| - 1)
    ensures IsRun(w, run')
  {
    EarlierSteps(w, run, run');
    assert run'[0] == run[0];
    OneMoreStep(w, run', |run| - 1);
  }

  lemma EarlierSteps(w: World, run: seq<Sys>, run': seq<Sys>)
    requires w.Valid() && IsRun(w, run) && run <= run'
    ensures forall i: nat | i < |run| - 1 :: StepAt(w, run', i)
  {
    forall i: nat | i < |run| - 1 ensures StepAt(w, run', i) {
      KeptStep(w, run, run', i);
    }
  }

  /** z is y after k actions of the chain: only replica r changed. */
  ghost predicate Performed(y: Sys, r: nat, c: Chain, k: nat, z: Sys)
    requires r < |y.replicas| && c.Shaped() && k <= |c.acts|
  {
    z.replicas == y.replicas[r := c.states[k]] && c.known[k] <= z.net && y.net <= z.net
  }

  /** The signatures are ideal: when a new-view is stored, each of its view-changes was issued by
      its replica, before or within the chain, or comes from a faulty one. */
  ghost predicate IssuedBy(w: World, net: set<Message>, c: Chain)
    requires c.Shaped()
  {
    forall k: nat | k < |c.acts| && c.acts[k].AStoreNewView? :: AllAuthentic(w, net + c.known[k], c.acts[k].nv)
  }

  ghost predicate AllAuthentic(w: World, net: set<Message>, nv: NewView) {
    forall m | m in nv.vset :: Authentic(w, net, m)
  }

  lemma PerformOneMore(w: World, y: Sys, r: nat, verified: ViewChange -> bool, c: Chain, k: nat, z: Sys) returns (z': Sys)
    requires w.Valid() && w.Correct(r) && r < |y.replicas| && Legal(w.cfg, verified, c) && k < |c.acts|
    requires IssuedBy(w, y.net, c)
    requires Performed(y, r, c, k, z)
    ensures LocalNext(w, z, r, c.acts[k], z') && Performed(y, r, c, k + 1, z')
  {
    assert LinkOk(w.cfg, verified, c, k);
    if c.acts[k].AStoreNewView? {
      assert AllAuthentic(w, y.net + c.known[k], c.acts[k].nv);
      assert AllAuthentic(w, z.net, c.acts[k].nv);
    }
    z' := Stepped(w, z, r, c.acts[k]);
  }

  /** A run goes on by one action of the chain. */
  lemma RunOneMore(w: World, run: seq<Sys>, y: Sys, r: nat, verified: ViewChange -> bool, c: Chain, k: nat) returns (longer: seq<Sys>)
    requires w.Valid() && IsRun(w, run) && w.Correct(r) && r < |y.replicas| && Legal(w.cfg, verified, c) && k < |c.acts|
    requires IssuedBy(w, y.net, c)
    requires Performed(y, r, c, k, run[|run| - 1])
    ensures IsRun(w, longer) && run <= longer && Performed(y, r, c, k + 1, longer[|longer| - 1])
  {
    var z := PerformOneMore(w, y, r, verified, c, k, run[|run| - 1]);
    LastStep(w, run, r, c.acts[k], z);
    longer := run + [z];
    KeptSteps(w, run, longer);
  }

  lemma {:induction false} PrefixIsRun(w: World, run: seq<Sys>, r: nat, verified: ViewChange -> bool, c: Chain, k: nat)
      returns (longer: seq<Sys>)
    requires w.Valid() && IsRun(w, run) && w.Correct(r) && r < |run[|run| - 1].replicas|
    requires Legal(w.cfg, verified, c) && k <= |c.acts|
    requires c.Start() == run[|run| - 1].replicas[r] && c.known[0] <= run[|run| - 1].net
    requires IssuedBy(w, run[|run| - 1].net, c)
    ensures IsRun(w, longer) && run <= longer && Performed(run[|run| - 1], r, c, k, longer[|longer| - 1])
  {
    if k == 0 {
      longer := run;
    } else {
      var before := PrefixIsRun(w, run, r, verified, c, k - 1);
      longer := RunOneMore(w, before, run[|run| - 1], r, verified, c, k - 1);
    }
  }

  /** Whatever legal chain a correct replica performs on messages that were sent is a
      sequence of steps of the system: the run goes on to a state in which this replica is
      where the chain leads and the others are where they were. */
  lemma ChainIsRun(w: World, run: seq<Sys>, r: nat, verified: ViewChange -> bool, c: Chain) returns (longer: seq<Sys>)
    requires w.Valid() && IsRun(w, run) && w.Correct(r) && r < |run[|run| - 1].replicas|
    requires Legal(w.cfg, verified, c)
    requires c.Start() == run[|run| - 1].replicas[r] && c.known[0] <= run[|run| - 1].net
    requires IssuedBy(w, run[|run| - 1].net, c)
    ensures IsRun(w, longer) && run <= longer
    ensures longer[|longer| - 1].replicas == run[|run| - 1].replicas[r := c.Last()]
    ensures c.Known() <= longer[|longer| - 1].net
  {
    longer := PrefixIsRun(w, run, r, verified, c, |c.acts|);
  }
}
