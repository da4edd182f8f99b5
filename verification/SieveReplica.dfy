/** Speculative execution on top of the total order. */
module SieveReplica {
  import opened Common
  import opened SieveVote
  import opened Quorums

  // ------------------------------------------------- what the order decides

  datatype Flush = Flush(view: nat)

  /** A totally ordered decision. */
  datatype Ordered = OVerifySet(vset: VerifySet) | OFlush(flush: Flush)

  datatype Decision = Decision(block: nat, result: SieveId)

  /** What all replicas should agree on: the epoch and the decided blocks. */
  datatype Decisions = Decisions(epoch: nat, log: seq<Decision>) {
    function Last(): nat { if log == [] then 0 else log[|log| - 1].block }
  }

  /** What a verify-set must be like for its decision to be the one of all replicas: agreed or
      without any backed result, and an agreed result is for the block it is about. */
  ghost predicate Sound(f: nat, x: VerifySet) {
    && |x.dset| >= f + 1 && (Unanimous(x.dset) || forall r :: !Backed(f, x.dset, r))
    && (forall v | v in x.dset && Unanimous(x.dset) :: v.result.blockNumber == x.blockNumber)
  }

  /** A correct replica verifies a block with a result for that block. */
  ghost predicate HonestVerifies(faulty: set<nat>, x: VerifySet) {
    forall v | v in x.dset && v.replicaId !in faulty :: v.result.blockNumber == v.blockNumber
  }

  lemma SenderCount(vs: seq<Verify>)
    requires DistinctSenders(vs)
    ensures |(set v | v in vs :: v.replicaId)| == |vs|
  {
    if vs != [] {
      var k := |vs| - 1;
      SenderCount(vs[..k]);
      var init := set v | v in vs[..k] :: v.replicaId;
      assert vs == vs[..k] + [vs[k]];
      assert (set v | v in vs :: v.replicaId) == init + {vs[k].replicaId};
      assert vs[k].replicaId !in init;
    } else {
      assert (set v | v in vs :: v.replicaId) == {};
    }
  }

  /** Every verify-set that validateVerifySet accepts is sound, because one of f+1 distinct replicas
      is correct. */
  lemma AcceptedIsSound(f: nat, primary: nat, x: VerifySet, faulty: set<nat>)
    requires Acceptable(f, primary, x) && |faulty| <= f && HonestVerifies(faulty, x)
    ensures Sound(f, x)
  {
    if Unanimous(x.dset) {
      var senders := set v | v in x.dset :: v.replicaId;
      SenderCount(x.dset);
      var r := Outside(senders, faulty);
      var v :| v in x.dset && v.replicaId == r;
      assert v.result.blockNumber == x.blockNumber;
    }
  }

  /** The order alone determines the decisions: a unanimous verify-set of the epoch for a
      block not yet decided decides it, and a flush advances the epoch. */
  function Decide(d: Decisions, o: Ordered): Decisions {
    match o
    case OVerifySet(x) =>
      if x.view == d.epoch && x.blockNumber > d.Last() && x.dset != [] && Unanimous(x.dset)
      then d.(log := d.log + [Decision(x.blockNumber, x.dset[0].result)]) else d
    case OFlush(flush) => if flush.view >= d.epoch then d.(epoch := flush.view) else d
  }

  function DecideAll(d: Decisions, os: seq<Ordered>): Decisions {
    if os == [] then d else Decide(DecideAll(d, os[..|os| - 1]), os[|os| - 1])
  }

  ghost predicate Increasing(log: seq<Decision>) {
    forall i, j | 0 <= i < j < |log| :: log[i].block < log[j].block
  }

  lemma DecideIncreases(d: Decisions, o: Ordered)
    requires Increasing(d.log)
    ensures Increasing(Decide(d, o).log) && d.log <= Decide(d, o).log && d.epoch <= Decide(d, o).epoch
  {
  }

  /** No block is ever decided twice, and decisions are final. */
  lemma {:induction false} DecidedOnce(d: Decisions, os: seq<Ordered>)
    requires Increasing(d.log)
    ensures Increasing(DecideAll(d, os).log) && d.log <= DecideAll(d, os).log && d.epoch <= DecideAll(d, os).epoch
  {
    if os != [] {
      var k := |os| - 1;
      DecidedOnce(d, os[..k]);
      DecideIncreases(DecideAll(d, os[..k]), os[k]);
    }
  }

  // ------------------------------------------------------- one replica's trace

  datatype Event =
    | Started(block: nat, req: string)
    | Committed(block: nat, result: SieveId)
    | RolledBack(block: nat)
    | SkippedTo(block: nat, result: SieveId)

  /** A speculative execution is open. */
  function Open(t: seq<Event>): bool {
    if t == [] then false else t[|t| - 1].Started?
  }

  /** The results committed or skipped to, in order. */
  function Decided(t: seq<Event>): seq<Decision> {
    if t == [] then [] else Decided(t[..|t| - 1]) + DecisionOf(t[|t| - 1])
  }

  function DecisionOf(e: Event): seq<Decision> {
    if e.Committed? || e.SkippedTo? then [Decision(e.block, e.result)] else []
  }

  /** Executions do not overlap: each is started when none is open and is ended by exactly
      one commit, rollback or skip; commits and rollbacks end the open execution and name
      its block. */
  ghost predicate WellBracketed(t: seq<Event>) {
    forall k: nat | k < |t| :: BracketAt(t, k)
  }

  ghost predicate BracketAt(t: seq<Event>, k: nat)
    requires k < |t|
  {
    Follows(t[..k], t[k])
  }

  /** What may come after t. */
  ghost predicate Follows(t: seq<Event>, e: Event) {
    && (e.Started? ==> !Open(t))
    && (e.Committed? || e.RolledBack? ==> Open(t) && t[|t| - 1].block == e.block)
  }

  lemma AppendBracketed(t: seq<Event>, e: Event)
    requires WellBracketed(t) && Follows(t, e)
    ensures WellBracketed(t + [e]) && Open(t + [e]) == e.Started? && Decided(t + [e]) == Decided(t) + DecisionOf(e)
  {
    var u := t + [e];
    assert u[..|t|] == t;
    forall k: nat | k < |u| ensures BracketAt(u, k) {
      if k < |t| {
        assert u[..k] == t[..k] && BracketAt(t, k);
      }
    }
  }

  lemma SubsetDistinct(vs: seq<Verify>, r: SieveId)
    requires DistinctSenders(vs)
    ensures DistinctSenders(Group(vs, r))
  {
    if vs != [] {
      var k := |vs| - 1;
      SubsetDistinct(vs[..k], r);
      var g := Group(vs[..k], r);
      forall v | v in g ensures v.replicaId != vs[k].replicaId {
        assert v in vs[..k];
      }
    }
  }

  /** What verifyDset makes of 2f+1 signed verifies from distinct replicas validates. */
  lemma DsetAcceptable(f: nat, vs: seq<Verify>, d: seq<Verify>, ok: bool)
    requires DsetOf(f, vs, d, ok) && DistinctSenders(vs) && |vs| >= f + 1
    ensures DistinctSenders(d) && |d| >= f + 1 && (forall v | v in d :: v in vs)
    ensures Unanimous(d) || forall r :: !Backed(f, d, r)
  {
    if ok {
      var r :| Backed(f, vs, r) && d == Group(vs, r);
      SubsetDistinct(vs, r);
    }
  }

  /** On a sound verify-set verifyDset commits exactly when the set is unanimous, on its result. */
  lemma SoundDecision(f: nat, x: VerifySet, d: seq<Verify>, ok: bool)
    requires DsetOf(f, x.dset, d, ok)
    ensures ok ==> d != []
    ensures Sound(f, x) ==> (ok <==> Unanimous(x.dset)) && x.dset != []
    ensures Sound(f, x) && ok ==> d[0].result == x.dset[0].result && d[0].result.blockNumber == x.blockNumber
  {
    if ok {
      var r :| Backed(f, x.dset, r) && d == Group(x.dset, r);
      assert d[0] in d && d[0] in x.dset;
    }
    if Sound(f, x) && Unanimous(x.dset) {
      GroupOfAll(x.dset, x.dset[0].result);
      assert Backed(f, x.dset, x.dset[0].result);
    }
  }

  datatype Execute = Execute(view: nat, blockNumber: nat, request: string, replicaId: nat)

  /** The fields that say what is executed speculatively. */
  datatype Speculation = Speculation(queued: map<nat, Execute>, req: ReqDigest, view: nat, block: nat)

  /** processExecute: the queued execute of the epoch's primary is consumed; it starts if it is
      of the epoch and for the next block and the view is active. */
  function StartNext(s: Speculation, epoch: nat, N: nat, active: bool): Speculation
    requires N > 0
  {
    var primary := epoch % N;
    if s.req.Some? || primary !in s.queued then s
    else
      var e := s.queued[primary];
      var rest := s.(queued := s.queued - {primary});
      if e.view == epoch && e.replicaId == primary && active && e.blockNumber == s.block + 1
      then rest.(req := Some(e.request), view := e.view, block := e.blockNumber) else rest
  }

  /** The checks of processExecute. */
  method Dequeue(s: Speculation, epoch: nat, N: nat, active: bool) returns (s': Speculation, started: bool)
    requires N > 0
    ensures s' == StartNext(s, epoch, N, active)
    ensures started <==> s.req.None? && s'.req.Some?
    ensures if started then s'.block == s.block + 1 else s' == s.(queued := s'.queued)
  {
    started := false;
    if s.req.Some? {
      return s, false;
    }
    var primary := epoch % N;
    if primary !in s.queued {
      return s, false;
    }
    var exec := s.queued[primary];
    s' := s.(queued := s.queued - {primary});
    if exec.view != epoch || primary != exec.replicaId || !active {
      return;
    }
    if exec.blockNumber != s.block + 1 {
      return;
    }
    return s'.(req := Some(exec.request), view := exec.view, block := exec.blockNumber), true;
  }

  /** recvExecute: an execute of a current or later view from its primary is queued, one per replica. */
  function TakeExecute(s: Speculation, e: Execute, epoch: nat, N: nat, active: bool): Speculation
    requires N > 0
  {
    if e.view >= epoch && e.blockNumber > s.block && e.view % N == e.replicaId && e.replicaId !in s.queued
    then StartNext(s.(queued := s.queued[e.replicaId := e]), epoch, N, active) else s
  }

  /** What reaches the executor when a speculation starts. */
  function StartEvents(s: Speculation, s': Speculation): seq<Event> {
    if s.req.None? && s'.req.Some? then [Started(s'.block, s'.req.value)] else []
  }

  /** What a replica turns to once an execution has ended: the primary to the next transaction,
      a backup to the next execute. */
  function TurnTo(s: Speculation, txs: seq<string>, epoch: nat, N: nat, id: nat, active: bool): Speculation
    requires N > 0
  {
    var s' := TurnToRequest(s, txs, epoch, N, id, active);
    if epoch % N != id then StartNext(s', epoch, N, active) else s'
  }

  function TurnToRequest(s: Speculation, txs: seq<string>, epoch: nat, N: nat, id: nat, active: bool): Speculation
    requires N > 0
  {
    if txs == [] then s else TakeExecute(s, Execute(epoch, s.block + 1, txs[0], id), epoch, N, active)
  }

  /** How an execution ends: rolled back, committed, or replaced by a skip. */
  function EndOf(s: Speculation, result: Option<SieveId>, sync: bool): Event {
    if result.None? then RolledBack(s.block)
    else if sync then SkippedTo(result.value.blockNumber, result.value)
    else Committed(s.block, result.value)
  }

  /** The speculation after that end. */
  function Ended(s: Speculation, result: Option<SieveId>, sync: bool): Speculation
    requires result.None? ==> s.block > 0
  {
    s.(req := None, block := if result.None? then s.block - 1 else if sync then result.value.blockNumber else s.block)
  }

  /** At most one of two successive attempts starts something. */
  lemma StartedOnce(s: Speculation, s': Speculation, s'': Speculation, t: seq<Event>)
    requires s.req.None? && (s'.req.Some? ==> s'' == s')
    ensures t + StartEvents(s, s') + StartEvents(s', s'') == t + StartEvents(s, s'')
  {
  }

  /** Everything that can happen to a replica. */
  datatype Input = IRequest(tx: string) | IExecute(exec: Execute) | IVerify(verify: Verify) | IViewChange(view: nat)
                 | IActive(active: bool) | IOrdered(ordered: Ordered)

  /** The totally ordered decisions among the inputs. */
  function OrderOf(inputs: seq<Input>): seq<Ordered> {
    if inputs == [] then []
    else
      var k := |inputs| - 1;
      OrderOf(inputs[..k]) + if inputs[k].IOrdered? then [inputs[k].ordered] else []
  }

  /** The total order holds verify-sets that validateVerifySet accepts. */
  ghost predicate AllAccepted(f: nat, N: nat, faulty: set<nat>, inputs: seq<Input>)
    requires N > 0
  {
    forall i | i in inputs && i.IOrdered? && i.ordered.OVerifySet? :: Accepted(f, N, faulty, i.ordered.vset)
  }

  ghost predicate Accepted(f: nat, N: nat, faulty: set<nat>, x: VerifySet)
    requires N > 0
  {
    Acceptable(f, x.view % N, x) && HonestVerifies(faulty, x)
  }

  lemma InputIsSound(f: nat, N: nat, faulty: set<nat>, inputs: seq<Input>, i: nat)
    requires N > 0 && i < |inputs|
    ensures |faulty| <= f && AllAccepted(f, N, faulty, inputs) && inputs[i].IOrdered? && inputs[i].ordered.OVerifySet? ==>
              Sound(f, inputs[i].ordered.vset)
  {
    if |faulty| <= f && AllAccepted(f, N, faulty, inputs) && inputs[i].IOrdered? && inputs[i].ordered.OVerifySet? {
      var x := inputs[i].ordered.vset;
      assert inputs[i] in inputs && Accepted(f, N, faulty, x);
      AcceptedIsSound(f, x.view % N, x, faulty);
    }
  }

  lemma OneMoreInput(d: Decisions, inputs: seq<Input>, k: nat)
    requires k < |inputs|
    ensures DecideAll(d, OrderOf(inputs[..k + 1])) ==
            if inputs[k].IOrdered? then Decide(DecideAll(d, OrderOf(inputs[..k])), inputs[k].ordered)
            else DecideAll(d, OrderOf(inputs[..k]))
  {
    var before, after := OrderOf(inputs[..k]), OrderOf(inputs[..k + 1]);
    assert inputs[..k + 1][..k] == inputs[..k];
    if inputs[k].IOrdered? {
      assert after[..|after| - 1] == before;
    } else {
      assert after == before;
    }
  }

  class Sieve {
    const N: nat
    const f: nat
    const id: nat

    var epoch: nat
    var imminentEpoch: nat
    var blockNumber: nat
    var currentReq: ReqDigest
    var currentView: nat
    var verifyStore: seq<Verify>
    var queuedExec: map<nat, Execute>
    var queuedTx: seq<string>

    /** The pbft core's activeView, set from outside. */
    var activeView: bool

    /** What reached the executor, in order. */
    ghost var trace: seq<Event>

    ghost function Abs(): Decisions
      reads this
    {
      Decisions(epoch, Decided(trace))
    }

    /** The block number is the last decided block, plus one exactly while a request is
        being executed speculatively. */
    ghost predicate Valid()
      reads this
    {
      && N > 0 && WellBracketed(trace) && (currentReq.Some? <==> Open(trace))
      && blockNumber == Abs().Last() + (if currentReq.Some? then 1 else 0)
      && (currentReq.Some? ==> trace[|trace| - 1] == Started(blockNumber, currentReq.value))
    }

    constructor (N: nat, f: nat, id: nat)
      requires N >= 3 * f + 1
      ensures Valid() && Abs() == Decisions(0, []) && trace == []
      ensures this.N == N && this.f == f && this.id == id
    {
      this.N, this.f, this.id := N, f, id;
      epoch, imminentEpoch, blockNumber, currentReq, currentView := 0, 0, 0, None, 0;
      verifyStore, queuedExec, queuedTx, activeView, trace := [], map[], [], true, [];
    }

    function Primary(v: nat): nat
      requires N > 0
      reads this
    {
      v % N
    }

    function Current(): Speculation
      reads this
    {
      Speculation(queuedExec, currentReq, currentView, blockNumber)
    }

    ghost method Record(e: Event)
      requires WellBracketed(trace) && Follows(trace, e)
      modifies this`trace
      ensures trace == old(trace) + [e] && WellBracketed(trace) && Open(trace) == e.Started?
      ensures Decided(trace) == Decided(old(trace)) + DecisionOf(e)
    {
      AppendBracketed(trace, e);
      trace := trace + [e];
    }

    // ------------------------------------------------------------- executions

    /** processExecute: starts at most one execution, of the next block, and decides nothing. */
    method ProcessExecute()
      requires Valid()
      modifies this`queuedExec, this`currentReq, this`currentView, this`blockNumber, this`trace
      ensures Valid() && Abs() == old(Abs())
      ensures Current() == StartNext(old(Current()), epoch, N, activeView)
      ensures trace == old(trace) + StartEvents(old(Current()), Current())
    {
      var s, started := Dequeue(Current(), epoch, N, activeView);
      if started {
        Start(s);
      } else {
        queuedExec := s.queued;
      }
    }

    /** The end of processExecute. */
    method Start(s: Speculation)
      requires Valid() && currentReq.None? && s.req.Some? && s.block == blockNumber + 1
      modifies this`queuedExec, this`currentReq, this`currentView, this`blockNumber, this`trace
      ensures Valid() && Abs() == old(Abs()) && Current() == s && trace == old(trace) + [Started(s.block, s.req.value)]
    {
      Record(Started(s.block, s.req.value));
      queuedExec, currentReq, currentView, blockNumber := s.queued, s.req, s.view, s.block;
    }

    /** recvExecute. */
    method RecvExecute(exec: Execute)
      requires Valid()
      modifies this`queuedExec, this`currentReq, this`currentView, this`blockNumber, this`trace
      ensures Valid() && Abs() == old(Abs())
      ensures Current() == TakeExecute(old(Current()), exec, epoch, N, activeView)
      ensures trace == old(trace) + StartEvents(old(Current()), Current())
    {
      if !(exec.view >= epoch && exec.blockNumber > blockNumber && Primary(exec.view) == exec.replicaId) {
        return;
      }
      if exec.replicaId !in queuedExec {
        queuedExec := queuedExec[exec.replicaId := exec];
        ProcessExecute();
      }
    }

    /** The execute that the primary sends for the oldest queued transaction. */
    function NextExecute(): Execute
      requires queuedTx != []
      reads this
    {
      Execute(epoch, blockNumber + 1, queuedTx[0], id)
    }

    /** processRequest: an idle primary turns the oldest queued transaction into an execute of the
        block after the last decided one, and takes it in itself. */
    method ProcessRequest() returns (sent: Option<Execute>)
      requires Valid()
      modifies this`queuedTx, this`verifyStore, this`queuedExec, this`currentReq, this`currentView, this`blockNumber, this`trace
      ensures Valid() && Abs() == old(Abs())
      ensures sent.Some? <==> old(queuedTx) != [] && old(currentReq).None?
      ensures sent.Some? ==> sent.value == old(NextExecute()) && sent.value.blockNumber == Abs().Last() + 1
      ensures sent.Some? ==> queuedTx == old(queuedTx)[1..] && verifyStore == []
      ensures sent.Some? ==> Current() == TakeExecute(old(Current()), sent.value, epoch, N, activeView)
      ensures sent.None? ==> queuedTx == old(queuedTx) && verifyStore == old(verifyStore) && Current() == old(Current())
      ensures trace == old(trace) + StartEvents(old(Current()), Current())
    {
      if queuedTx == [] || currentReq.Some? {
        return None;
      }
      var txRaw := queuedTx[0];
      queuedTx := queuedTx[1..];
      verifyStore := [];
      var exec := Execute(epoch, blockNumber + 1, txRaw, id);
      RecvExecute(exec);
      return Some(exec);
    }

    /** recvRequest: only an active primary queues a transaction; if idle it starts on the oldest. */
    method RecvRequest(txRaw: string) returns (sent: Option<Execute>)
      requires Valid()
      modifies this`queuedTx, this`verifyStore, this`queuedExec, this`currentReq, this`currentView, this`blockNumber, this`trace
      ensures Valid() && Abs() == old(Abs())
      ensures sent.Some? <==> Primary(epoch) == id && activeView && old(currentReq).None?
      ensures Primary(epoch) != id || !activeView ==>
                queuedTx == old(queuedTx) && verifyStore == old(verifyStore) && Current() == old(Current())
      ensures Primary(epoch) == id && activeView && sent.None? ==>
                queuedTx == old(queuedTx) + [txRaw] && verifyStore == old(verifyStore) && Current() == old(Current())
      ensures sent.Some? ==> verifyStore == [] && [sent.value.request] + queuedTx == old(queuedTx) + [txRaw]
      ensures sent.Some? ==> Current() == TakeExecute(old(Current()), sent.value, epoch, N, activeView)
      ensures trace == old(trace) + StartEvents(old(Current()), Current())
    {
      if Primary(epoch) != id || !activeView {
        return None;
      }
      queuedTx := queuedTx + [txRaw];
      sent := None;
      if currentReq.None? {
        sent := ProcessRequest();
      }
    }

    // ------------------------------------------------------------------ verifies

    /** The stored verifies are about the current execution and from distinct replicas. */
    ghost predicate StoreFresh()
      reads this
    {
      && DistinctSenders(verifyStore)
      && forall v | v in verifyStore :: v.signed && v.view == epoch && v.blockNumber == blockNumber && v.requestDigest == currentReq
    }

    /** The verify is one the primary waits for. */
    ghost predicate Awaited(v: Verify)
      requires N > 0
      reads this
    {
      && Primary(epoch) == id && activeView && v.signed
      && v.view == epoch && v.blockNumber == blockNumber && v.requestDigest == currentReq
      && forall w | w in verifyStore :: w.replicaId != v.replicaId
    }

    /** recvVerify: exactly the awaited verifies are stored, one per replica, and the 2f+1st makes
        a verify-set. One made from fresh verifies is one that every replica accepts. */
    method RecvVerify(v: Verify) returns (sent: Option<VerifySet>)
      requires Valid()
      modifies this`verifyStore
      ensures Valid() && Abs() == old(Abs())
      ensures verifyStore == if old(Awaited(v)) then old(verifyStore) + [v] else old(verifyStore)
      ensures sent.Some? <==> old(Awaited(v)) && |verifyStore| == 2 * f + 1
      ensures sent.Some? ==> exists ok :: DsetOf(f, verifyStore, sent.value.dset, ok)
      ensures sent.Some? ==> sent.value == VerifySet(epoch, blockNumber, currentReq, sent.value.dset, id, true)
      ensures old(StoreFresh()) ==> StoreFresh() && (sent.Some? ==> Acceptable(f, Primary(sent.value.view), sent.value))
    {
      sent := None;
      if Primary(epoch) != id || !activeView || !v.signed {
        return;
      }
      if v.view != epoch || v.blockNumber != blockNumber || v.requestDigest != currentReq {
        return;
      }
      var i := 0;
      while i < |verifyStore|
        invariant 0 <= i <= |verifyStore|
        invariant forall j | 0 <= j < i :: verifyStore[j].replicaId != v.replicaId
      {
        if verifyStore[i].replicaId == v.replicaId {
          assert verifyStore[i] in verifyStore;
          return;
        }
        i := i + 1;
      }
      verifyStore := verifyStore + [v];
      if |verifyStore| == 2 * f + 1 {
        var d, ok := VerifyDset(f, verifyStore);
        sent := Some(VerifySet(epoch, blockNumber, currentReq, d, id, true));
        if StoreFresh() {
          DsetAcceptable(f, verifyStore, d, ok);
        }
      }
    }

    // ----------------------------------------------------------- the total order

    /** The decision of executeVerifySet: commit or roll back what is being executed, or skip
        to a result that was not executed here. */
    method Settle(x: VerifySet, result: Option<SieveId>, sync: bool)
      requires Valid() && x.blockNumber > Abs().Last()
      requires sync ==> result.Some?
      requires !sync ==> currentReq.Some? && x.blockNumber == blockNumber
      modifies this`blockNumber, this`currentReq, this`trace
      ensures Valid() && currentReq.None?
      ensures Current() == Ended(old(Current()), result, sync) && trace == old(trace) + [EndOf(old(Current()), result, sync)]
      ensures result.None? ==> Abs() == old(Abs())
      ensures result.Some? && result.value.blockNumber == x.blockNumber ==>
                Abs() == old(Abs()).(log := old(Abs()).log + [Decision(x.blockNumber, result.value)])
    {
      if result.None? {
        Record(RolledBack(blockNumber));
        blockNumber := blockNumber - 1;
      } else if !sync {
        Record(Committed(blockNumber, result.value));
      } else {
        Record(SkippedTo(result.value.blockNumber, result.value));
        blockNumber := result.value.blockNumber;
      }
      currentReq := None;
    }

    /** The verify-set is of another epoch or about a block that is decided here. */
    predicate Ignores(x: VerifySet)
      reads this
    {
      x.view != epoch || x.blockNumber < blockNumber || (x.blockNumber == blockNumber && currentReq.None?)
    }

    /** The verify-set is not about what is executed here. */
    predicate Differs(x: VerifySet)
      reads this
    {
      currentReq.None? || x.blockNumber != blockNumber || x.requestDigest != currentReq
    }

    /** The result that a sound verify-set agrees on. */
    function Agreed(x: VerifySet): Option<SieveId>
      requires x.dset != []
    {
      if Unanimous(x.dset) then Some(x.dset[0].result) else None
    }

    /** A sound verify-set makes this replica end what it executes or skip. */
    predicate ActsOn(x: VerifySet)
      reads this
    {
      !Ignores(x) && x.dset != [] && (Agreed(x).Some? || !Differs(x))
    }

    method GoOnWithRequest()
      requires Valid() && currentReq.None?
      modifies this`queuedTx, this`verifyStore, this`queuedExec, this`currentReq, this`currentView, this`blockNumber, this`trace
      ensures Valid() && Abs() == old(Abs())
      ensures Current() == TurnToRequest(old(Current()), old(queuedTx), epoch, N, id, activeView)
      ensures queuedTx == if old(queuedTx) == [] then [] else old(queuedTx)[1..]
      ensures trace == old(trace) + StartEvents(old(Current()), Current())
    {
      if queuedTx != [] {
        var sent := ProcessRequest();
      }
    }

    /** Turns to the next execution. */
    method GoOn()
      requires Valid() && currentReq.None?
      modifies this`queuedTx, this`verifyStore, this`queuedExec, this`currentReq, this`currentView, this`blockNumber, this`trace
      ensures Valid() && Abs() == old(Abs())
      ensures Current() == TurnTo(old(Current()), old(queuedTx), epoch, N, id, activeView)
      ensures queuedTx == if old(queuedTx) == [] then [] else old(queuedTx)[1..]
      ensures trace == old(trace) + StartEvents(old(Current()), Current())
    {
      GoOnWithRequest();
      if Primary(epoch) != id {
        ghost var s := Current();
        ProcessExecute();
        StartedOnce(old(Current()), s, Current(), old(trace));
      }
    }

    /** executeVerifySet. A sound verify-set has exactly the effect the order prescribes,
        whatever this replica was executing: one that is ignored or asks for the rollback of
        something else changes nothing, any other ends the execution and goes on to the next. */
    method ExecuteVerifySet(x: VerifySet)
      requires Valid()
      modifies this`queuedTx, this`verifyStore, this`queuedExec, this`currentReq, this`currentView, this`blockNumber, this`trace
      ensures Valid()
      ensures Sound(f, x) ==> Abs() == Decide(old(Abs()), OVerifySet(x))
      ensures old(Ignores(x)) || (Sound(f, x) && !old(ActsOn(x))) ==>
                Current() == old(Current()) && queuedTx == old(queuedTx) && trace == old(trace)
      ensures Sound(f, x) && old(ActsOn(x)) ==> Acted(old(Current()), old(queuedTx), old(trace), Agreed(x), old(Differs(x)))
    {
      if x.view != epoch || x.blockNumber < blockNumber || (x.blockNumber == blockNumber && currentReq.None?) {
        return;
      }
      var sync := currentReq.None? || x.blockNumber != blockNumber || x.requestDigest != currentReq;
      var d, shouldCommit := VerifyDset(f, x.dset);
      SoundDecision(f, x, d, shouldCommit);
      if !shouldCommit && sync {
        return;
      }
      Settle(x, if shouldCommit then Some(d[0].result) else None, sync);
      GoOn();
    }

    /** The execution was ended and the next one turned to. */
    ghost predicate Acted(was: Speculation, txs: seq<string>, log: seq<Event>, result: Option<SieveId>, sync: bool)
      requires N > 0
      reads this
    {
      && (result.None? ==> was.block > 0)
      && var s := Ended(was, result, sync);
      && Current() == TurnTo(s, txs, epoch, N, id, activeView)
      && trace == log + [EndOf(was, result, sync)] + StartEvents(s, Current())
    }

    /** Rolls back the open execution. */
    method Abort()
      requires Valid() && currentReq.Some?
      modifies this`blockNumber, this`currentReq, this`trace
      ensures Valid() && Abs() == old(Abs())
      ensures Current() == Ended(old(Current()), None, false) && trace == old(trace) + [RolledBack(old(blockNumber))]
    {
      Record(RolledBack(blockNumber));
      blockNumber := blockNumber - 1;
      currentReq := None;
    }

    /** executeFlush. */
    method ExecuteFlush(flush: Flush)
      requires Valid()
      modifies this`epoch, this`queuedTx, this`blockNumber, this`currentReq, this`trace
      ensures Valid() && Abs() == Decide(old(Abs()), OFlush(flush))
      ensures flush.view < old(epoch) ==> Current() == old(Current()) && queuedTx == old(queuedTx) && trace == old(trace)
      ensures flush.view >= old(epoch) ==> queuedTx == []
      ensures flush.view >= old(epoch) ==> if old(currentReq).None? then Current() == old(Current()) && trace == old(trace)
                else Current() == Ended(old(Current()), None, false) && trace == old(trace) + [RolledBack(old(blockNumber))]
    {
      if flush.view < epoch {
        return;
      }
      epoch := flush.view;
      queuedTx := [];
      if currentReq.Some? {
        Abort();
      }
    }

    /** viewChange: what pbft-core signals about a new view. */
    method ViewChange(newView: nat)
      requires Valid()
      modifies this`queuedTx, this`imminentEpoch
      ensures Valid() && Abs() == old(Abs()) && trace == old(trace) && queuedTx == [] && imminentEpoch == newView
    {
      queuedTx := [];
      imminentEpoch := newView;
    }

    /** One input. */
    method Step(input: Input)
      requires Valid()
      modifies this
      ensures Valid()
      ensures !input.IOrdered? ==> Abs() == old(Abs())
      ensures input.IOrdered? && (input.ordered.OVerifySet? ==> Sound(f, input.ordered.vset)) ==>
                Abs() == Decide(old(Abs()), input.ordered)
    {
      match input
      case IRequest(tx) => var sent := RecvRequest(tx);
      case IExecute(exec) => RecvExecute(exec);
      case IVerify(v) => var sent := RecvVerify(v);
      case IViewChange(v) => ViewChange(v);
      case IActive(active) => activeView := active;
      case IOrdered(o) =>
        if o.OVerifySet? {
          ExecuteVerifySet(o.vset);
        } else {
          ExecuteFlush(o.flush);
        }
    }

    /** A whole run. With at most f faulty replicas and only accepted verify-sets in the total
        order, the decisions depend on that order only, so replicas that see the same order decide
        the same, whatever each of them executed speculatively. */
    method Run(inputs: seq<Input>, ghost faulty: set<nat>)
      requires Valid()
      modifies this
      ensures Valid()
      ensures |faulty| <= f && AllAccepted(f, N, faulty, inputs) ==> Abs() == DecideAll(old(Abs()), OrderOf(inputs))
    {
      var i := 0;
      while i < |inputs|
        invariant 0 <= i <= |inputs| && Valid()
        invariant |faulty| <= f && AllAccepted(f, N, faulty, inputs) ==> Abs() == DecideAll(old(Abs()), OrderOf(inputs[..i]))
      {
        OneMoreInput(old(Abs()), inputs, i);
        InputIsSound(f, N, faulty, inputs, i);
        Step(inputs[i]);
        i := i + 1;
      }
      assert inputs[..i] == inputs;
    }
  }
}
