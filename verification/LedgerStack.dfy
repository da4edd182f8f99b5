/** What state transfer asks of the ledger. */
module LedgerStack {
  import opened Common
  import opened LedgerTypes

  datatype BlockMessage = BlockMessage(start: uint64, end: uint64, blocks: seq<Option<Block>>)

  /** A range of state deltas; None stands for bytes that do not unmarshal. */
  datatype DeltaMessage = DeltaMessage(start: uint64, end: uint64, deltas: seq<Option<Delta>>)

  /** A piece of a state snapshot. */
  datatype Content = NoBytes | Corrupt | Of(delta: Delta)
  datatype Piece = Piece(content: Content, sequence: uint64, blockNumber: uint64)

  /** What a ledger transaction group is identified by. */
  datatype GroupId = Deltas(message: DeltaMessage) | Snapshot(piece: Piece)

  datatype Fetched = OutOfBounds | Missing | Found(block: Block)

  class Stack {
    /** Whether writes to the state always succeed. */
    const reliable: bool

    var blocks: map<nat, Block>
    var size: nat
    var kv: KV
    var pending: Option<Delta>
    var currentId: Option<GroupId>

    /** The state the in-memory changes lead to. */
    function Current(): KV
      reads this
    {
      if pending.Some? then Overlay(kv, pending.value) else kv
    }

    /** GetCurrentStateHash. */
    function CurrentStateHash(): StateHash
      reads this
    {
      StateOf(Current())
    }

    /** GetBlock: a block number below the height may still be a hole. */
    function GetBlock(n: nat): (r: Fetched)
      reads this
      ensures r.Found? <==> n < size && n in blocks
    {
      if n >= size then OutOfBounds
      else if n in blocks then Found(blocks[n])
      else Missing
    }

    /** PutBlock: the height only grows. */
    method PutBlock(n: nat, b: Block)
      modifies this`blocks, this`size
      ensures blocks == old(blocks)[n := b]
      ensures size == if old(size) < n + 1 then n + 1 else old(size)
    {
      blocks := blocks[n := b];
      if size < n + 1 {
        size := n + 1;
      }
    }

    /** ApplyStateDelta; state transfer ignores its error. */
    method ApplyStateDelta(id: GroupId, d: Delta)
      modifies this`pending, this`currentId
      ensures currentId == if old(currentId).None? then Some(id) else old(currentId)
      ensures pending == if old(currentId).None? then Some(d) else old(pending)
    {
      if currentId.None? {
        currentId := Some(id);
        pending := Some(d);
      }
    }

    /** CommitStateDelta: makes the current state permanent. A failing write leaves an
        unknown state behind. */
    method CommitStateDelta(id: GroupId) returns (ok: bool)
      modifies this`kv, this`pending, this`currentId
      ensures ok ==> kv == old(Current())
      ensures reliable && old(currentId) == Some(id) ==> ok
      ensures old(currentId) == Some(id) ==> pending.None? && currentId.None?
      ensures old(currentId) != Some(id) ==> !ok && kv == old(kv) && pending == old(pending) && currentId == old(currentId)
    {
      if currentId != Some(id) {
        return false;
      }
      var written: bool := *;
      written := written || reliable;
      if written {
        kv := Current();
      } else {
        kv := *;
      }
      pending := None;
      currentId := None;
      return written;
    }

    method RollbackStateDelta(id: GroupId) returns (ok: bool)
      modifies this`pending, this`currentId
      ensures ok <==> old(currentId) == Some(id)
      ensures ok ==> pending.None? && currentId.None?
      ensures !ok ==> pending == old(pending) && currentId == old(currentId)
    {
      if currentId != Some(id) {
        return false;
      }
      pending := None;
      currentId := None;
      return true;
    }

    /** EmptyState: drops the in-memory changes and deletes the state, of which a failing
        delete may leave anything. The open transaction group stays open. */
    method EmptyState() returns (ok: bool)
      modifies this`kv, this`pending
      ensures pending.None? && (ok ==> kv == map[]) && (reliable ==> ok)
    {
      pending := None;
      ok := *;
      ok := ok || reliable;
      if ok {
        kv := map[];
      } else {
        kv := *;
      }
    }
  }
}
