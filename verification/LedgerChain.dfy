/** The ledger: transaction batches committed to a hash-linked log with an index. */
module LedgerChain {
  import opened Common
  import opened LedgerTypes
  import opened LedgerEncoding
  import opened LedgerIndex

  // --------------------------------------------------------------- the database

  /** A stored value: a marshalled block, or plain bytes. */
  datatype Value = Marshalled(block: Block) | Raw(bytes: seq<byte>)

  datatype Db = Db(chain: map<seq<byte>, Value>, index: Index, kv: KV)

  /** A batch of puts that is written as a whole or not at all. */
  datatype WriteBatch = WriteBatch(chain: map<seq<byte>, Value>, index: Index)

  const EMPTY_DB := Db(map[], map[], map[])

  /** fetchBlockchainSizeFromDB. */
  function FetchSize(db: Db): nat {
    if BLOCK_COUNT_KEY in db.chain && db.chain[BLOCK_COUNT_KEY].Raw? then DecodeToUint64(db.chain[BLOCK_COUNT_KEY].bytes) else 0
  }

  /** fetchBlockFromDB. */
  function FetchBlock(db: Db, n: nat): Option<Block> {
    if n < TWO64 && EncodeUint64(n) in db.chain && db.chain[EncodeUint64(n)].Marshalled?
    then Some(db.chain[EncodeUint64(n)].block) else None
  }

  ghost predicate HoldsBlock(db: Db, blocks: seq<Block>, n: uint64) {
    if n < |blocks| then EncodeUint64(n) in db.chain && db.chain[EncodeUint64(n)] == Marshalled(blocks[n])
    else EncodeUint64(n) !in db.chain
  }

  /** The database holds exactly these blocks, their number, and their index. */
  ghost predicate Holds(db: Db, bytesOf: Hash -> seq<byte>, blocks: seq<Block>) {
    && |blocks| < TWO64
    && (if blocks == [] then BLOCK_COUNT_KEY !in db.chain
        else BLOCK_COUNT_KEY in db.chain && db.chain[BLOCK_COUNT_KEY] == Raw(EncodeUint64(|blocks|)))
    && (forall n: uint64 :: HoldsBlock(db, blocks, n))
    && db.index == IndexOf(bytesOf, blocks)
  }

  lemma HoldsFetch(db: Db, bytesOf: Hash -> seq<byte>, blocks: seq<Block>, n: nat)
    requires Holds(db, bytesOf, blocks)
    ensures FetchSize(db) == |blocks|
    ensures FetchBlock(db, n) == if n < |blocks| then Some(blocks[n]) else None
  {
    Uint64RoundTrip(|blocks|);
    if n < TWO64 { assert HoldsBlock(db, blocks, n); }
  }

  /** What newBlockchain reads back: the size and the hash of the last block. */
  function Rebuilt(db: Db): (uint64, Hash) {
    var size := Wrap(FetchSize(db));
    if size == 0 then (0, NO_HASH)
    else
      var last := FetchBlock(db, size - 1);
      (size, if last.None? then NO_HASH else last.value.GetHash())
  }

  /** Rebuilding gives back the size and the previous hash of the blocks held. */
  lemma RebuildMatches(db: Db, bytesOf: Hash -> seq<byte>, blocks: seq<Block>)
    requires Holds(db, bytesOf, blocks)
    ensures Rebuilt(db) == (|blocks|, PreviousHash(blocks, |blocks|))
  {
    HoldsFetch(db, bytesOf, blocks, if blocks == [] then 0 else |blocks| - 1);
    WrapSmall(|blocks|);
  }

  function Written(db: Db, batch: WriteBatch, kv: KV): Db {
    Db(db.chain + batch.chain, db.index + batch.index, kv)
  }

  /** The puts of addPersistenceChangesForNewBlock. */
  function BlockPuts(bytesOf: Hash -> seq<byte>, b: Block, n: nat): WriteBatch
    requires n + 1 < TWO64
  {
    WriteBatch(map[EncodeUint64(n) := Marshalled(b), BLOCK_COUNT_KEY := Raw(EncodeUint64(n + 1))],
               AddBlock(map[], bytesOf, b, n))
  }

  lemma {:induction false} AddTxsSplits(index: Index, more: Index, txs: seq<Transaction>, n: nat, k: nat)
    requires k <= |txs|
    ensures AddTxs(index + more, txs, n, k) == index + AddTxs(more, txs, n, k)
  {
    if k > 0 {
      AddTxsSplits(index, more, txs, n, k - 1);
    }
  }

  lemma AddBlockSplits(index: Index, bytesOf: Hash -> seq<byte>, b: Block, n: nat)
    ensures AddBlock(index, bytesOf, b, n) == index + AddBlock(map[], bytesOf, b, n)
  {
    var txs := b.header.transactions;
    var start: Index := map[BlockHashKey(bytesOf(b.GetHash())) := Varint(n)];
    assert index[BlockHashKey(bytesOf(b.GetHash())) := Varint(n)] == index + start;
    assert map[][BlockHashKey(bytesOf(b.GetHash())) := Varint(n)] == start;
    AddTxsSplits(index, start, txs, n, |txs|);
  }

  lemma HoldsBlockOneMore(db: Db, bytesOf: Hash -> seq<byte>, blocks: seq<Block>, b: Block, kv: KV, m: uint64)
    requires HoldsBlock(db, blocks, m) && |blocks| + 1 < TWO64
    ensures HoldsBlock(Written(db, BlockPuts(bytesOf, b, |blocks|), kv), blocks + [b], m)
  {
    BlockKeysApart(m, |blocks|);
  }

  lemma HoldsOneMore(db: Db, bytesOf: Hash -> seq<byte>, blocks: seq<Block>, b: Block, kv: KV)
    requires Holds(db, bytesOf, blocks) && |blocks| + 1 < TWO64
    ensures Holds(Written(db, BlockPuts(bytesOf, b, |blocks|), kv), bytesOf, blocks + [b])
  {
    var n := |blocks|;
    var db', bs := Written(db, BlockPuts(bytesOf, b, n), kv), blocks + [b];
    assert bs[..n] == blocks;
    AddBlockSplits(db.index, bytesOf, b, n);
    BlockKeysApart(n, n);
    forall m: uint64 ensures HoldsBlock(db', bs, m) {
      HoldsBlockOneMore(db, bytesOf, blocks, b, kv, m);
    }
  }

  // ------------------------------------------------------------------- results

  datatype Lookup = NotFound | BadIndex | Found(tx: Transaction)

  /** VerifyChain's number and whether it comes with an error. */
  datatype Verdict = Verdict(n: nat, error: bool)

  /** Block n exists, so does its predecessor, and it links to it. */
  ghost predicate LinkHolds(db: Db, size: nat, n: nat)
    requires n > 0
  {
    && n < size && FetchBlock(db, n).Some? && FetchBlock(db, n - 1).Some?
    && FetchBlock(db, n).value.header.previousBlockHash == FetchBlock(db, n - 1).value.GetHash()
  }

  ghost predicate LinkBroken(db: Db, size: nat, n: nat)
    requires n > 0
  {
    && n < size && FetchBlock(db, n).Some? && FetchBlock(db, n - 1).Some?
    && FetchBlock(db, n).value.header.previousBlockHash != FetchBlock(db, n - 1).value.GetHash()
  }

  // ------------------------------------------------------- what a ledger is for

  /** What may go wrong on the way to the disk: hashing the state, hashing or marshalling the
      block, or the write itself. */
  datatype Fault = NoFault | StateFault | BlockFault | WriteFault

  /** A ledger without database, index and cached fields. */
  datatype Plain = Plain(blocks: seq<Block>, kv: KV, currentId: Option<string>, delta: Delta) {
    /** The block that a commit would append. */
    function Next(transactions: seq<Transaction>, metadata: string, nonHashData: string): Block {
      Block(Header(transactions, metadata, PreviousHash(blocks, |blocks|), StateOf(Overlay(kv, delta))), nonHashData)
    }

    function Closed(): Plain { this.(currentId := None, delta := map[]) }
  }

  datatype Op =
    | Begin(id: string)
    | Change(key: string, value: Option<string>)
    | Commit(id: string, transactions: seq<Transaction>, results: string, metadata: string, timestamp: string, fault: Fault)
    | Rollback(id: string)
    | Reopen

  function Effect(p: Plain, op: Op): Plain {
    match op
    case Begin(id) => if p.currentId.None? then p.(currentId := Some(id)) else p
    case Change(key, value) => p.(delta := p.delta[key := value])
    case Commit(id, transactions, results, metadata, timestamp, fault) =>
      if p.currentId != Some(id) then p
      else if !fault.NoFault? then p.Closed()
      else p.Closed().(blocks := p.blocks + [p.Next(transactions, metadata, results + timestamp)], kv := Overlay(p.kv, p.delta))
    case Rollback(id) => if p.currentId == Some(id) then p.Closed() else p
    case Reopen => p.Closed()
  }

  function Effects(p: Plain, ops: seq<Op>): Plain {
    if ops == [] then p else Effect(Effects(p, ops[..|ops| - 1]), ops[|ops| - 1])
  }

  /** Whatever is done, committed blocks stay, and every later block names its predecessor
      and the state it was committed with. */
  lemma {:induction false} LogOnlyGrows(p: Plain, ops: seq<Op>)
    requires Chained(p.blocks) && StatesNamed(p)
    ensures p.blocks <= Effects(p, ops).blocks && Chained(Effects(p, ops).blocks) && StatesNamed(Effects(p, ops))
  {
    if ops != [] {
      var q := Effects(p, ops[..|ops| - 1]);
      LogOnlyGrows(p, ops[..|ops| - 1]);
      var q' := Effect(q, ops[|ops| - 1]);
      if q'.blocks != q.blocks {
        ChainedAppend(q.blocks, q'.blocks[|q.blocks|]);
      }
    }
  }

  /** The last block names the committed state. */
  predicate StatesNamed(p: Plain) {
    p.blocks != [] ==> p.blocks[|p.blocks| - 1].header.stateHash == StateOf(p.kv)
  }

  datatype LastProcessed = LastProcessed(block: Block, number: uint64, hash: Hash)

  class Ledger {
    const bytesOf: Hash -> seq<byte>
    var db: Db

    // The in-memory part of the blockchain.
    var size: uint64
    var previousBlockHash: Hash
    var lastProcessed: Option<LastProcessed>

    // The open transaction batch and its changes to the state.
    var currentId: Option<string>
    var delta: Delta

    /** The blocks committed so far. */
    ghost var blocks: seq<Block>

    /** The database holds a hash-linked log, and the fields in memory are what would be
        rebuilt from it. */
    ghost predicate Valid()
      reads this
    {
      && Injective(bytesOf) && Holds(db, bytesOf, blocks) && Chained(blocks)
      && (forall b | b in blocks :: |b.header.transactions| < TWO64)
      && (size, previousBlockHash) == Rebuilt(db) && lastProcessed.None?
    }

    /** The ledger without what is derived. */
    ghost function Contents(): Plain
      reads this
    {
      Plain(blocks, db.kv, currentId, delta)
    }

    lemma InMemory()
      requires Valid()
      ensures size == |blocks| && previousBlockHash == PreviousHash(blocks, |blocks|)
    {
      RebuildMatches(db, bytesOf, blocks);
    }

    /** newLedger on an empty database. */
    constructor (bytesOf: Hash -> seq<byte>)
      requires Injective(bytesOf)
      ensures Valid() && Contents() == Plain([], map[], None, map[])
    {
      this.bytesOf := bytesOf;
      db := EMPTY_DB;
      size, previousBlockHash, lastProcessed := 0, NO_HASH, None;
      currentId, delta := None, map[];
      blocks := [];
    }

    /** newLedger on the existing database: nothing committed is forgotten, and what is read
        back is what was kept in memory. */
    method Restart()
      requires Valid()
      modifies this`size, this`previousBlockHash, this`currentId, this`delta
      ensures Valid() && size == old(size) && previousBlockHash == old(previousBlockHash)
      ensures Contents() == Effect(old(Contents()), Reopen)
    {
      var rebuilt := Rebuilt(db);
      size, previousBlockHash := rebuilt.0, rebuilt.1;
      currentId, delta := None, map[];
    }

    method BeginTxBatch(id: string) returns (ok: bool)
      requires Valid()
      modifies this`currentId
      ensures Valid() && (ok <==> old(currentId).None?) && Contents() == Effect(old(Contents()), Begin(id))
    {
      ok := currentId.None?;
      if ok {
        currentId := Some(id);
      }
    }

    /** SetState and DeleteState: changes in memory only. */
    method ChangeState(key: string, value: Option<string>)
      requires Valid()
      modifies this`delta
      ensures Valid() && Contents() == Effect(old(Contents()), Change(key, value))
    {
      delta := delta[key := value];
    }

    function StateHashNow(): StateHash
      reads this
    {
      StateOf(Overlay(db.kv, delta))
    }

    function BuildHeader(transactions: seq<Transaction>, metadata: string): Header
      reads this
    {
      Header(transactions, metadata, previousBlockHash, StateHashNow())
    }

    /** The block that a commit of the same batch would write, but for data that is not hashed. */
    method GetTXBatchPreviewBlock(id: string, transactions: seq<Transaction>, metadata: string, fault: Fault) returns (b: Option<Block>)
      requires Valid()
      ensures b.Some? <==> currentId == Some(id) && !fault.StateFault?
      ensures b.Some? ==> b == Some(Contents().Next(transactions, metadata, ""))
    {
      if currentId != Some(id) || fault.StateFault? {
        return None;
      }
      InMemory();
      return Some(Block(BuildHeader(transactions, metadata), ""));
    }

    method ResetForNextTxGroup()
      modifies this`currentId, this`delta
      ensures currentId.None? && delta == map[]
    {
      currentId, delta := None, map[];
    }

    method BlockPersistenceStatus(success: bool)
      requires success ==> lastProcessed.Some? && size + 1 < TWO64
      modifies this`size, this`previousBlockHash, this`lastProcessed
      ensures size == (if success then old(size) + 1 else old(size)) && lastProcessed.None?
      ensures previousBlockHash == if success then old(lastProcessed).value.hash else old(previousBlockHash)
    {
      if success {
        size := size + 1;
        previousBlockHash := lastProcessed.value.hash;
      }
      lastProcessed := None;
    }

    /** addIndexDataForPersistence. */
    method AddIndexData(b: Block, n: nat) returns (index: Index)
      ensures index == AddBlock(map[], bytesOf, b, n)
    {
      var txs := b.header.transactions;
      index := map[BlockHashKey(bytesOf(b.GetHash())) := Varint(n)];
      ghost var start := index;
      var addressToTxIndexes: seq<byte> := [];
      var i := 0;
      while i < |txs|
        invariant 0 <= i <= |txs|
        invariant index == AddTxs(start, txs, n, i) && addressToTxIndexes == TxIndexes(i)
      {
        index := index[TxUUIDKey(txs[i].uuid) := EncodeBlockNumTxIndex(n, i)];
        addressToTxIndexes := addressToTxIndexes + Varint(i);
        i := i + 1;
      }
      if txs != [] {
        index := index[AddressBlockNumKey(ADDRESS, n) := addressToTxIndexes];
      }
    }

    /** addPersistenceChangesForNewBlock; a block that cannot be hashed or marshalled adds nothing. */
    method AddPersistenceChanges(b: Block, fault: Fault) returns (ok: bool, batch: WriteBatch)
      requires size + 1 < TWO64
      modifies this`lastProcessed
      ensures ok <==> !fault.BlockFault?
      ensures ok ==> batch == BlockPuts(bytesOf, b, size) && lastProcessed == Some(LastProcessed(b, size, b.GetHash()))
    {
      ok := !fault.BlockFault?;
      batch := WriteBatch(map[], map[]);
      if ok {
        var index := AddIndexData(b, size);
        batch := WriteBatch(map[EncodeUint64(size) := Marshalled(b), BLOCK_COUNT_KEY := Raw(EncodeUint64(size + 1))], index);
        lastProcessed := Some(LastProcessed(b, size, b.GetHash()));
      }
    }

    /** The middle of CommitTxBatch: the block, its index entries and the state in one write. */
    method PersistBlock(b: Block, kv: KV, fault: Fault) returns (ok: bool)
      requires Valid() && |blocks| + 1 < TWO64 && b.header.previousBlockHash == previousBlockHash
      modifies this`db, this`lastProcessed, this`blocks
      ensures Holds(db, bytesOf, blocks) && Chained(blocks)
      ensures ok <==> !fault.BlockFault? && !fault.WriteFault?
      ensures ok ==> blocks == old(blocks) + [b] && db.kv == kv && size == |old(blocks)|
      ensures ok ==> lastProcessed.Some? && lastProcessed.value.hash == b.GetHash()
      ensures !ok ==> blocks == old(blocks) && db == old(db)
    {
      InMemory();
      var batch;
      ok, batch := AddPersistenceChanges(b, fault);
      ok := ok && !fault.WriteFault?;
      if ok {
        HoldsOneMore(db, bytesOf, blocks, b, kv);
        ChainedAppend(blocks, b);
        db := Written(db, batch, kv);
        blocks := blocks + [b];
      }
    }

    /** The database is ahead of the fields in memory by the block just written, if there is one. */
    ghost predicate Unsettled(success: bool)
      reads this
    {
      && Injective(bytesOf) && Holds(db, bytesOf, blocks) && Chained(blocks)
      && (forall b | b in blocks :: |b.header.transactions| < TWO64)
      && (if success then size + 1 == |blocks| && lastProcessed.Some? && lastProcessed.value.hash == PreviousHash(blocks, |blocks|)
          else size == |blocks| && previousBlockHash == PreviousHash(blocks, |blocks|))
    }

    /** The end of CommitTxBatch. */
    method CloseTxGroup(success: bool)
      requires Unsettled(success)
      modifies this`currentId, this`delta, this`size, this`previousBlockHash, this`lastProcessed
      ensures Valid() && currentId.None? && delta == map[]
      ensures !success ==> size == old(size) && previousBlockHash == old(previousBlockHash)
    {
      ResetForNextTxGroup();
      BlockPersistenceStatus(success);
      RebuildMatches(db, bytesOf, blocks);
    }

    /** CommitTxBatch succeeds exactly for the open batch and without a fault. Success appends
        one block, the previewed one, and makes the state changes permanent. A failure changes
        neither the log nor the database, nor what is kept in memory of them; with the wrong id
        it changes nothing at all. */
    method CommitTxBatch(id: string, transactions: seq<Transaction>, results: string, metadata: string, timestamp: string,
                         fault: Fault)
        returns (ok: bool)
      requires Valid() && |blocks| + 1 < TWO64 && |transactions| < TWO64
      modifies this
      ensures Valid() && (ok <==> old(currentId) == Some(id) && fault.NoFault?)
      ensures Contents() == Effect(old(Contents()), Commit(id, transactions, results, metadata, timestamp, fault))
      ensures !ok ==> db == old(db) && size == old(size) && previousBlockHash == old(previousBlockHash)
    {
      if currentId != Some(id) {
        return false;
      }
      InMemory();
      var header, kv := BuildHeader(transactions, metadata), Overlay(db.kv, delta);
      ok := !fault.StateFault?;
      if ok {
        ok := PersistBlock(Block(header, results + timestamp), kv, fault);
      }
      CloseTxGroup(ok);
    }

    method RollbackTxBatch(id: string) returns (ok: bool)
      requires Valid()
      modifies this`currentId, this`delta
      ensures Valid() && (ok <==> old(currentId) == Some(id)) && Contents() == Effect(old(Contents()), Rollback(id))
    {
      ok := currentId == Some(id);
      if ok {
        ResetForNextTxGroup();
      }
    }

    method Do(op: Op)
      requires Valid() && |blocks| + 1 < TWO64 && (op.Commit? ==> |op.transactions| < TWO64)
      modifies this
      ensures Valid() && Contents() == Effect(old(Contents()), op)
    {
      match op
      case Begin(id) => var ok := BeginTxBatch(id);
      case Change(key, value) => ChangeState(key, value);
      case Commit(id, transactions, results, metadata, timestamp, fault) =>
        var ok := CommitTxBatch(id, transactions, results, metadata, timestamp, fault);
      case Rollback(id) => var ok := RollbackTxBatch(id);
      case Reopen => Restart();
    }

    /** Any run, restarts and failures included: the database with its index, counters and
        cached fields does what a plain list of blocks with a state would do. */
    method Run(ops: seq<Op>)
      requires Valid() && |blocks| + |ops| < TWO64
      requires forall op | op in ops :: op.Commit? ==> |op.transactions| < TWO64
      modifies this
      ensures Valid() && Contents() == Effects(old(Contents()), ops)
    {
      var i := 0;
      while i < |ops|
        invariant 0 <= i <= |ops| && Valid() && |blocks| + |ops| - i < TWO64
        invariant Contents() == Effects(old(Contents()), ops[..i])
      {
        assert ops[i] in ops && ops[..i + 1][..i] == ops[..i];
        Do(ops[i]);
        i := i + 1;
      }
      assert ops[..i] == ops;
    }

    // ------------------------------------------------------------------- reading

    /** VerifyChain. No error and 0 means that every link of the range holds, as on a ledger built
        by commits. No error and another number is the highest block that does not link to its
        predecessor. */
    method VerifyChain(high: nat, low: nat) returns (v: Verdict)
      ensures v == Verdict(0, false) <==> low < high < size && forall i | low < i <= high :: LinkHolds(db, size, i)
      ensures !v.error && v.n > 0 ==> low < v.n <= high && LinkBroken(db, size, v.n)
      ensures !v.error && v.n > 0 ==> forall i | v.n < i <= high :: LinkHolds(db, size, i)
      ensures v.error ==> high >= size || high <= low || FetchBlock(db, v.n).None?
      ensures Valid() && low < high < size ==> v == Verdict(0, false)
    {
      if Valid() {
        forall n | 0 < n < size ensures LinkHolds(db, size, n) {
          CommittedLinksHold(n);
        }
      }
      if high >= size {
        return Verdict(high, true);
      }
      if high <= low {
        return Verdict(low, true);
      }
      var i := high;
      while i > low
        invariant low <= i <= high
        invariant forall j | i < j <= high :: LinkHolds(db, size, j)
      {
        var current, previous := FetchBlock(db, i), FetchBlock(db, i - 1);
        if current.None? {
          assert !LinkHolds(db, size, i);
          return Verdict(i, true);
        }
        if previous.None? {
          assert !LinkHolds(db, size, i);
          return Verdict(i - 1, true);
        }
        if current.value.header.previousBlockHash != previous.value.GetHash() {
          assert !LinkHolds(db, size, i);
          return Verdict(i, false);
        }
        i := i - 1;
      }
      return Verdict(0, false);
    }

    /** Every link of a ledger built by commits holds, so VerifyChain gives 0 without an
        error on every range within bounds. */
    lemma CommittedLinksHold(i: nat)
      requires Valid() && 0 < i < size
      ensures LinkHolds(db, size, i)
    {
      InMemory();
      HoldsFetch(db, bytesOf, blocks, i);
      HoldsFetch(db, bytesOf, blocks, i - 1);
      assert Links(blocks, i);
    }

    /** getBlockByHash. The hash of a block finds that block. Any other hash decodes to
        number 0, and so finds block 0 of a chain that is not empty. */
    method GetBlockByHash(h: Hash) returns (b: Option<Block>)
      requires Valid()
      ensures forall i | 0 <= i < |blocks| && blocks[i].GetHash() == h :: b == Some(blocks[i])
      ensures (forall i | 0 <= i < |blocks| :: blocks[i].GetHash() != h) ==>
                b == if blocks == [] then None else Some(blocks[0])
    {
      HashIndexEqualsScan(bytesOf, blocks, h);
      var key := BlockHashKey(bytesOf(h));
      var n := DecodeBlockNumber(if key in db.index then db.index[key] else []);
      forall i: nat | i < |blocks| && blocks[i].GetHash() == h ensures n == i {
        BlockNumberRoundTrip(i);
      }
      HoldsFetch(db, bytesOf, blocks, n);
      b := FetchBlock(db, n);
    }

    /** getTransactionByUUID finds the last transaction of the chain with the UUID, and
        nothing exactly when there is none. */
    method GetTransactionByUUID(uuid: seq<byte>) returns (r: Lookup)
      requires Valid()
      ensures r == NotFound <==> forall p :: !At(blocks, p, uuid)
      ensures r != NotFound ==> exists p :: LastAt(blocks, p, uuid) && r == Found(blocks[p.block].header.transactions[p.tx])
    {
      TxIndexEqualsScan(bytesOf, blocks, uuid);
      var key := TxUUIDKey(uuid);
      if key !in db.index {
        return NotFound;
      }
      ghost var p :| LastAt(blocks, p, uuid) && db.index[key] == EncodeBlockNumTxIndex(p.block, p.tx);
      assert blocks[p.block] in blocks;
      BlockNumTxIndexRoundTrip(p.block, p.tx);
      var place := DecodeBlockNumTxIndex(db.index[key]);
      if place.None? {
        return BadIndex;
      }
      HoldsFetch(db, bytesOf, blocks, place.value.0);
      var b := FetchBlock(db, place.value.0);
      return Found(b.value.header.transactions[place.value.1]);
    }
  }
}
