/** The block and transaction index, compared with scanning the chain. */
module LedgerIndex {
  import opened Common
  import opened LedgerTypes
  import opened LedgerEncoding

  type Index = map<seq<byte>, seq<byte>>

  /** How hashes are written as bytes: different hashes differ as bytes. */
  ghost predicate Injective(bytesOf: Hash -> seq<byte>) {
    forall a, b :: bytesOf(a) == bytesOf(b) ==> a == b
  }

  // ------------------------------------------------------------ hash-linked logs

  function PreviousHash(blocks: seq<Block>, i: nat): Hash
    requires i <= |blocks|
  {
    if i == 0 then NO_HASH else blocks[i - 1].GetHash()
  }

  /** Every block links to the hash of its predecessor, the first to the missing hash. */
  ghost predicate Chained(blocks: seq<Block>) {
    forall i: nat | i < |blocks| :: Links(blocks, i)
  }

  ghost predicate Links(blocks: seq<Block>, i: nat)
    requires i < |blocks|
  {
    blocks[i].header.previousBlockHash == PreviousHash(blocks, i)
  }

  /** All blocks of a hash-linked log have distinct hashes. */
  lemma {:induction false} DistinctHashes(blocks: seq<Block>, i: nat, j: nat)
    requires Chained(blocks) && i < j < |blocks|
    ensures blocks[i].GetHash() != blocks[j].GetHash()
  {
    if i > 0 {
      DistinctHashes(blocks, i - 1, j - 1);
    }
    assert Links(blocks, i) && Links(blocks, j);
  }

  lemma ChainedPrefix(blocks: seq<Block>, k: nat)
    requires Chained(blocks) && k <= |blocks|
    ensures Chained(blocks[..k])
  {
    forall i: nat | i < k ensures Links(blocks[..k], i) {
      assert Links(blocks, i);
    }
  }

  lemma ChainedAppend(blocks: seq<Block>, b: Block)
    requires Chained(blocks) && b.header.previousBlockHash == PreviousHash(blocks, |blocks|)
    ensures Chained(blocks + [b])
  {
    var bs := blocks + [b];
    forall i: nat | i < |bs| ensures Links(bs, i) {
      if i < |blocks| { assert Links(blocks, i); }
    }
  }

  // ------------------------------------------------------------------- the index

  function AddTxs(index: Index, txs: seq<Transaction>, n: nat, k: nat): Index
    requires k <= |txs|
  {
    if k == 0 then index
    else AddTxs(index, txs, n, k - 1)[TxUUIDKey(txs[k - 1].uuid) := EncodeBlockNumTxIndex(n, k - 1)]
  }

  /** "address1" in ASCII, the executing address of every transaction. */
  const ADDRESS: seq<byte> := [97, 100, 100, 114, 101, 115, 115, 49]

  function TxIndexes(k: nat): seq<byte> {
    if k == 0 then [] else TxIndexes(k - 1) + Varint(k - 1)
  }

  /** addIndexDataForPersistence. */
  function AddBlock(index: Index, bytesOf: Hash -> seq<byte>, b: Block, n: nat): Index {
    var txs := b.header.transactions;
    var withTxs := AddTxs(index[BlockHashKey(bytesOf(b.GetHash())) := Varint(n)], txs, n, |txs|);
    if txs == [] then withTxs else withTxs[AddressBlockNumKey(ADDRESS, n) := TxIndexes(|txs|)]
  }

  function IndexOf(bytesOf: Hash -> seq<byte>, blocks: seq<Block>): Index {
    if blocks == [] then map[]
    else AddBlock(IndexOf(bytesOf, blocks[..|blocks| - 1]), bytesOf, blocks[|blocks| - 1], |blocks| - 1)
  }

  lemma {:induction false} AddTxsHashKey(index: Index, txs: seq<Transaction>, n: nat, k: nat, h: seq<byte>)
    requires k <= |txs|
    ensures BlockHashKey(h) in AddTxs(index, txs, n, k) <==> BlockHashKey(h) in index
    ensures BlockHashKey(h) in index ==> AddTxs(index, txs, n, k)[BlockHashKey(h)] == index[BlockHashKey(h)]
  {
    if k > 0 {
      AddTxsHashKey(index, txs, n, k - 1, h);
      KeysApart(h, h, txs[k - 1].uuid, [], [], n);
    }
  }

  /** A block adds exactly its own hash to the hash keys. */
  lemma AddBlockHashKey(index: Index, bytesOf: Hash -> seq<byte>, b: Block, n: nat, h: Hash)
    requires Injective(bytesOf)
    ensures var key, i := BlockHashKey(bytesOf(h)), AddBlock(index, bytesOf, b, n);
            && (key in i <==> key in index || h == b.GetHash())
            && (h == b.GetHash() ==> i[key] == Varint(n))
            && (h != b.GetHash() && key in index ==> i[key] == index[key])
  {
    var start := index[BlockHashKey(bytesOf(b.GetHash())) := Varint(n)];
    AddTxsHashKey(start, b.header.transactions, n, |b.header.transactions|, bytesOf(h));
    KeysApart(bytesOf(h), bytesOf(b.GetHash()), [], [], ADDRESS, n);
  }

  /** The hash index equals scanning the chain: block i's hash is filed under i, and no
      other hash is filed. */
  lemma {:induction false} HashIndexEqualsScan(bytesOf: Hash -> seq<byte>, blocks: seq<Block>, h: Hash)
    requires Injective(bytesOf) && Chained(blocks)
    ensures BlockHashKey(bytesOf(h)) in IndexOf(bytesOf, blocks) <==>
            exists i :: 0 <= i < |blocks| && blocks[i].GetHash() == h
    ensures forall i | 0 <= i < |blocks| && blocks[i].GetHash() == h ::
              BlockHashKey(bytesOf(h)) in IndexOf(bytesOf, blocks) && IndexOf(bytesOf, blocks)[BlockHashKey(bytesOf(h))] == Varint(i)
  {
    if blocks != [] {
      var k := |blocks| - 1;
      ChainedPrefix(blocks, k);
      HashIndexEqualsScan(bytesOf, blocks[..k], h);
      AddBlockHashKey(IndexOf(bytesOf, blocks[..k]), bytesOf, blocks[k], k, h);
      forall i: nat | i < k ensures blocks[i].GetHash() != blocks[k].GetHash() && blocks[..k][i] == blocks[i] {
        DistinctHashes(blocks, i, k);
      }
    }
  }

  // ------------------------------------------------------------ transactions

  /** Where a transaction stands: its block and its place in it. */
  datatype Place = Place(block: nat, tx: nat)

  predicate At(blocks: seq<Block>, p: Place, uuid: seq<byte>) {
    && p.block < |blocks| && p.tx < |blocks[p.block].header.transactions|
    && blocks[p.block].header.transactions[p.tx].uuid == uuid
  }

  /** p is the last place in the chain with this UUID. */
  ghost predicate LastAt(blocks: seq<Block>, p: Place, uuid: seq<byte>) {
    && At(blocks, p, uuid)
    && forall q | At(blocks, q, uuid) :: q.block < p.block || (q.block == p.block && q.tx <= p.tx)
  }

  /** The last of the first k transactions with this UUID. */
  function LastIn(txs: seq<Transaction>, k: nat, uuid: seq<byte>): (r: Option<nat>)
    requires k <= |txs|
    ensures r.None? ==> forall i | 0 <= i < k :: txs[i].uuid != uuid
    ensures r.Some? ==> r.value < k && txs[r.value].uuid == uuid && forall i | r.value < i < k :: txs[i].uuid != uuid
  {
    if k == 0 then None
    else if txs[k - 1].uuid == uuid then Some(k - 1)
    else LastIn(txs, k - 1, uuid)
  }

  lemma {:induction false} AddTxsTxKey(index: Index, txs: seq<Transaction>, n: nat, k: nat, uuid: seq<byte>)
    requires k <= |txs|
    ensures var key, i, l := TxUUIDKey(uuid), AddTxs(index, txs, n, k), LastIn(txs, k, uuid);
            && (key in i <==> key in index || l.Some?)
            && (l.Some? ==> i[key] == EncodeBlockNumTxIndex(n, l.value))
            && (l.None? && key in index ==> i[key] == index[key])
  {
    if k > 0 {
      AddTxsTxKey(index, txs, n, k - 1, uuid);
      KeysApart([], [], uuid, txs[k - 1].uuid, [], n);
    }
  }

  lemma AddBlockTxKey(index: Index, bytesOf: Hash -> seq<byte>, b: Block, n: nat, uuid: seq<byte>)
    ensures var txs := b.header.transactions;
            var key, i, l := TxUUIDKey(uuid), AddBlock(index, bytesOf, b, n), LastIn(txs, |txs|, uuid);
            && (key in i <==> key in index || l.Some?)
            && (l.Some? ==> i[key] == EncodeBlockNumTxIndex(n, l.value))
            && (l.None? && key in index ==> i[key] == index[key])
  {
    var txs := b.header.transactions;
    var start := index[BlockHashKey(bytesOf(b.GetHash())) := Varint(n)];
    KeysApart(bytesOf(b.GetHash()), [], uuid, [], ADDRESS, n);
    AddTxsTxKey(start, txs, n, |txs|, uuid);
  }

  /** The transaction index equals scanning the chain: it files exactly the last place of
      every UUID that occurs. */
  lemma {:induction false} TxIndexEqualsScan(bytesOf: Hash -> seq<byte>, blocks: seq<Block>, uuid: seq<byte>)
    ensures TxUUIDKey(uuid) !in IndexOf(bytesOf, blocks) ==> forall p :: !At(blocks, p, uuid)
    ensures TxUUIDKey(uuid) in IndexOf(bytesOf, blocks) ==>
            exists p :: LastAt(blocks, p, uuid) && IndexOf(bytesOf, blocks)[TxUUIDKey(uuid)] == EncodeBlockNumTxIndex(p.block, p.tx)
  {
    if blocks != [] {
      var k := |blocks| - 1;
      var init, txs := blocks[..k], blocks[k].header.transactions;
      var l := LastIn(txs, |txs|, uuid);
      TxIndexEqualsScan(bytesOf, init, uuid);
      AddBlockTxKey(IndexOf(bytesOf, init), bytesOf, blocks[k], k, uuid);
      assert forall p :: At(blocks, p, uuid) <==> At(init, p, uuid) || (p.block == k && p.tx < |txs| && txs[p.tx].uuid == uuid);
      if l.Some? {
        assert LastAt(blocks, Place(k, l.value), uuid);
      } else if TxUUIDKey(uuid) in IndexOf(bytesOf, init) {
        var p :| LastAt(init, p, uuid) && IndexOf(bytesOf, init)[TxUUIDKey(uuid)] == EncodeBlockNumTxIndex(p.block, p.tx);
        assert LastAt(blocks, p, uuid);
      }
    }
  }
}
