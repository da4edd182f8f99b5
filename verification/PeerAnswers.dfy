/** What peers send when blocks and states are asked for, and which answers help. */
module PeerAnswers {
  import opened Common
  import opened LedgerTypes
  import opened LedgerStack

  // ---------------------------------------------------------------- chains

  /** The blocks from `high` down to `low` are stored and form a hash chain starting at `hash`. */
  ghost predicate Linked(blocks: map<nat, Block>, high: nat, hash: Hash, low: nat) {
    && low <= high
    && (forall k | low <= k <= high :: k in blocks)
    && blocks[high].GetHash() == hash
    && forall k | low <= k < high :: blocks[k].GetHash() == blocks[k + 1].header.previousBlockHash
  }

  /** A chain is determined by the hash of its head: two stores linked from the same head
      hold the same blocks, up to data that is not hashed. */
  lemma {:induction false} ChainDetermined(a: map<nat, Block>, b: map<nat, Block>, high: nat, hash: Hash,
                                           low: nat, low': nat, k: nat)
    requires Linked(a, high, hash, low) && Linked(b, high, hash, low') && low <= k <= high && low' <= k
    ensures a[k].header == b[k].header
    decreases high - k
  {
    if k < high {
      ChainDetermined(a, b, high, hash, low, low', k + 1);
      assert a[k].GetHash() == b[k].GetHash();
    } else {
      assert a[high].GetHash() == b[high].GetHash();
    }
  }

  // ---------------------------------------------------------------- blocks

  /** How a peer answers a request for blocks from one number down to another; None is a peer
      that could not be asked. A peer that runs out of messages closed the channel or timed out. */
  type BlockPeer = (uint64, uint64) -> Option<seq<BlockMessage>>

  /** The number under which a message carries its i-th block. */
  function Number(msg: BlockMessage, i: nat): uint64 { Wrap(msg.start - i) }

  /** Blocks are listed backwards. */
  predicate Backwards(msg: BlockMessage) { msg.start >= msg.end }

  /** Where the cursor stands after k blocks of a message none of which is refused. */
  function CursorAfter(msg: BlockMessage, k: nat, next: int): int {
    if k == 0 then next else CursorPast(msg, k - 1, CursorAfter(msg, k - 1, next))
  }

  function CursorPast(msg: BlockMessage, i: nat, next: int): int {
    if Number(msg, i) == next then next - 1 else next
  }

  /** Likewise after k messages. */
  function CursorThrough(msgs: seq<BlockMessage>, k: nat, next: int): int
    requires k <= |msgs|
  {
    if k == 0 then next
    else
      var c := CursorThrough(msgs, k - 1, next);
      if Backwards(msgs[k - 1]) then CursorAfter(msgs[k - 1], |msgs[k - 1].blocks|, c) else c
  }

  lemma {:induction false} CursorFalls(msg: BlockMessage, k: nat, k': nat, next: int)
    requires k <= k'
    ensures CursorAfter(msg, k', next) <= CursorAfter(msg, k, next) <= next
    decreases k'
  {
    if k < k' {
      CursorFalls(msg, k, k' - 1, next);
    } else if k > 0 {
      CursorFalls(msg, k - 1, k - 1, next);
    }
  }

  lemma {:induction false} CursorFallsThrough(msgs: seq<BlockMessage>, k: nat, k': nat, next: int)
    requires k <= k' <= |msgs|
    ensures CursorThrough(msgs, k', next) <= CursorThrough(msgs, k, next)
    decreases k'
  {
    if k < k' {
      CursorFallsThrough(msgs, k, k' - 1, next);
      var msg := msgs[k' - 1];
      CursorFalls(msg, 0, |msg.blocks|, CursorThrough(msgs, k' - 1, next));
    }
  }

  /** The i-th block, if it is filed within low..high, is the one of the chain. */
  ghost predicate TrueBlock(msg: BlockMessage, i: nat, chain: map<nat, Block>, high: nat, low: nat)
    requires i < |msg.blocks|
  {
    var n := Number(msg, i);
    low <= n <= high ==> n in chain && msg.blocks[i].Some? && msg.blocks[i].value.GetHash() == chain[n].GetHash()
  }

  ghost predicate Truthful(msg: BlockMessage, chain: map<nat, Block>, high: nat, low: nat) {
    Backwards(msg) ==> forall i: nat | i < |msg.blocks| :: TrueBlock(msg, i, chain, high, low)
  }

  /** Between other messages, none of which carries a wrong block of the range, the blocks from
      `next` down to `low` arrive in this order. */
  ghost predicate Helps(answer: Option<seq<BlockMessage>>, chain: map<nat, Block>, high: nat, next: nat, low: nat) {
    && answer.Some?
    && (forall msg | msg in answer.value :: Truthful(msg, chain, high, low))
    && CursorThrough(answer.value, |answer.value|, next) < low
  }

  ghost predicate HelpfulPeer(peer: BlockPeer, chain: map<nat, Block>, high: uint64, low: uint64) {
    forall next: uint64 | low <= next <= high :: Helps(peer(next, low), chain, high, next, low)
  }

  /** sendBlocks: one message per block. */
  function Served(chain: map<nat, Block>, next: uint64, low: uint64): (msgs: seq<BlockMessage>)
    requires low <= next && forall k | low <= k <= next :: k in chain
    ensures |msgs| == next - low + 1
  {
    seq(next - low + 1, i requires 0 <= i <= next - low => BlockMessage(next - i, next - i, [Some(chain[next - i])]))
  }

  lemma {:induction false} ServedCursor(chain: map<nat, Block>, next: uint64, low: uint64, k: nat)
    requires low <= next && (forall k | low <= k <= next :: k in chain) && k <= next - low + 1
    ensures CursorThrough(Served(chain, next, low), k, next) == next - k
  {
    if k > 0 {
      ServedCursor(chain, next, low, k - 1);
      var msg := Served(chain, next, low)[k - 1];
      WrapSmall(msg.start);
      assert CursorAfter(msg, 1, next - (k - 1)) == next - k;
    }
  }

  /** A peer that has the chain and runs the repository's own server helps. */
  lemma ServerHelps(chain: map<nat, Block>, high: uint64, next: uint64, low: uint64)
    requires low <= next <= high && forall k | low <= k <= high :: k in chain
    ensures Helps(Some(Served(chain, next, low)), chain, high, next, low)
  {
    var msgs := Served(chain, next, low);
    ServedCursor(chain, next, low, |msgs|);
    forall msg | msg in msgs ensures Truthful(msg, chain, high, low) {
      forall i: nat | i < |msg.blocks| ensures TrueBlock(msg, i, chain, high, low) {
        WrapSmall(msg.start);
      }
    }
  }

  // ---------------------------------------------------------------- deltas

  /** How a peer answers a request for the state deltas of a range of blocks. */
  type DeltaPeer = (uint64, uint64) -> Option<seq<DeltaMessage>>

  /** The state after the first k deltas. */
  function Played(kv: KV, ds: seq<Delta>, k: nat): KV
    requires k <= |ds|
  {
    if k == 0 then kv else Overlay(Played(kv, ds, k - 1), ds[k - 1])
  }

  /** The blocks name the states that the deltas lead to. */
  ghost predicate Names(blocks: map<nat, Block>, from: nat, kv: KV, ds: seq<Delta>) {
    forall k: nat | k < |ds| :: NamesAfter(blocks, from, kv, ds, k)
  }

  ghost predicate NamesAfter(blocks: map<nat, Block>, from: nat, kv: KV, ds: seq<Delta>, k: nat)
    requires k < |ds|
  {
    from + k in blocks && blocks[from + k].header.stateHash == StateOf(Played(kv, ds, k + 1))
  }

  /** The message is for the block that is next, and its first delta is applied. */
  predicate Opens(msg: DeltaMessage, next: uint64, to: uint64) {
    && msg.start == next && msg.start <= msg.end <= to
    && |msg.deltas| > 0 && msg.deltas[0].Some?
  }

  /** Some delta does not decode. */
  predicate Corrupted(msg: DeltaMessage) {
    exists k | 0 <= k < |msg.deltas| :: msg.deltas[k].None?
  }

  /** sendStateDeltas: one message per block. */
  function ServedDeltas(from: uint64, ds: seq<Delta>): (msgs: seq<DeltaMessage>)
    requires from + |ds| <= TWO64
    ensures |msgs| == |ds|
  {
    seq(|ds|, i requires 0 <= i < |ds| => DeltaMessage(from + i, from + i, [Some(ds[i])]))
  }

  // ---------------------------------------------------------------- snapshots

  /** What the first k pieces make of a state. */
  function Restored(pieces: seq<Piece>, k: nat): KV
    requires k <= |pieces|
  {
    if k == 0 then map[]
    else if pieces[k - 1].content.Of? then Overlay(Restored(pieces, k - 1), pieces[k - 1].content.delta)
    else Restored(pieces, k - 1)
  }

  /** The first e pieces carry data and the next one ends the snapshot. */
  ghost predicate CompleteAt(pieces: seq<Piece>, e: nat) {
    e < |pieces| && pieces[e].content.NoBytes? && AllData(pieces, e)
  }

  ghost predicate AllData(pieces: seq<Piece>, k: nat) {
    k <= |pieces| && forall j: nat | j < k :: pieces[j].content.Of?
  }

  /** The first e pieces were taken, which led to kv and to the block the last of them names. */
  ghost predicate Took(pieces: seq<Piece>, e: nat, kv: KV, was: uint64, current: uint64) {
    && AllData(pieces, e) && kv == Restored(pieces, e)
    && current == if e == 0 then was else pieces[e - 1].blockNumber
  }

  /** A snapshot that ends as it should. */
  ghost predicate Whole(answer: Option<seq<Piece>>) {
    answer.Some? && exists e :: CompleteAt(answer.value, e)
  }

  /** Peer k is the first with a whole snapshot, of e pieces, and the state is what it makes. */
  ghost predicate TookFrom(peers: seq<Option<seq<Piece>>>, k: nat, e: nat, kv: KV, current: uint64) {
    && k < |peers| && peers[k].Some? && CompleteAt(peers[k].value, e) && kv == Restored(peers[k].value, e)
    && (e > 0 ==> current == peers[k].value[e - 1].blockNumber)
    && forall j: nat | j < k :: !Whole(peers[j])
  }

  lemma CompleteOnce(pieces: seq<Piece>, e: nat, k: nat)
    requires CompleteAt(pieces, e) && AllData(pieces, k) && k < |pieces| && !pieces[k].content.Of?
    ensures e == k
  {
  }

  /** The snapshot that is taken is determined. */
  lemma TookOnce(peers: seq<Option<seq<Piece>>>, k: nat, e: nat, kv: KV, current: uint64,
                 k': nat, e': nat, kv': KV, current': uint64)
    requires TookFrom(peers, k, e, kv, current) && TookFrom(peers, k', e', kv', current') && e > 0
    ensures kv == kv' && current == current'
  {
    assert Whole(peers[k]) && Whole(peers[k']);
    CompleteOnce(peers[k].value, e', e);
  }

  /** The blocks of a stored chain name the same states. */
  lemma NamesCarry(chain: map<nat, Block>, blocks: map<nat, Block>, high: nat, hash: Hash, at: nat, kv: KV, ds: seq<Delta>)
    requires Linked(chain, high, hash, at) && Linked(blocks, high, hash, at)
    requires high == at + |ds| && Names(chain, at + 1, kv, ds)
    ensures Names(blocks, at + 1, kv, ds) && blocks[at].header == chain[at].header
  {
    ChainDetermined(chain, blocks, high, hash, at, at, at);
    var from := at + 1;
    forall k: nat | k < |ds| ensures NamesAfter(blocks, from, kv, ds, k) {
      assert NamesAfter(chain, from, kv, ds, k);
      ChainDetermined(chain, blocks, high, hash, at, at, from + k);
    }
  }
}
