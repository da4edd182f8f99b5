/** Recovering a chain and a state from arbitrary peers. */
module StateTransfer {
  import opened Common
  import opened LedgerTypes
  import opened LedgerStack
  import opened PeerAnswers

  // ---------------------------------------------------------------- chains

  /** Everything above `next` is linked, and `want` is the hash block `next` must have. */
  ghost predicate LinkedAbove(blocks: map<nat, Block>, high: nat, hash: Hash, next: nat, want: Hash) {
    && next <= high
    && if next == high then want == hash
       else Linked(blocks, high, hash, next + 1) && want == blocks[next + 1].header.previousBlockHash
  }

  /** Outside low..high the stores are the same. */
  ghost predicate SameOutside(a: map<nat, Block>, b: map<nat, Block>, low: nat, high: nat) {
    forall k: nat | k < low || k > high :: SameAt(a, b, k)
  }

  ghost predicate SameAt(a: map<nat, Block>, b: map<nat, Block>, k: nat) {
    (k in a <==> k in b) && (k in a ==> b[k] == a[k])
  }

  lemma SameBefore(a: map<nat, Block>, b: map<nat, Block>, c: map<nat, Block>, next: nat, low: nat, mid: nat, high: nat)
    requires SameOutside(a, b, next, high) && SameOutside(b, c, low, mid) && low <= next && mid <= high
    ensures SameOutside(a, c, low, high)
  {
    forall k: nat | k < low || k > high ensures SameAt(a, c, k) {
      assert SameAt(a, b, k) && SameAt(b, c, k);
    }
  }

  lemma LinkOneMore(a: map<nat, Block>, b: map<nat, Block>, high: nat, hash: Hash, next: nat, want: Hash)
    requires LinkedAbove(a, high, hash, next, want)
    requires SameOutside(a, b, next, next) && next in b && b[next].GetHash() == want
    ensures Linked(b, high, hash, next)
    ensures next > 0 ==> LinkedAbove(b, high, hash, next - 1, b[next].header.previousBlockHash)
  {
    forall k | next < k <= high ensures k in b && b[k] == a[k] {
      assert SameAt(a, b, k);
    }
  }

  /** The hash that is waited for is that of the chain. */
  lemma WantedIsChain(blocks: map<nat, Block>, chain: map<nat, Block>, high: nat, hash: Hash, low: nat, next: nat, want: Hash)
    requires LinkedAbove(blocks, high, hash, next, want) && Linked(chain, high, hash, low) && low <= next
    ensures want == chain[next].GetHash()
  {
    if next < high {
      ChainDetermined(blocks, chain, high, hash, next + 1, low, next + 1);
      assert chain[next].GetHash() == chain[next + 1].header.previousBlockHash;
    }
  }

  lemma OneMessage(msgs: seq<BlockMessage>, i: nat, next: int)
    requires i < |msgs|
    ensures CursorThrough([msgs[i]], 1, CursorThrough(msgs, i, next)) == CursorThrough(msgs, i + 1, next)
  {
    assert CursorThrough([msgs[i]], 0, CursorThrough(msgs, i, next)) == CursorThrough(msgs, i, next);
  }

  /** How reading from a peer ends: not at all yet, with success, with an error that
      sends tryOverPeers to the next peer, or by a panic. */
  datatype Outcome = Going | Done | PeerFailed | Panicked

  /** The variables the closure of syncBlocks captures. */
  datatype Cursor = Cursor(next: uint64, want: Hash, last: Option<Block>)

  /** How a sync request over low..high with head `hash` stands. */
  ghost predicate Standing(blocks: map<nat, Block>, high: nat, hash: Hash, low: nat, c: Cursor, o: Outcome) {
    && low <= c.next <= high
    && (if o.Done? then c.next == low && Linked(blocks, high, hash, low) && c.last.Some?
                        && c.last.value.GetHash() == blocks[low].GetHash()
        else LinkedAbove(blocks, high, hash, c.next, c.want))
  }

  /** How far truthful messages have led: the cursor is where it should be, and passing the
      lowest block is success. */
  ghost predicate Advanced(o: Outcome, next: nat, cursor: int, low: nat) {
    o.Panicked? || (if cursor < low then o.Done? else o.Going? && next == cursor)
  }

  /** The block at the cursor is stored with another hash than the one wanted. */
  ghost predicate Clash(blocks: map<nat, Block>, c: Cursor) {
    c.next in blocks && blocks[c.next].GetHash() != c.want
  }

  /** Every stored block of the range is the one of the chain. */
  ghost predicate AgreesWith(blocks: map<nat, Block>, chain: map<nat, Block>, high: nat, low: nat) {
    forall k | low <= k <= high && k in blocks :: k in chain && blocks[k].GetHash() == chain[k].GetHash()
  }

  /** The lowest block written so far. */
  ghost function Lowest(c: Cursor, o: Outcome): nat {
    if o.Done? then c.next else c.next + 1
  }

  /** A block hash that consensus vouches for. */
  datatype HashReply = HashReply(blockNumber: uint64, blockHash: Hash)

  /** What the peers answer to a request for a snapshot, in the order they are tried. */
  type Snapshots = seq<Option<seq<Piece>>>

  /** Everything that reaches one attempt from outside; peers are in the order they are tried. */
  datatype Inputs = Inputs(pieces: Snapshots, replies: seq<HashReply>, blocks: seq<BlockPeer>, deltas: seq<DeltaPeer>)

  /** Reply k is the first that is not behind the block `at`. */
  ghost predicate FirstFresh(replies: seq<HashReply>, k: nat, at: uint64, reply: Option<HashReply>) {
    && k < |replies| && replies[k].blockNumber >= at && reply == Some(replies[k])
    && forall j: nat | j < k :: replies[j].blockNumber < at
  }

  /** What a transfer should find: the chain, a state kv at block `at`, the deltas from there to
      the target, which reply names the target and which peer serves the deltas. */
  datatype World = World(chain: map<nat, Block>, at: uint64, kv: KV, deltas: seq<Delta>, target: HashReply, reply: nat, server: nat)

  /** How an attempt ends: Completed is a nil error, Interrupted a request to exit,
      Crashed a panic. */
  datatype Result = Completed | Errored | Interrupted | Crashed

  class StateTransferState {
    const stack: Stack
    const recoverDamage: bool
    const maxStateDeltas: uint64

    var stateValid: bool

    // The variables of stateThread that survive a failed attempt.
    var currentStateBlock: uint64
    var blockHReply: Option<HashReply>
    var blocksValid: bool
    ghost var syncedFrom: nat

    constructor (stack: Stack, recoverDamage: bool, maxStateDeltas: uint64)
      requires maxStateDeltas > 0
      ensures this.stack == stack && this.recoverDamage == recoverDamage && this.maxStateDeltas == maxStateDeltas
    {
      this.stack := stack;
      this.recoverDamage := recoverDamage;
      this.maxStateDeltas := maxStateDeltas;
      this.stateValid := true;
      this.currentStateBlock := 0;
      this.blockHReply := None;
      this.blocksValid := false;
      this.syncedFrom := 0;
    }

    // ------------------------------------------------------------ syncBlocks

    /** As soon as a block is stored the height reaches the head. */
    ghost predicate Raised(high: nat, c: Cursor, o: Outcome)
      reads stack
    {
      o.Done? || c.next < high ==> high < stack.size
    }

    /** Stores the block unless an equal one must not be overwritten. */
    method StoreBlock(n: nat, b: Block) returns (ok: bool)
      modifies stack`blocks, stack`size
      ensures ok ==> n in stack.blocks && stack.blocks[n].GetHash() == b.GetHash() && stack.size >= old(stack.size)
      ensures ok ==> SameOutside(old(stack.blocks), stack.blocks, n, n) && n < stack.size
      ensures !ok ==> stack.blocks == old(stack.blocks) && stack.size == old(stack.size)
      ensures !ok ==> !recoverDamage && n in stack.blocks && stack.blocks[n].GetHash() != b.GetHash()
    {
      if !recoverDamage {
        var found := stack.GetBlock(n);
        if found.Found? {
          return found.block.GetHash() == b.GetHash();
        }
      }
      stack.PutBlock(n, b);
      return true;
    }

    /** A block that is the next one wanted. */
    method TakeBlock(b: Option<Block>, high: uint64, ghost hash: Hash, low: uint64, c: Cursor) returns (o: Outcome, c': Cursor)
      requires Standing(stack.blocks, high, hash, low, c, Going) && Raised(high, c, Going) && c.last == b
      modifies stack`blocks, stack`size
      ensures Standing(stack.blocks, high, hash, low, c', o) && c'.next <= c.next
      ensures SameOutside(old(stack.blocks), stack.blocks, Lowest(c', o), c.next) && stack.size >= old(stack.size)
      ensures Raised(high, c', o)
      ensures o.Panicked? ==> !recoverDamage && c' == c && Clash(stack.blocks, c)
      ensures o.PeerFailed? <==> b.None? || b.value.GetHash() != c.want
      ensures !o.PeerFailed? ==> Advanced(o, c'.next, c.next - 1, low)
    {
      c' := c;
      if b.None? || b.value.GetHash() != c.want {
        return PeerFailed, c;
      }
      var ok := StoreBlock(c.next, b.value);
      if !ok {
        return Panicked, c;
      }
      LinkOneMore(old(stack.blocks), stack.blocks, high, hash, c.next, c.want);
      if c.next == low {
        return Done, c;
      }
      return Going, c.(next := c.next - 1, want := b.value.header.previousBlockHash);
    }

    /** The i-th block of a message. */
    method OfferBlock(msg: BlockMessage, i: nat, high: uint64, ghost hash: Hash, low: uint64, c: Cursor,
                      ghost chain: map<nat, Block>)
        returns (o: Outcome, c': Cursor)
      requires Standing(stack.blocks, high, hash, low, c, Going) && Raised(high, c, Going) && i < |msg.blocks|
      modifies stack`blocks, stack`size
      ensures Standing(stack.blocks, high, hash, low, c', o) && c'.next <= c.next
      ensures SameOutside(old(stack.blocks), stack.blocks, Lowest(c', o), c.next) && stack.size >= old(stack.size)
      ensures Raised(high, c', o)
      ensures o.Panicked? ==> !recoverDamage && Clash(stack.blocks, c')
      ensures TrueBlock(msg, i, chain, high, low) && Linked(chain, high, hash, low)
              ==> Advanced(o, c'.next, CursorPast(msg, i, c.next), low)
    {
      c' := c.(last := msg.blocks[i]);
      if Number(msg, i) != c'.next {
        return Going, c';
      }
      if Linked(chain, high, hash, low) {
        WantedIsChain(stack.blocks, chain, high, hash, low, c.next, c.want);
      }
      o, c' := TakeBlock(msg.blocks[i], high, hash, low, c');
    }

    /** One message of blocks. A truthful one moves the cursor past all blocks of it that are next. */
    method ReadBlocks(msg: BlockMessage, high: uint64, ghost hash: Hash, low: uint64, c: Cursor, ghost chain: map<nat, Block>)
        returns (o: Outcome, c': Cursor)
      requires Standing(stack.blocks, high, hash, low, c, Going) && Raised(high, c, Going)
      modifies stack`blocks, stack`size
      ensures Standing(stack.blocks, high, hash, low, c', o) && c'.next <= c.next
      ensures SameOutside(old(stack.blocks), stack.blocks, Lowest(c', o), high) && stack.size >= old(stack.size)
      ensures Raised(high, c', o)
      ensures o.Panicked? ==> !recoverDamage && Clash(stack.blocks, c')
      ensures Truthful(msg, chain, high, low) && Linked(chain, high, hash, low)
              ==> Advanced(o, c'.next, CursorThrough([msg], 1, c.next), low)
    {
      c' := c;
      o := Going;
      assert CursorThrough([msg], 0, c.next) == c.next;
      if msg.start < msg.end {
        return;
      }
      var i := 0;
      while i < |msg.blocks| && o.Going?
        invariant 0 <= i <= |msg.blocks|
        invariant Standing(stack.blocks, high, hash, low, c', o) && c'.next <= c.next
        invariant SameOutside(old(stack.blocks), stack.blocks, Lowest(c', o), high) && stack.size >= old(stack.size)
        invariant Raised(high, c', o)
        invariant o.Panicked? ==> !recoverDamage && Clash(stack.blocks, c')
        invariant Truthful(msg, chain, high, low) && Linked(chain, high, hash, low)
                  ==> Advanced(o, c'.next, CursorAfter(msg, i, c.next), low)
      {
        ghost var stored, next := stack.blocks, Lowest(c', o);
        ghost var mid := c'.next;
        o, c' := OfferBlock(msg, i, high, hash, low, c', chain);
        SameBefore(old(stack.blocks), stored, stack.blocks, next, Lowest(c', o), mid, high);
        i := i + 1;
      }
      CursorFalls(msg, i, |msg.blocks|, c.next);
    }

    /** The closure of syncBlocks: reads one peer's messages. */
    method SyncFromPeer(answer: Option<seq<BlockMessage>>, high: uint64, ghost hash: Hash, low: uint64, c: Cursor,
                        ghost chain: map<nat, Block>)
        returns (o: Outcome, c': Cursor)
      requires Standing(stack.blocks, high, hash, low, c, Going) && Raised(high, c, Going)
      modifies stack`blocks, stack`size
      ensures Standing(stack.blocks, high, hash, low, c', o) && !o.Going? && c'.next <= c.next
      ensures SameOutside(old(stack.blocks), stack.blocks, Lowest(c', o), high) && stack.size >= old(stack.size)
      ensures Raised(high, c', o)
      ensures o.Panicked? ==> !recoverDamage && Clash(stack.blocks, c')
      ensures Helps(answer, chain, high, c.next, low) && Linked(chain, high, hash, low) ==> o.Done? || o.Panicked?
    {
      c' := c;
      if answer.None? {
        o := PeerFailed;
        return;
      }
      o := Going;
      var i := 0;
      ghost var true' := Linked(chain, high, hash, low) && forall msg | msg in answer.value :: Truthful(msg, chain, high, low);
      while i < |answer.value| && o.Going?
        invariant 0 <= i <= |answer.value|
        invariant Standing(stack.blocks, high, hash, low, c', o) && c'.next <= c.next
        invariant SameOutside(old(stack.blocks), stack.blocks, Lowest(c', o), high) && stack.size >= old(stack.size)
        invariant Raised(high, c', o)
        invariant o.Panicked? ==> !recoverDamage && Clash(stack.blocks, c')
        invariant true' ==> Advanced(o, c'.next, CursorThrough(answer.value, i, c.next), low)
      {
        OneMessage(answer.value, i, c.next);
        ghost var stored, next := stack.blocks, Lowest(c', o);
        o, c' := ReadBlocks(answer.value[i], high, hash, low, c', chain);
        SameBefore(old(stack.blocks), stored, stack.blocks, next, Lowest(c', o), high, high);
        i := i + 1;
      }
      CursorFallsThrough(answer.value, i, |answer.value|, c.next);
      if o.Going? {
        o := PeerFailed;
      }
    }

    /** syncBlocks: whatever the peers send, success means a hash chain from the requested
        head down to the lowest requested block. In every case blocks outside the request
        stay as they were, the cursor stays within it, and what was stored above the cursor
        is a hash chain. A panic needs an existing block to differ while overwriting is off.
        One helpful peer among any others is enough: then nothing but such a block prevents success. */
    method SyncBlocks(high: uint64, low: uint64, hash: Hash, peers: seq<BlockPeer>, ghost chain: map<nat, Block>)
        returns (o: Outcome, next: uint64, last: Option<Block>)
      requires low <= high
      modifies stack`blocks, stack`size
      ensures !o.Going? && low <= next <= high && (o.Panicked? ==> !recoverDamage)
      ensures o.Done? ==> next == low && Linked(stack.blocks, high, hash, low) && high < stack.size
      ensures o.Done? ==> last.Some? && last.value.GetHash() == stack.blocks[low].GetHash()
      ensures !o.Done? && next < high ==> Linked(stack.blocks, high, hash, next + 1)
      ensures SameOutside(old(stack.blocks), stack.blocks, if o.Done? then low else next + 1, high)
      ensures stack.size >= old(stack.size)
      ensures Linked(chain, high, hash, low) ==> (o.Panicked? ==> !AgreesWith(old(stack.blocks), chain, high, low))
      ensures Linked(chain, high, hash, low) && (exists peer | peer in peers :: HelpfulPeer(peer, chain, high, low)) ==>
                o.Done? || o.Panicked?
    {
      var c := Cursor(high, hash, None);
      o := PeerFailed;
      var i := 0;
      while i < |peers| && o.PeerFailed?
        invariant 0 <= i <= |peers| && !o.Going?
        invariant Standing(stack.blocks, high, hash, low, c, o)
        invariant SameOutside(old(stack.blocks), stack.blocks, Lowest(c, o), high) && stack.size >= old(stack.size)
        invariant Raised(high, c, o)
        invariant o.Panicked? ==> !recoverDamage && Clash(stack.blocks, c)
        invariant o.PeerFailed? && Linked(chain, high, hash, low) ==>
                    forall k | 0 <= k < i :: !HelpfulPeer(peers[k], chain, high, low)
      {
        ghost var stored, below := stack.blocks, Lowest(c, o);
        o, c := SyncFromPeer(peers[i](c.next, low), high, hash, low, c, chain);
        SameBefore(old(stack.blocks), stored, stack.blocks, below, Lowest(c, o), high, high);
        i := i + 1;
      }
      next, last := c.next, c.last;
      if Linked(chain, high, hash, low) && o.Panicked? {
        WantedIsChain(stack.blocks, chain, high, hash, low, c.next, c.want);
        assert SameAt(old(stack.blocks), stack.blocks, c.next);
      }
    }

    // ---------------------------------------------------------- playing deltas

    /** The state is that of block n. */
    ghost predicate AtBlock(n: nat)
      reads stack
    {
      stack.pending.None? && n in stack.blocks && stack.blocks[n].header.stateHash == StateOf(stack.kv)
    }

    /** No group is open and the disk does not fail. */
    ghost predicate Steady()
      reads stack
    {
      stack.reliable && stack.currentId.None? && stack.pending.None?
    }

    /** Applies the deltas of one message; false when one does not unmarshal. Only the first
        delta has an effect, and none while a group is open. */
    method ApplyDeltas(msg: DeltaMessage) returns (ok: bool)
      modifies stack`pending, stack`currentId
      ensures ok <==> forall k | 0 <= k < |msg.deltas| :: msg.deltas[k].Some?
      ensures if old(stack.currentId).None? && |msg.deltas| > 0 && msg.deltas[0].Some?
              then stack.currentId == Some(Deltas(msg)) && stack.pending == msg.deltas[0]
              else stack.currentId == old(stack.currentId) && stack.pending == old(stack.pending)
    {
      var i := 0;
      while i < |msg.deltas|
        invariant 0 <= i <= |msg.deltas| && forall k | 0 <= k < i :: msg.deltas[k].Some?
        invariant if old(stack.currentId).None? && i > 0
                  then stack.currentId == Some(Deltas(msg)) && stack.pending == msg.deltas[0]
                  else stack.currentId == old(stack.currentId) && stack.pending == old(stack.pending)
      {
        if msg.deltas[i].None? {
          return false;
        }
        stack.ApplyStateDelta(Deltas(msg), msg.deltas[i].value);
        i := i + 1;
      }
      return true;
    }

    /** The message carries the delta d of block n, which leads to the state that block names. */
    ghost predicate Carries(msg: DeltaMessage, n: nat, d: Delta)
      reads stack
    {
      && msg.start == msg.end == n && msg.deltas == [Some(d)]
      && n < stack.size && n in stack.blocks && stack.blocks[n].header.stateHash == StateOf(Overlay(stack.kv, d))
    }

    /** A group of state deltas was left open. */
    ghost predicate Stuck()
      reads stack
    {
      stack.currentId.Some? && stack.currentId.value.Deltas?
    }

    /** It was left open by a message of which a delta does not decode, and so can never be closed
        by that message again. */
    ghost predicate Spoiled()
      reads stack
    {
      Stuck() && Corrupted(stack.currentId.value.message)
    }

    /** What a message does to the steady state kv: its first delta is committed exactly if all of
        them decode and the block the message ends at names the state that this delta leads to. */
    ghost predicate PlayedOne(msg: DeltaMessage, to: uint64, next: uint64, kv: KV, o: Outcome, next': uint64)
      reads stack
    {
      if Opens(msg, next, to) && !Corrupted(msg) && msg.end < stack.size && msg.end in stack.blocks
         && stack.blocks[msg.end].header.stateHash == StateOf(Overlay(kv, msg.deltas[0].value))
      then stack.kv == Overlay(kv, msg.deltas[0].value) && if next == to then o.Done? else o.Going? && next' == next + 1
      else stack.kv == kv && !o.Done? && next' == next
    }

    /** One message of state deltas; `next` is the block it must start at. From a steady state the
        message leaves its group open exactly if it opens it and then breaks off, because a later
        delta does not decode or because the block is missing. While a spoiled group is open no
        message has any effect on the state. */
    method PlayMessage(msg: DeltaMessage, to: uint64, next: uint64, ghost d: Delta) returns (o: Outcome, next': uint64)
      requires next <= to
      modifies this`stateValid, stack`kv, stack`pending, stack`currentId
      ensures next <= next' <= to && next' <= next + 1 && (next' != next ==> msg.start == next)
      ensures o.Done? ==> next' == to && AtBlock(to)
      ensures old(Steady()) ==> (Stuck() <==> Opens(msg, next, to) && (Corrupted(msg) || o.Panicked?))
      ensures old(Steady()) && Opens(msg, next, to) && Corrupted(msg) ==>
                Spoiled() && o.PeerFailed? && next' == next && stack.kv == old(stack.kv)
      ensures old(Steady()) && !Stuck() ==> Steady()
      ensures old(Steady()) ==> PlayedOne(msg, to, next, old(stack.kv), o, next')
      ensures old(Spoiled()) ==> Spoiled() && stack.kv == old(stack.kv) && !o.Done? && next' == next
      ensures old(Steady() && Carries(msg, next, d)) ==>
                && Steady() && stack.kv == Overlay(old(stack.kv), d)
                && if next == to then o.Done? else o.Going? && next' == next + 1
    {
      next' := next;
      if msg.start != next || msg.end < msg.start || msg.end > to {
        return Going, next;
      }
      var ok := ApplyDeltas(msg);
      if !ok {
        return PeerFailed, next;
      }
      var test := stack.GetBlock(msg.end);
      if test.Missing? {
        return Panicked, next;
      }
      if !test.Found? || test.block.header.stateHash != stack.CurrentStateHash() {
        ok := stack.RollbackStateDelta(Deltas(msg));
        if !ok {
          stateValid := false;
        }
        return PeerFailed, next;
      }
      ok := stack.CommitStateDelta(Deltas(msg));
      if !ok {
        stateValid := false;
        return PeerFailed, next;
      }
      if next == to {
        return Done, next;
      }
      return Going, next + 1;
    }

    /** The deltas ds lead from the present state through the states that the blocks name. */
    ghost predicate LeadsTo(from: nat, to: nat, ds: seq<Delta>)
      reads stack
    {
      Steady() && from + |ds| == to + 1 <= TWO64 && to < stack.size && Names(stack.blocks, from, stack.kv, ds)
    }

    /** The message that was read last opens a group and does not decode. */
    ghost predicate Spoils(answer: Option<seq<DeltaMessage>>, read: nat, next: uint64, to: uint64) {
      && answer.Some? && 0 < read <= |answer.value|
      && Opens(answer.value[read - 1], next, to) && Corrupted(answer.value[read - 1])
    }

    /** One peer's messages, of which so many are read. */
    method PlayFromPeer(answer: Option<seq<DeltaMessage>>, to: uint64, next: uint64, ghost ds: seq<Delta>)
        returns (o: Outcome, next': uint64, ghost read: nat)
      requires next <= to
      modifies this`stateValid, stack`kv, stack`pending, stack`currentId
      ensures next <= next' <= to && !o.Going?
      ensures o.Done? ==> next' == to && AtBlock(to)
      ensures old(LeadsTo(next, to, ds)) && answer == Some(ServedDeltas(next, ds)) ==>
                o.Done? && Steady() && stack.kv == Played(old(stack.kv), ds, |ds|)
      ensures answer.None? ==> o.PeerFailed? && next' == next && Same(old(stack.kv), old(stack.currentId), old(stack.pending))
      ensures old(Steady()) && !o.Panicked? ==>
                (Spoiled() <==> Spoils(answer, read, next', to)) && (Spoiled() || Steady()) && (Spoiled() ==> o.PeerFailed?)
      ensures old(Steady()) && Spoils(answer, 1, next, to) ==>
                Spoiled() && o.PeerFailed? && next' == next && stack.kv == old(stack.kv)
      ensures old(Spoiled()) ==> Spoiled() && stack.kv == old(stack.kv) && !o.Done? && next' == next
    {
      next' := next;
      read := 0;
      if answer.None? {
        return PeerFailed, next, 0;
      }
      o := Going;
      var i := 0;
      ghost var served := LeadsTo(next, to, ds) && answer == Some(ServedDeltas(next, ds));
      while i < |answer.value| && o.Going?
        invariant 0 <= i <= |answer.value|
        invariant next <= next' <= to
        invariant o.Done? ==> next' == to && AtBlock(to)
        invariant served ==> Steady() && stack.kv == Played(old(stack.kv), ds, i)
        invariant served ==> if i < |ds| then o.Going? && next' == next + i else o.Done?
        invariant read == i && (i == 0 ==> o.Going? && next' == next && stack.kv == old(stack.kv))
        invariant old(Steady()) && o.Going? ==> Steady()
        invariant old(Steady()) && !o.Panicked? ==>
                    (Spoiled() <==> Spoils(answer, read, next', to)) && (Spoiled() || Steady()) && (Spoiled() ==> o.PeerFailed?)
        invariant old(Steady()) && Spoils(answer, 1, next, to) && i > 0 ==>
                    Spoiled() && o.PeerFailed? && next' == next && stack.kv == old(stack.kv)
        invariant old(Spoiled()) ==> Spoiled() && stack.kv == old(stack.kv) && !o.Done? && next' == next
      {
        ghost var d := if served then ds[i] else map[];
        if served {
          assert NamesAfter(stack.blocks, next, old(stack.kv), ds, i);
        }
        o, next' := PlayMessage(answer.value[i], to, next', d);
        i := i + 1;
        read := i;
      }
      if o.Going? {
        o := PeerFailed;
      }
    }

    ghost predicate Same(kv: KV, id: Option<GroupId>, pending: Option<Delta>)
      reads stack
    {
      stack.kv == kv && stack.currentId == id && stack.pending == pending
    }

    /** The first peer that answers serves the deltas. */
    ghost predicate ServesAt(peers: seq<DeltaPeer>, k: nat, from: uint64, to: uint64, ds: seq<Delta>)
      requires from + |ds| <= TWO64
    {
      && k < |peers| && peers[k](from, to) == Some(ServedDeltas(from, ds))
      && forall j: nat | j < k :: peers[j](from, to).None?
    }

    /** The first message of the first peer that answers opens a group and does not decode. */
    ghost predicate SpoilsFirst(peers: seq<DeltaPeer>, k: nat, from: uint64, to: uint64) {
      k < |peers| && Spoils(peers[k](from, to), 1, from, to) && forall j: nat | j < k :: peers[j](from, to).None?
    }

    /** Some peer sends a message that opens a group at `next` and does not decode. */
    ghost predicate SpoiledBy(peers: seq<DeltaPeer>, next: uint64, to: uint64) {
      exists j: nat, c: uint64, read: nat :: j < |peers| && Spoils(peers[j](c, to), read, next, to)
    }

    /** playStateUpToBlockNumber: success means that the committed state is the one
        block `to` names, whatever the messages between covered. It succeeds if the first
        peer that answers serves the deltas the blocks ask for. A peer whose message does not
        decode after its first delta spoils it for all that follow: the group stays open, the
        state stays as it is, and no later peer can help. */
    method PlayStateUpToBlockNumber(from: uint64, to: uint64, peers: seq<DeltaPeer>, ghost ds: seq<Delta>, ghost k: nat)
        returns (o: Outcome, next: uint64)
      requires from <= to
      modifies this`stateValid, stack`kv, stack`pending, stack`currentId
      ensures from <= next <= to && !o.Going?
      ensures o.Done? ==> next == to && AtBlock(to)
      ensures old(LeadsTo(from, to, ds)) && ServesAt(peers, k, from, to, ds) ==>
                o.Done? && Steady() && stack.kv == Played(old(stack.kv), ds, |ds|)
      ensures old(Steady()) && !o.Panicked? ==> (Steady() <==> !Spoiled()) && (Spoiled() ==> SpoiledBy(peers, next, to) && !o.Done?)
      ensures old(Steady()) && SpoilsFirst(peers, k, from, to) ==> Spoiled() && !o.Done? && stack.kv == old(stack.kv) && next == from
      ensures old(Spoiled()) ==> Spoiled() && stack.kv == old(stack.kv) && !o.Done?
    {
      next := from;
      o := PeerFailed;
      var i := 0;
      ghost var served := LeadsTo(from, to, ds) && ServesAt(peers, k, from, to, ds);
      while i < |peers| && o.PeerFailed?
        invariant 0 <= i <= |peers| && !o.Going?
        invariant from <= next <= to
        invariant o.Done? ==> next == to && AtBlock(to)
        invariant served ==>
                    if i <= k then o.PeerFailed? && next == from && Same(old(stack.kv), old(stack.currentId), old(stack.pending))
                    else o.Done? && Steady() && stack.kv == Played(old(stack.kv), ds, |ds|)
        invariant old(Steady()) && !o.Panicked? ==> (Steady() <==> !Spoiled()) && (Spoiled() ==> SpoiledBy(peers, next, to) && !o.Done?)
        invariant old(Steady()) && SpoilsFirst(peers, k, from, to) ==>
                    && next == from && stack.kv == old(stack.kv) && if i <= k then o.PeerFailed? && Steady() else !o.Done? && Spoiled()
        invariant old(Spoiled()) ==> Spoiled() && stack.kv == old(stack.kv) && !o.Done?
      {
        ghost var asked := next;
        ghost var read;
        o, next, read := PlayFromPeer(peers[i](next, to), to, next, ds);
        assert Spoils(peers[i](asked, to), read, next, to) ==> SpoiledBy(peers, next, to);
        i := i + 1;
      }
    }

    // --------------------------------------------------------------- snapshots

    /** One piece; in a steady state its delta is committed. */
    method ReadPiece(piece: Piece, current: uint64) returns (o: Outcome, current': uint64)
      requires stack.pending.None?
      modifies stack`kv, stack`pending, stack`currentId
      ensures stack.pending.None? && !o.Panicked?
      ensures o.Done? <==> piece.content.NoBytes?
      ensures o.Done? ==> stack.kv == old(stack.kv) && current' == current && stack.currentId == old(stack.currentId)
      ensures o.Going? ==> piece.content.Of? && current' == piece.blockNumber
      ensures old(Steady()) ==> Steady()
      ensures old(Steady()) && piece.content.Of? ==> o.Going? && stack.kv == Overlay(old(stack.kv), piece.content.delta)
      ensures old(Stuck()) ==> !o.Going? && Stuck()
    {
      match piece.content
      case NoBytes => return Done, current;
      case Corrupt => return PeerFailed, current;
      case Of(d) =>
        stack.ApplyStateDelta(Snapshot(piece), d);
        var ok := stack.CommitStateDelta(Snapshot(piece));
        return if ok then Going else PeerFailed, piece.blockNumber;
    }

    /** One peer's snapshot. In a steady state it is taken exactly if it is complete; while a
        group of deltas is open none that carries data can be. */
    method SnapshotFromPeer(answer: Option<seq<Piece>>, current: uint64) returns (o: Outcome, current': uint64)
      modifies stack`kv, stack`pending, stack`currentId
      ensures stack.pending.None? && (o.Done? || o.PeerFailed?)
      ensures old(Steady()) ==> Steady() && (o.Done? <==> Whole(answer))
      ensures old(Steady()) && o.Done? ==>
                exists e :: Took(answer.value, e, stack.kv, current, current') && CompleteAt(answer.value, e)
      ensures old(Stuck()) ==> Stuck() && (o.Done? ==> answer.Some? && CompleteAt(answer.value, 0))
    {
      current' := current;
      var emptied := stack.EmptyState();
      if answer.None? {
        return PeerFailed, current;
      }
      var pieces := answer.value;
      o := Going;
      var i := 0;
      while i < |pieces| && o.Going?
        invariant 0 <= i <= |pieces|
        invariant stack.pending.None? && !o.Panicked?
        invariant o.Going? ==> AllData(pieces, i)
        invariant !o.Going? ==> i > 0 && AllData(pieces, i - 1) && (o.Done? <==> pieces[i - 1].content.NoBytes?)
        invariant old(Steady()) ==> Steady()
        invariant old(Steady()) && o.Going? ==> Took(pieces, i, stack.kv, current, current')
        invariant old(Steady()) && o.Done? ==> Took(pieces, i - 1, stack.kv, current, current')
        invariant old(Steady()) && o.PeerFailed? ==> !pieces[i - 1].content.Of?
        invariant old(Stuck()) ==> Stuck() && (o.Going? ==> i == 0) && (!o.Going? ==> i == 1)
      {
        o, current' := ReadPiece(pieces[i], current');
        i := i + 1;
      }
      if o.Done? {
        assert CompleteAt(pieces, i - 1);
      } else if old(Steady()) && o.PeerFailed? {
        forall e | CompleteAt(pieces, e) ensures false {
          CompleteOnce(pieces, e, i - 1);
        }
      }
      if o.Going? {
        o := PeerFailed;
      }
    }

    /** syncStateSnapshot: the state it leaves is unverified, but nothing is left uncommitted.
        In a steady state it is that of the first complete snapshot, if there is one. */
    method SyncStateSnapshot(peers: Snapshots) returns (ok: bool, current: uint64)
      modifies stack`kv, stack`pending, stack`currentId
      ensures ok ==> stack.pending.None?
      ensures old(Steady()) ==> Steady() && (ok <==> exists a | a in peers :: Whole(a))
      ensures old(Steady()) && ok ==> exists k, e :: TookFrom(peers, k, e, stack.kv, current)
      ensures old(Stuck()) && ok ==> exists a | a in peers :: a.Some? && CompleteAt(a.value, 0)
    {
      current := 0;
      ok := false;
      var i := 0;
      ghost var end: nat := 0;
      while i < |peers| && !ok
        invariant 0 <= i <= |peers|
        invariant ok ==> stack.pending.None? && i > 0
        invariant old(Steady()) ==> Steady() && forall j: nat | j < i :: Whole(peers[j]) <==> ok && j == i - 1
        invariant old(Steady()) && ok ==> TookFrom(peers, i - 1, end, stack.kv, current)
        invariant old(Stuck()) ==> Stuck() && (ok ==> peers[i - 1].Some? && CompleteAt(peers[i - 1].value, 0))
      {
        var o, was := Going, current;
        o, current := SnapshotFromPeer(peers[i], current);
        ok := o.Done?;
        if old(Steady()) && ok {
          end :| Took(peers[i].value, end, stack.kv, was, current) && CompleteAt(peers[i].value, end);
        }
        i := i + 1;
      }
    }

    // ----------------------------------------------------------- state transfer

    /** The stored block at the target has the advertised hash and is the head of a chain
        down to the block the last block sync was asked for. */
    ghost predicate BlocksTrusted()
      reads this, stack
    {
      blockHReply.Some? && Linked(stack.blocks, blockHReply.value.blockNumber, blockHReply.value.blockHash, syncedFrom)
    }

    /** What every attempt keeps. */
    ghost predicate Valid()
      reads this, stack
    {
      (stateValid ==> stack.pending.None?) && (blocksValid ==> BlocksTrusted())
    }

    /** What completed state transfer promises. */
    ghost predicate Transferred()
      reads this, stack
    {
      && blockHReply.Some? && blockHReply.value.blockNumber in stack.blocks
      && stack.blocks[blockHReply.value.blockNumber].GetHash() == blockHReply.value.blockHash
      && AtBlock(blockHReply.value.blockNumber)
    }

    /** The block hash at hand is not behind the state. */
    ghost predicate ReplyKept()
      reads this
    {
      blockHReply.Some? && blockHReply.value.blockNumber >= currentStateBlock
    }

    /** The wait for a hash of a block that is not behind the state: the first such reply ends it. */
    method AwaitReply(replies: seq<HashReply>) returns (ok: bool)
      modifies this`blockHReply, this`blocksValid
      ensures ok ==> ReplyKept()
      ensures old(ReplyKept()) ==> ok && blockHReply == old(blockHReply) && blocksValid == old(blocksValid)
      ensures !old(ReplyKept()) && ok ==> !blocksValid && exists k :: FirstFresh(replies, k, currentStateBlock, blockHReply)
      ensures !ok ==> forall k | 0 <= k < |replies| :: replies[k].blockNumber < currentStateBlock
    {
      if blockHReply.Some? && blockHReply.value.blockNumber >= currentStateBlock {
        return true;
      }
      var i := 0;
      while i < |replies|
        invariant 0 <= i <= |replies|
        invariant forall k | 0 <= k < i :: replies[k].blockNumber < currentStateBlock
      {
        blockHReply := Some(replies[i]);
        if replies[i].blockNumber >= currentStateBlock {
          blocksValid := false;
          assert FirstFresh(replies, i, currentStateBlock, blockHReply);
          return true;
        }
        i := i + 1;
      }
      return false;
    }

    /** What the state is before it is compared: that of a snapshot, or of the block below the height. */
    ghost predicate Located(pieces: Snapshots, at: uint64, kv: KV)
      reads this, stack
    {
      if stateValid then stack.size == at + 1 && stack.kv == kv
      else exists k, e :: e > 0 && TookFrom(pieces, k, e, kv, at)
    }

    /** Where the state stands: a new snapshot, or the block below the chain's height. */
    method LocateState(pieces: Snapshots, ghost at: uint64, ghost kv: KV) returns (ok: bool)
      requires Valid()
      modifies this`currentStateBlock, stack`kv, stack`pending, stack`currentId
      ensures Valid() && (ok ==> stack.pending.None?)
      ensures stateValid ==> ok && stack.kv == old(stack.kv) && currentStateBlock == Wrap(stack.size - 1)
      ensures old(Steady()) ==> Steady()
      ensures !stateValid && old(Steady()) ==> (ok <==> exists a | a in pieces :: Whole(a))
      ensures old(Steady() && Located(pieces, at, kv)) ==> ok && currentStateBlock == at && stack.kv == kv
    {
      if !stateValid {
        ghost var located := Steady() && Located(pieces, at, kv);
        ok, currentStateBlock := SyncStateSnapshot(pieces);
        if located {
          ghost var k: nat, e: nat :| e > 0 && TookFrom(pieces, k, e, kv, at);
          assert pieces[k] in pieces && Whole(pieces[k]);
          ghost var k': nat, e': nat :| TookFrom(pieces, k', e', stack.kv, currentStateBlock);
          TookOnce(pieces, k, e, kv, at, k', e', stack.kv, currentStateBlock);
        }
      } else {
        ok, currentStateBlock := true, Wrap(stack.size - 1);
      }
    }

    /** Something in the way of a block sync: a height beyond the target or, when overwriting is
        off, a stored block that is not of the chain. */
    ghost predicate Blocked(high: uint64, low: uint64, chain: map<nat, Block>)
      reads stack
    {
      high + 1 == TWO64 || high + 1 < stack.size || (!recoverDamage && !AgreesWith(stack.blocks, chain, high, low))
    }

    /** Some peer serves the chain that ends in the given block. */
    ghost predicate Available(peers: seq<BlockPeer>, reply: HashReply, low: uint64, chain: map<nat, Block>) {
      && Linked(chain, reply.blockNumber, reply.blockHash, low)
      && exists peer | peer in peers :: HelpfulPeer(peer, chain, reply.blockNumber, low)
    }

    /** The block sync of an attempt, with the request handed to the block thread. */
    method EnsureBlocks(peers: seq<BlockPeer>, ghost chain: map<nat, Block>) returns (o: Outcome)
      requires Valid() && stack.pending.None? && ReplyKept()
      modifies this`blocksValid, this`syncedFrom, stack`blocks, stack`size
      ensures Valid() && (o.Done? || o.PeerFailed? || o.Panicked?)
      ensures o.Done? ==> BlocksTrusted() && blocksValid
      ensures !old(blocksValid) && o.Done? ==> syncedFrom == currentStateBlock && blockHReply.value.blockNumber < stack.size
      ensures (&& !old(blocksValid) && Available(peers, blockHReply.value, currentStateBlock, chain)
               && !old(Blocked(blockHReply.value.blockNumber, currentStateBlock, chain))) ==> o.Done?
    {
      if blocksValid {
        return Done;
      }
      var reply := blockHReply.value;
      if Wrap(reply.blockNumber + 1) < stack.size {
        return Panicked;
      }
      var next, last;
      o, next, last := SyncBlocks(reply.blockNumber, currentStateBlock, reply.blockHash, peers, chain);
      if o.Done? {
        blocksValid := true;
        syncedFrom := currentStateBlock;
      }
    }

    /** The state is that of its block, and the deltas lead from there to the target. */
    ghost predicate CanFinish(ds: seq<Delta>)
      reads this, stack
    {
      && blockHReply.Some? && currentStateBlock + |ds| == blockHReply.value.blockNumber < stack.size
      && |ds| <= maxStateDeltas && currentStateBlock + maxStateDeltas < TWO64
      && currentStateBlock in stack.blocks && stack.blocks[currentStateBlock].header.stateHash == StateOf(stack.kv)
      && Steady() && Names(stack.blocks, currentStateBlock + 1, stack.kv, ds)
    }

    /** Compares the state with the block it claims to be of, and plays it forward. */
    method FinishState(deltas: seq<DeltaPeer>, ghost ds: seq<Delta>, ghost server: nat) returns (o: Outcome)
      requires Valid() && stack.pending.None? && BlocksTrusted() && blocksValid && ReplyKept()
      modifies this`stateValid, this`blocksValid, this`currentStateBlock, stack`kv, stack`pending, stack`currentId
      ensures !o.Going? && (o.Done? || o.PeerFailed? ==> Valid())
      ensures o.Done? ==> Transferred()
      ensures old(CanFinish(ds)) && old(Offered(deltas, ds, server)) ==> o.Done? && stack.kv == Played(old(stack.kv), ds, |ds|)
    {
      var target := blockHReply.value.blockNumber;
      if Wrap(currentStateBlock + maxStateDeltas) < target {
        return PeerFailed;
      }
      var found := stack.GetBlock(currentStateBlock);
      if found.Missing? {
        return Panicked;
      }
      if found.OutOfBounds? {
        blocksValid := false;
        return PeerFailed;
      }
      if found.block.header.stateHash != stack.CurrentStateHash() {
        stateValid := false;
        return PeerFailed;
      }
      stateValid := true;
      o := Done;
      if currentStateBlock < target {
        o, currentStateBlock := PlayStateUpToBlockNumber(currentStateBlock + 1, target, deltas, ds, server);
        if !o.Done? {
          stateValid := false;
        }
      }
    }

    /** No deltas are needed, or the first peer that answers serves them. */
    ghost predicate Offered(peers: seq<DeltaPeer>, ds: seq<Delta>, server: nat)
      requires blockHReply.Some? && currentStateBlock + |ds| == blockHReply.value.blockNumber
      reads this
    {
      ds == [] || ServesAt(peers, server, currentStateBlock + 1, blockHReply.value.blockNumber, ds)
    }

    /** Everything an attempt needs reaches it: a state to start from, the hash of the target, a
        peer with the chain between them, and the deltas. */
    ghost predicate Helpful(inputs: Inputs, w: World)
      reads this, stack
    {
      && Steady() && Located(inputs.pieces, w.at, w.kv)
      && FirstFresh(inputs.replies, w.reply, w.at, Some(w.target))
      && w.target.blockNumber == w.at + |w.deltas|
      && |w.deltas| <= maxStateDeltas && w.at + maxStateDeltas < TWO64
      && Available(inputs.blocks, w.target, w.at, w.chain) && !Blocked(w.target.blockNumber, w.at, w.chain)
      && w.chain[w.at].header.stateHash == StateOf(w.kv) && Names(w.chain, w.at + 1, w.kv, w.deltas)
      && (w.deltas == [] || ServesAt(inputs.deltas, w.server, w.at + 1, w.target.blockNumber, w.deltas))
    }

    /** attemptStateTransfer: whatever the peers send and whatever earlier attempts left
        behind, completion means that the stored block at the target has the advertised hash
        and that the committed state is the one this block names. With helpful inputs it completes. */
    method Attempt(inputs: Inputs, ghost w: World) returns (r: Result)
      requires Valid()
      modifies this, stack
      ensures r.Completed? ==> Transferred() && BlocksTrusted()
      ensures r.Completed? || r.Errored? ==> Valid()
      ensures old(Helpful(inputs, w) && (blockHReply.None? || blockHReply.value.blockNumber < w.at)) ==>
                r.Completed? && blockHReply == Some(w.target) && stack.kv == Played(w.kv, w.deltas, |w.deltas|)
    {
      ghost var helpful := Helpful(inputs, w) && (blockHReply.None? || blockHReply.value.blockNumber < w.at);
      var located := LocateState(inputs.pieces, w.at, w.kv);
      if !located {
        return Errored;
      }
      var ok := AwaitReply(inputs.replies);
      if !ok {
        return Interrupted;
      }
      var o := EnsureBlocks(inputs.blocks, w.chain);
      if o.Panicked? {
        return Crashed;
      } else if o.PeerFailed? {
        return Errored;
      }
      if helpful {
        NamesCarry(w.chain, stack.blocks, w.target.blockNumber, w.target.blockHash, w.at, w.kv, w.deltas);
        assert CanFinish(w.deltas);
      }
      o := FinishState(inputs.deltas, w.deltas, w.server);
      match o
      case Done => return Completed;
      case Panicked => return Crashed;
      case _ => return Errored;
    }

    /** stateThread: repeats attempts until one completes. However many failed before, a
        completed transfer has the advertised block and its state. */
    method Transfer(rounds: seq<Inputs>, ghost w: World) returns (r: Result)
      requires stateValid ==> stack.pending.None?
      modifies this, stack
      ensures r.Completed? ==> Transferred() && BlocksTrusted()
      ensures |rounds| > 0 && old(Helpful(rounds[0], w)) ==> r.Completed?
    {
      currentStateBlock, blockHReply, blocksValid := 0, None, false;
      r := Errored;
      var i := 0;
      while i < |rounds| && r.Errored?
        invariant 0 <= i <= |rounds|
        invariant r.Errored? ==> Valid()
        invariant r.Completed? ==> Transferred() && BlocksTrusted()
        invariant |rounds| > 0 && old(Helpful(rounds[0], w)) ==> if i == 0 then r.Errored? && Helpful(rounds[0], w) && blockHReply.None? else r.Completed?
      {
        r := Attempt(rounds[i], w);
        i := i + 1;
      }
    }
  }
}
