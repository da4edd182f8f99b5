/** The byte encodings of database keys and index values. */
module LedgerEncoding {
  import opened Common
  import opened LedgerTypes

  // ---------------------------------------------------------------- uint64

  /** The k low bytes of n, most significant first (encodeUint64 with k = 8). */
  function BigEndian(n: nat, k: nat): (bs: seq<byte>)
    ensures |bs| == k
  {
    if k == 0 then [] else BigEndian(n / 256, k - 1) + [(n % 256) as byte]
  }

  function FromBigEndian(bs: seq<byte>): nat {
    if bs == [] then 0 else 256 * FromBigEndian(bs[..|bs| - 1]) + bs[|bs| - 1] as nat
  }

  function Pow256(k: nat): (p: nat)
    ensures p > 0
  {
    if k == 0 then 1 else 256 * Pow256(k - 1)
  }

  lemma {:induction false} BigEndianRoundTrip(n: nat, k: nat)
    requires n < Pow256(k)
    ensures FromBigEndian(BigEndian(n, k)) == n
  {
    if k > 0 {
      BigEndianRoundTrip(n / 256, k - 1);
      var bs := BigEndian(n, k);
      assert bs[..|bs| - 1] == BigEndian(n / 256, k - 1);
    }
  }

  lemma Pow256Of8()
    ensures Pow256(8) == TWO64
  {
    assert Pow256(4) == 0x1_0000_0000;
    assert Pow256(8) == 256 * (256 * (256 * (256 * Pow256(4))));
  }

  /** The number of bytes of a 64-bit number. */
  const WIDTH: nat := 8

  function EncodeUint64(n: uint64): (bs: seq<byte>)
    ensures |bs| == 8
  {
    BigEndian(n, WIDTH)
  }

  function DecodeToUint64(bs: seq<byte>): nat { FromBigEndian(bs) }

  lemma Uint64RoundTrip(n: uint64)
    ensures DecodeToUint64(EncodeUint64(n)) == n
  {
    Pow256Of8();
    BigEndianRoundTrip(n, 8);
  }

  // ---------------------------------------------------------------- varints

  /** proto.EncodeVarint. */
  function Varint(n: nat): (bs: seq<byte>)
    ensures |bs| > 0
  {
    if n < 128 then [n as byte] else [(n % 128 + 128) as byte] + Varint(n / 128)
  }

  /** A decoded number and the bytes after it. */
  datatype Decoded = Decoded(value: nat, rest: seq<byte>)

  /** proto.DecodeVarint on at most `left` bytes, before truncation to 64 bits. */
  function ReadVarint(bs: seq<byte>, left: nat): Option<Decoded> {
    if left == 0 || bs == [] then None
    else if bs[0] < 128 then Some(Decoded(bs[0] as nat, bs[1..]))
    else
      var r := ReadVarint(bs[1..], left - 1);
      if r.None? then None
      else Some(Decoded((bs[0] - 128) as nat + 128 * r.value.value, r.value.rest))
  }

  /** At most ten bytes make up a 64-bit number. */
  const MAX_VARINT: nat := 10

  function DecodeVarint(bs: seq<byte>): Option<Decoded> {
    var r := ReadVarint(bs, MAX_VARINT);
    if r.None? then None else Some(Decoded(Wrap(r.value.value), r.value.rest))
  }

  function Pow128(k: nat): (p: nat)
    ensures p > 0
  {
    if k == 0 then 1 else 128 * Pow128(k - 1)
  }

  lemma {:induction false} ReadVarintRoundTrip(n: nat, rest: seq<byte>, left: nat)
    requires left > 0 && n < Pow128(left)
    ensures ReadVarint(Varint(n) + rest, left) == Some(Decoded(n, rest))
  {
    var bs := Varint(n) + rest;
    if n < 128 {
      assert bs[1..] == rest;
    } else {
      assert Pow128(1) == 128;
      ReadVarintRoundTrip(n / 128, rest, left - 1);
      assert bs[1..] == Varint(n / 128) + rest;
    }
  }

  lemma Pow128Of10()
    ensures TWO64 <= Pow128(10)
  {
    assert Pow128(5) == 0x8_0000_0000;
    assert Pow128(10) == 128 * (128 * (128 * (128 * (128 * Pow128(5)))));
  }

  /** Decoding undoes encoding, whatever bytes follow. */
  lemma VarintRoundTrip(n: uint64, rest: seq<byte>)
    ensures DecodeVarint(Varint(n) + rest) == Some(Decoded(n, rest))
  {
    Pow128Of10();
    ReadVarintRoundTrip(n, rest, MAX_VARINT);
  }

  // ------------------------------------------------------------ index values

  /** decodeBlockNumber drops the error: bytes that do not decode, and a missing value, give 0. */
  function DecodeBlockNumber(bs: seq<byte>): nat {
    var r := DecodeVarint(bs);
    if r.None? then 0 else r.value.value
  }

  lemma BlockNumberRoundTrip(n: uint64)
    ensures DecodeBlockNumber(Varint(n)) == n
  {
    VarintRoundTrip(n, []);
    assert Varint(n) + [] == Varint(n);
  }

  function EncodeBlockNumTxIndex(blockNumber: nat, txIndex: nat): seq<byte> {
    Varint(blockNumber) + Varint(txIndex)
  }

  function DecodeBlockNumTxIndex(bs: seq<byte>): Option<(nat, nat)> {
    var b := DecodeVarint(bs);
    if b.None? then None
    else
      var i := DecodeVarint(b.value.rest);
      if i.None? then None else Some((b.value.value, i.value.value))
  }

  lemma BlockNumTxIndexRoundTrip(blockNumber: uint64, txIndex: uint64)
    ensures DecodeBlockNumTxIndex(EncodeBlockNumTxIndex(blockNumber, txIndex)) == Some((blockNumber, txIndex))
  {
    VarintRoundTrip(blockNumber, Varint(txIndex));
    VarintRoundTrip(txIndex, []);
    assert Varint(txIndex) + [] == Varint(txIndex);
  }

  // -------------------------------------------------------------------- keys

  function BlockHashKey(hash: seq<byte>): seq<byte> { [1] + hash }

  function TxUUIDKey(uuid: seq<byte>): seq<byte> { [2] + uuid }

  function AddressBlockNumKey(address: seq<byte>, blockNumber: nat): seq<byte> {
    [3] + (Varint(|address|) + address) + Varint(blockNumber)
  }

  /** Keys of different kinds never collide, and within a kind the key determines what it was made of. */
  lemma KeysApart(h: seq<byte>, h': seq<byte>, u: seq<byte>, u': seq<byte>, a: seq<byte>, n: nat)
    ensures BlockHashKey(h) != TxUUIDKey(u) && TxUUIDKey(u) != AddressBlockNumKey(a, n)
    ensures BlockHashKey(h) != AddressBlockNumKey(a, n)
    ensures BlockHashKey(h) == BlockHashKey(h') ==> h == h'
    ensures TxUUIDKey(u) == TxUUIDKey(u') ==> u == u'
  {
    assert BlockHashKey(h)[0] == 1 && TxUUIDKey(u)[0] == 2 && AddressBlockNumKey(a, n)[0] == 3;
    assert BlockHashKey(h)[1..] == h && BlockHashKey(h')[1..] == h';
    assert TxUUIDKey(u)[1..] == u && TxUUIDKey(u')[1..] == u';
  }

  /** The composite key determines both the address and the block number. */
  lemma AddressKeyInjective(a: seq<byte>, n: uint64, b: seq<byte>, m: uint64)
    requires |a| < TWO64 && |b| < TWO64 && AddressBlockNumKey(a, n) == AddressBlockNumKey(b, m)
    ensures a == b && n == m
  {
    var ka, kb := a + Varint(n), b + Varint(m);
    assert AddressBlockNumKey(a, n)[1..] == Varint(|a|) + ka;
    assert AddressBlockNumKey(b, m)[1..] == Varint(|b|) + kb;
    VarintRoundTrip(|a|, ka);
    VarintRoundTrip(|b|, kb);
    assert ka[..|a|] == a && kb[..|b|] == b && ka[|a|..] == Varint(n) && kb[|b|..] == Varint(m);
    BlockNumberRoundTrip(n);
    BlockNumberRoundTrip(m);
  }

  /** "blockCount" in ASCII. */
  const BLOCK_COUNT_KEY: seq<byte> := [98, 108, 111, 99, 107, 67, 111, 117, 110, 116]

  /** Block keys are apart from each other and from the count. */
  lemma BlockKeysApart(n: uint64, m: uint64)
    ensures EncodeUint64(n) != BLOCK_COUNT_KEY
    ensures EncodeUint64(n) == EncodeUint64(m) ==> n == m
  {
    Uint64RoundTrip(n);
    Uint64RoundTrip(m);
    assert |EncodeUint64(n)| == 8 && |BLOCK_COUNT_KEY| == 10;
  }
}
