/** Blocks, states and their hashes. */
module LedgerTypes {
  import opened Common

  newtype byte = x: int | 0 <= x < 256

  datatype Transaction = Transaction(uuid: seq<byte>, payload: string)

  type KV = map<string, string>

  /** An ideal state hash: no two states share one. */
  datatype StateHash = StateOf(kv: KV) | OtherState(text: string)

  /** An ideal block hash over what a block hashes; `Bytes` is anything else found in a
      hash field, and `Bytes("")` is the missing hash. */
  datatype Hash = HashOf(header: Header) | Bytes(text: string)

  /** The hashed part of a block. */
  datatype Header = Header(transactions: seq<Transaction>, metadata: string, previousBlockHash: Hash, stateHash: StateHash)

  datatype Block = Block(header: Header, nonHashData: string) {
    function GetHash(): Hash { HashOf(header) }
  }

  const NO_HASH := Bytes("")

  /** A state delta sets or deletes keys. */
  type Delta = map<string, Option<string>>

  function Overlay(kv: KV, d: Delta): KV {
    map k | k in kv.Keys + d.Keys && (k in d ==> d[k].Some?) :: if k in d then d[k].value else kv[k]
  }
}
