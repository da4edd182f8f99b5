/** What every part of the model uses. */
module Common {

  datatype Option<+T> = None | Some(value: T)

  const TWO64: int := 0x1_0000_0000_0000_0000

  type uint64 = x: int | 0 <= x < TWO64

  /** Go's unsigned arithmetic. */
  function Wrap(x: int): uint64 { x % TWO64 }

  lemma WrapSmall(x: uint64)
    ensures Wrap(x) == x
  {
  }
}
