/** The Stark field, the fixed-width integers the client uses, and the usual result types. */
module Field {
  /** The felt252 prime, 2^251 + 17 * 2^192 + 1. */
  const P: nat := 0x800000000000011000000000000000000000000000000000000000000000001
  const TWO_127: int := 0x80000000000000000000000000000000
  const TWO_128: nat := 0x100000000000000000000000000000000
  const TWO_120: nat := 0x1000000000000000000000000000000
  const TWO_32: nat := 0x1_0000_0000
  const TWO_64: nat := 0x1_0000_0000_0000_0000

  type Felt = x: nat | x < P
  type U128 = x: nat | x < TWO_128
  type I128 = x: int | -TWO_127 <= x < TWO_127
  type U32 = x: nat | x < TWO_32
  type U64 = x: nat | x < TWO_64

  datatype Option<+T> = None | Some(value: T)

  datatype Result<+T, +E> = Ok(value: T) | Err(error: E)

  function Add(a: Felt, b: Felt): Felt {
    (a + b) % P
  }

  function Sub(a: Felt, b: Felt): Felt {
    (a - b) % P
  }

  /** Subtraction undoes addition whatever wrap-around either made. */
  lemma SubUndoesAdd(a: Felt, b: Felt)
    ensures Sub(Add(a, b), b) == a
  {
    if a + b < P {
      assert Add(a, b) == a + b;
    } else {
      assert Add(a, b) == a + b - P;
    }
  }
}
