/** Result types shared by the whole model. */
module Prelude {

  datatype Option<+T> = None | Some(value: T)

  /** A Go `(value, error)` pair; error texts are not modelled. */
  datatype Result<+T> = Ok(value: T) | Err

  /** One second, in the nanoseconds Go's clock counts. */
  const SECOND: int := 1_000_000_000

  /** The largest value of Go's int and int64. */
  const MAX_INT64: int := 0x7FFF_FFFF_FFFF_FFFF

  const TWO_64: int := 0x1_0000_0000_0000_0000

  /** Two's-complement wrap-around of a 64-bit addition. */
  function Wrap64(n: int): (r: int)
    ensures -MAX_INT64 - 1 <= r <= MAX_INT64
    ensures (r - n) % TWO_64 == 0
  {
    var m := n % TWO_64;
    if m <= MAX_INT64 then m else m - TWO_64
  }

  /** Wrapping at every addition gives the wrapped sum. */
  lemma Wrap64Adds(sum: int, n: int)
    ensures Wrap64(Wrap64(sum) + n) == Wrap64(sum + n)
  {
  }
}
