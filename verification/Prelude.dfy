/** Small shared vocabulary: optional values, call outcomes, and integer time. */
module Prelude {

  /** Instants and durations in nanoseconds; only order and addition matter. */
  type Time = int

  datatype Option<+T> = None | Some(value: T)

  /** What a Go call returning `(T, error)` hands back; error texts are enumerated. */
  datatype Outcome<+T, +E> = Ok(value: T) | Err(error: E)

  newtype int64 = x: int | -0x8000_0000_0000_0000 <= x < 0x8000_0000_0000_0000
  newtype uint64 = x: int | 0 <= x < 0x1_0000_0000_0000_0000

  const MAX_INT64: int := 0x7FFF_FFFF_FFFF_FFFF

  /** What a 64-bit two's-complement operation leaves of an exact result. */
  function Wrap(x: int): (r: int)
    ensures -MAX_INT64 - 1 <= r <= MAX_INT64 && (-MAX_INT64 - 1 <= x <= MAX_INT64 ==> r == x)
  {
    (x + MAX_INT64 + 1) % (2 * (MAX_INT64 + 1)) - (MAX_INT64 + 1)
  }

  function Min(a: int, b: int): int {
    if a <= b then a else b
  }
}
