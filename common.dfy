/** Shared vocabulary: Go's fixed-width integers, nil-able values, errors and
    the three ways a Go call can end (a value, an error return, a panic). */
module Common {

  /** Go's `uint32`. */
  type uint32 = x: int | 0 <= x < 0x1_0000_0000

  /** A value that Go may leave `nil`. */
  datatype Option<+T> = None | Some(value: T)

  /** A Go `error`: only its text is observable to the crawler. */
  datatype Error = Error(text: string)

  /** Outcome of a Go call: a result, an `error` return, or a runtime panic. */
  datatype Result<+T> = Ok(value: T) | Err(error: Error) | Panic(reason: string)

  /** `x + 1` on `uint32`, which wraps around at 2^32. */
  function Uint32Succ(x: uint32): (r: uint32)
    ensures x < 0xFFFF_FFFF ==> r == x + 1
    ensures x == 0xFFFF_FFFF ==> r == 0
  {
    (x + 1) % 0x1_0000_0000
  }
}
