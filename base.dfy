/** Rust's primitive integer widths, Option and Result. */
module Base {

  type u16 = x: int | 0 <= x < 0x1_0000
  type u32 = x: int | 0 <= x < 0x1_0000_0000

  const U32_MODULUS := 0x1_0000_0000

  /** Rust's `n as u32` for a non-negative n: the low 32 bits. */
  function AsU32(n: nat): (r: u32)
    ensures n < U32_MODULUS ==> r == n
  {
    n % U32_MODULUS
  }

  datatype Option<+T> = None | Some(value: T) {
    function GetOr(default: T): T {
      match this
      case Some(v) => v
      case None => default
    }
  }

  datatype Result<+T, +E> = Ok(value: T) | Err(error: E)

  /** `iter().map(f).collect()`: f applied to every element, in order. */
  function Map<A, B>(f: A -> B, s: seq<A>): (r: seq<B>)
    ensures |r| == |s|
    ensures forall i :: 0 <= i < |s| ==> r[i] == f(s[i])
  {
    seq(|s|, i requires 0 <= i < |s| => f(s[i]))
  }
}
