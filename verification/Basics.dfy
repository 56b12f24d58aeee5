/**
 The unsigned 64-bit sizes of the C sources, the larger and the
 smaller of two numbers, and sequences in reverse.
 */
module Basics {
  /** One more than the largest size_t. */
  const SIZE_T: nat := 0x1_0000_0000_0000_0000

  type Size = n: nat | n < SIZE_T

  function Max(a: int, b: int): (m: int)
    ensures m >= a && m >= b && (m == a || m == b)
  {
    if a > b then a else b
  }

  function Min(a: int, b: int): (m: int)
    ensures m <= a && m <= b && (m == a || m == b)
  {
    if a < b then a else b
  }

  function Reversed<T>(s: seq<T>): (r: seq<T>)
    ensures |r| == |s|
  {
    if s == [] then [] else Reversed(s[1..]) + [s[0]]
  }
}
