/** Types shared by every component: optional and fallible results, and the
    fixed-width integers of the source, written as ranges of `int`. With a few facts about
    sequences. */
module Prelude {
  datatype Option<+T> = None | Some(value: T)

  datatype Result<+T, +E> = Ok(value: T) | Err(error: E)

  const TWO_31 := 0x8000_0000
  const TWO_32 := 0x1_0000_0000
  const TWO_63 := 0x8000_0000_0000_0000
  const TWO_64 := 0x1_0000_0000_0000_0000

  type byte = x: int | 0 <= x < 256
  type u32 = x: int | 0 <= x < TWO_32
  type i32 = x: int | -TWO_31 <= x < TWO_31
  type u64 = x: int | 0 <= x < TWO_64
  type i64 = x: int | -TWO_63 <= x < TWO_63

  /** `x as i64` for an unsigned 64-bit `x`: the two's-complement reading. */
  function ToI64(x: u64): i64 {
    if x < TWO_63 then x else x - TWO_64
  }

  /** `x as i32` for an unsigned 32-bit `x`. */
  function ToI32(x: u32): i32 {
    if x < TWO_31 then x else x - TWO_32
  }

  /** The unsigned reading of a 32-bit `x`: the inverse of `ToI32`. */
  function ToU32(x: i32): (r: u32)
    ensures ToI32(r) == x
  {
    if x < 0 then x + TWO_32 else x
  }

  /** The signed readings are the values of their types with the same bits. */
  lemma SignedReadings(x: u64, y: u32)
    ensures (x - ToI64(x)) % TWO_64 == 0 && (y - ToI32(y)) % TWO_32 == 0
  {
  }

  /** `i64::saturating_sub` for a non-negative subtrahend. */
  function SaturatingSub(x: i64, y: nat): i64 {
    if x - y < -TWO_63 then -TWO_63 else x - y
  }

  // ----- Sequences -----

  lemma JoinLast<T>(xs: seq<T>, ys: seq<T>, n: nat)
    requires |ys| == n + 1
    ensures (xs + ys)[..|xs| + n] == xs + ys[..n] && (xs + ys)[|xs| + n] == ys[n]
  {
  }

  lemma JoinMore<T>(xs: seq<T>, ys: seq<T>, y: T)
    ensures xs + (ys + [y]) == (xs + ys) + [y]
  {
  }

  lemma JoinNothing<T>(xs: seq<T>)
    ensures xs + [] == xs
  {
  }

  lemma SliceTwice<T>(xs: seq<T>, m: nat, n: nat)
    requires n <= m <= |xs|
    ensures xs[..m][..n] == xs[..n]
  {
  }
}
