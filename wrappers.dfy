/** Shared helper types: optional values, results with a panic path, and the
    saturating numeric casts Rust's `as` performs on floats. */
module Wrappers {

  datatype Option<T> = None | Some(value: T)

  /** The outcome of Rust code that may panic (an `unwrap` on nothing, a
      `usize` subtraction below zero): either a value or the panic. */
  datatype Result<T> = Ok(value: T) | Panic(reason: string)

  /** Largest value of a 64-bit `usize`/`u64`. */
  const USIZE_MAX: nat := 0xFFFF_FFFF_FFFF_FFFF

  const I32_MIN: int := -0x8000_0000
  const I32_MAX: int := 0x7FFF_FFFF

  /** `x as usize` for an `f32` x: truncation toward zero, saturating at 0
      and at `usize::MAX`. */
  function AsUsize(x: real): (n: nat)
    ensures n <= USIZE_MAX
    ensures x < 1.0 ==> n == 0
    ensures 0.0 <= x < USIZE_MAX as real ==> n as real <= x < n as real + 1.0
  {
    if x <= 0.0 then 0
    else if x >= USIZE_MAX as real then USIZE_MAX
    else x.Floor
  }

  /** `x as i32` for an `f32` x: truncation toward zero, saturating at the
      bounds of `i32`. */
  function AsI32(x: real): (n: int)
    ensures I32_MIN <= n <= I32_MAX
    ensures I32_MIN as real <= x <= I32_MAX as real ==>
      (if x >= 0.0 then n as real <= x < n as real + 1.0 else n as real - 1.0 < x <= n as real)
  {
    if x <= I32_MIN as real then I32_MIN
    else if x >= I32_MAX as real then I32_MAX
    else if x >= 0.0 then x.Floor
    else -((-x).Floor)
  }

  /** `f32::clamp(x, lo, hi)`. */
  function Clamp(x: real, lo: real, hi: real): (r: real)
    requires lo <= hi
    ensures lo <= r <= hi
    ensures lo <= x <= hi ==> r == x
  {
    if x < lo then lo else if x > hi then hi else x
  }

  lemma MapUnionAssoc<K, V>(a: map<K, V>, b: map<K, V>, c: map<K, V>)
    ensures a + b + c == a + (b + c)
  {
  }
}
