/**
 Fixed-width unsigned integers of the Rust source, as subset types of `int`,
 and the 64-bit `usize` arithmetic of the audio frame counts.
 The target is taken to be 64-bit, so `usize` and `u64` have the same range.
 */
module Ints {

  const U64_MODULUS: nat := 0x1_0000_0000_0000_0000
  const USIZE_MODULUS: nat := U64_MODULUS

  type U8 = x: int | 0 <= x < 0x100
  type U16 = x: int | 0 <= x < 0x1_0000
  type U32 = x: int | 0 <= x < 0x1_0000_0000
  type U64 = x: int | 0 <= x < 0x1_0000_0000_0000_0000
  type Usize = U64

  /** `x as usize` for a wider unsigned `x`: keeps the low 64 bits. */
  function AsUsize(x: nat): (r: Usize)
    ensures x < USIZE_MODULUS ==> r == x
  {
    ModBelow(x, USIZE_MODULUS);
    x % USIZE_MODULUS
  }

  /** `a * b` on `usize` as a release build computes it: modulo 2^64. */
  function WrappingMul(a: Usize, b: Usize): (r: Usize)
    ensures a * b < USIZE_MODULUS ==> r == a * b
  {
    var p := a * b;
    ModBelow(p, USIZE_MODULUS);
    p % USIZE_MODULUS
  }

  lemma ModBelow(x: nat, m: nat)
    requires m > 0
    ensures x < m ==> x % m == x
  {
  }

  lemma MulLeftMonotone(a: nat, b: nat, c: nat)
    requires b <= c
    ensures a * b <= a * c
  {
  }

  lemma MulAddDistrib(a: nat, b: nat, c: nat)
    ensures a * (b + c) == a * b + a * c
  {
  }

  lemma MulAtLeast(x: int, c: int)
    requires x >= 1 && c > 0
    ensures x * c >= c
  {
  }

  lemma MulAtMost(x: int, c: int)
    requires x <= -1 && c > 0
    ensures x * c <= -c
  {
  }

  lemma MulSubDistrib(k: int, q: int, c: int)
    ensures (k - q) * c == k * c - q * c
  {
  }

  /** The remainder is the one `r` with `x == d * m + r` and `0 <= r < m`. */
  lemma ModUnique(x: int, d: int, r: int, m: int)
    requires m > 0 && 0 <= r < m
    requires x == d * m + r
    ensures x % m == r
  {
    var q, s := x / m, x % m;
    assert x == q * m + s;
    MulSubDistrib(d, q, m);
    assert (d - q) * m == s - r;
    if d - q >= 1 {
      MulAtLeast(d - q, m);
    } else if d - q <= -1 {
      MulAtMost(d - q, m);
    }
  }

  /** Reducing a factor modulo `m` first does not change the product modulo `m`. */
  lemma MulModRight(a: nat, b: nat, m: nat)
    requires m > 0
    ensures (a * (b % m)) % m == (a * b) % m
  {
    var q, r := b / m, b % m;
    var t := a * r;
    var tq, tr := t / m, t % m;
    assert b == q * m + r;
    MulAddDistrib(a, q * m, r);
    assert a * (q * m) == (a * q) * m;
    assert t == tq * m + tr;
    assert a * b == (a * q + tq) * m + tr;
    ModUnique(a * b, a * q + tq, tr, m);
  }

  /** A multiple of `c` leaves no remainder on division by `c`. */
  lemma MultipleMod(k: nat, c: nat)
    requires c > 0
    ensures (k * c) % c == 0
  {
    ModUnique(k * c, k, 0, c);
  }
}
