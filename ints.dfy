/**
 * Fixed-width integer types of the C sources, as subsets of `int`, and the
 * C operators whose meaning differs from Dafny's: unsigned wrap-around,
 * the two's-complement reading of a 32-bit value, and division and
 * remainder that truncate toward zero.
 */
module Ints {

  const TWO_8: int := 0x100
  const TWO_16: int := 0x1_0000
  const TWO_31: int := 0x8000_0000
  const TWO_32: int := 0x1_0000_0000
  const TWO_63: int := 0x8000_0000_0000_0000
  const TWO_64: int := 0x1_0000_0000_0000_0000

  const UINT16_MAX: int := 0xFFFF
  const UINT32_MAX: int := 0xFFFF_FFFF
  /** `(ULONG)(-1)`, the largest 32-bit unsigned value. */
  const ULONG_MAX: int := 0xFFFF_FFFF
  /** `SIZE_MAX` of a 64-bit `size_t`. */
  const SIZE_MAX: int := 0xFFFF_FFFF_FFFF_FFFF

  type uint8 = x: int | 0 <= x < TWO_8
  type uint16 = x: int | 0 <= x < TWO_16
  type uint32 = x: int | 0 <= x < TWO_32
  type uint64 = x: int | 0 <= x < TWO_64
  type size_t = x: int | 0 <= x < TWO_64
  type int32 = x: int | -TWO_31 <= x < TWO_31
  type int64 = x: int | -TWO_63 <= x < TWO_63

  /** The value a 32-bit unsigned C expression holds when the exact value is `x`. */
  function Wrap32(x: int): uint32 {
    x % TWO_32
  }

  /** The value a 64-bit unsigned C expression holds when the exact value is `x`. */
  function Wrap64(x: int): uint64 {
    x % TWO_64
  }

  /** `(int32_t)x` for a 32-bit unsigned `x` (two's complement). */
  function ToInt32(x: uint32): int32 {
    if x < TWO_31 then x else x - TWO_32
  }

  /** `(uint32_t)x` for a signed `x`. */
  function ToUint32(x: int): uint32 {
    Wrap32(x)
  }

  /**
   * The width of a C `long`: 32 bits on Windows (LLP64), 64 bits on the
   * 64-bit POSIX targets (LP64).
   */
  datatype LongWidth = Long32 | Long64

  function LongMin(w: LongWidth): int {
    if w.Long32? then -TWO_31 else -TWO_63
  }

  function LongMax(w: LongWidth): int {
    if w.Long32? then TWO_31 - 1 else TWO_63 - 1
  }

  predicate InLong(w: LongWidth, x: int) {
    LongMin(w) <= x <= LongMax(w)
  }

  /** The value a `long` holds when the exact two's-complement result is `x`. */
  function WrapLong(w: LongWidth, x: int): (r: int)
    ensures InLong(w, r)
    ensures InLong(w, x) ==> r == x
  {
    if w.Long32? then (x + TWO_31) % TWO_32 - TWO_31
    else (x + TWO_63) % TWO_64 - TWO_63
  }

  /** Wrapping an intermediate result does not change what a later wrap gives. */
  lemma WrapLongAdd(w: LongWidth, x: int, k: int)
    ensures WrapLong(w, WrapLong(w, x) + k) == WrapLong(w, x + k)
  {
    var m, h := if w.Long32? then TWO_32 else TWO_64, if w.Long32? then TWO_31 else TWO_63;
    var a := x + h;
    assert a == (a / m) * m + a % m;
    assert a + k == (a / m) * m + (a % m + k);
    ModAddMultiple(a / m, m, a % m + k);
  }

  lemma ModAddMultiple(q: int, m: int, y: int)
    requires m > 0
    ensures (q * m + y) % m == y % m
  {
    var r := y % m;
    assert y == (y / m) * m + r;
    assert q * m + y == (q + y / m) * m + r;
    DivByUnique(q * m + y, m, q + y / m, r);
  }

  /** The Euclidean quotient and remainder are the only pair with `a == q * m + r` and `0 <= r < m`. */
  lemma DivByUnique(a: int, m: int, q: int, r: int)
    requires m > 0 && 0 <= r < m && a == q * m + r
    ensures a % m == r
  {
    var q', r' := a / m, a % m;
    assert m * (q - q') == r' - r by {
      assert m * (q - q') == m * q - m * q';
    }
    MulZero(m, q - q');
  }

  lemma MulAtLeast(f: int, d: int)
    requires f > 0 && d >= 1
    ensures f * d >= f
  {
    assert f * d == f + f * (d - 1);
    if d > 1 {
      MulAtLeast(f, d - 1);
    }
  }

  lemma MulNonNegative(a: int, b: int)
    requires a >= 0 && b >= 0
    ensures a * b >= 0
  {
    if a > 0 && b > 0 {
      MulAtLeast(a, b);
    }
  }

  lemma MulMonotone(a: int, b: int, c: int)
    requires a >= 0 && b <= c
    ensures a * b <= a * c
  {
    assert a * c - a * b == a * (c - b);
    MulNonNegative(a, c - b);
  }

  lemma MulSignBounds(f: int, d: int)
    requires f > 0
    ensures d >= 1 ==> f * d >= f
    ensures d <= -1 ==> f * d <= -f
  {
    if d >= 1 {
      MulAtLeast(f, d);
    } else if d <= -1 {
      assert f * -d == -(f * d);
      MulAtLeast(f, -d);
    }
  }

  lemma MulZero(f: int, d: int)
    requires f > 0 && -f < f * d < f
    ensures d == 0
  {
    MulSignBounds(f, d);
  }

  lemma DivByParts(f: int, k: int, m: int)
    requires f > 0 && 0 <= m < f
    ensures (f * k + m) / f == k
  {
    var x := f * k + m;
    var q, r := x / f, x % f;
    assert x == f * q + r;
    assert f * (k - q) == r - m by {
      assert f * (k - q) == f * k - f * q;
    }
    MulZero(f, k - q);
  }

  /** C's `a / b`: the quotient truncated toward zero. */
  function CDiv(a: int, b: int): int
    requires b != 0
  {
    if (a >= 0) == (b > 0) then Abs(a) / Abs(b) else -(Abs(a) / Abs(b))
  }

  /** C's `a % b`: the remainder that takes the sign of `a`. */
  function CRem(a: int, b: int): int
    requires b != 0
  {
    a - CDiv(a, b) * b
  }

  function Abs(x: int): nat {
    if x < 0 then -x else x
  }

  function Max(a: int, b: int): int {
    if a < b then b else a
  }

  function Min(a: int, b: int): int {
    if a < b then a else b
  }
}
