/**
 * Timestamp arithmetic shared by the Windows user-mode and POSIX headers:
 * the 32-bit difference that survives counter wrap-around, the 64-bit one
 * that assumes no wrap, the "at or before" orderings, and the Windows
 * conversion between performance-counter ticks and microseconds, which
 * splits the multiply-and-divide into high and low 32-bit halves.
 */
module Time {
  import opened Ints

  const MICROSEC_PER_SEC: int := 1000000

  /** `CxPlatTimeDiff32`: `T2 - T1`, or `T2 + (0xFFFFFFFF - T1) + 1` in 32-bit arithmetic. */
  function Diff32(t1: uint32, t2: uint32): (r: uint32)
    ensures r == (t2 - t1) % 0x1_0000_0000
    ensures t2 > t1 ==> r == t2 - t1
    ensures t1 == t2 ==> r == 0
  {
    if t2 > t1 then t2 - t1 else Wrap32(Wrap32(t2 + (0xFFFF_FFFF - t1)) + 1)
  }

  /** `CxPlatTimeDiff64`: `T2 - T1` in 64-bit arithmetic (no wrap-around assumed). */
  function Diff64(t1: uint64, t2: uint64): (r: uint64)
    ensures t1 <= t2 ==> r == t2 - t1
    ensures t1 > t2 ==> r == 0x1_0000_0000_0000_0000 - (t1 - t2)
  {
    Wrap64(t2 - t1)
  }

  /** `CxPlatTimeAtOrBefore64`: `T1 <= T2` (no wrap-around assumed). */
  function AtOrBefore64(t1: uint64, t2: uint64): (b: bool)
    ensures b <==> Diff64(t1, t2) == t2 - t1
  {
    t1 <= t2
  }

  /** `CxPlatTimeAtOrBefore32`: `(int32_t)(T1 - T2) <= 0`. */
  function AtOrBefore32(t1: uint32, t2: uint32): (b: bool)
    ensures b <==> Diff32(t1, t2) <= 0x8000_0000
  {
    ToInt32(Wrap32(t1 - t2)) <= 0
  }

  /** Reflexivity: a timestamp is at or before itself, in both widths. */
  lemma AtOrBeforeReflexive(t: uint32, u: uint64)
    ensures AtOrBefore32(t, t) && AtOrBefore64(u, u)
  {
  }

  /**
   * The range within which the 32-bit ordering is the true ordering: when
   * `t2` lies `d` ticks after `t1` (counting across the wrap), `t1` is at or
   * before `t2` if `d` is at most half the counter range, and `t2` is then
   * strictly after `t1` unless `d` is 0 or exactly half the range.
   */
  lemma AtOrBefore32HalfRange(t1: uint32, d: nat)
    requires d <= 0x8000_0000
    ensures AtOrBefore32(t1, Wrap32(t1 + d))
    ensures 0 < d < 0x8000_0000 ==> !AtOrBefore32(Wrap32(t1 + d), t1)
  {
  }

  /** The wrap-around examples: 32 ticks across the wrap, and 100 ticks without wrap. */
  lemma Diff32Examples()
    ensures Diff32(0xFFFF_FFF0, 0x0000_0010) == 0x20
    ensures Diff32(100, 200) == 100
    ensures Diff32(200, 100) == 0x1_0000_0000 - 100
  {
  }

  /**
   * The computation shared by `CxPlatTimePlatToUs64` and `CxPlatTimeUs64ToPlat`:
   *   High = (x >> 32) * mul;  Low = (x & 0xFFFFFFFF) * mul;
   *   ((High / div) << 32) + ((Low + ((High % div) << 32)) / lowDiv)
   * with every operation in 64-bit unsigned arithmetic.
   */
  function MulDivSplit(x: uint64, mul: uint64, div: uint64, lowDiv: uint64): (r: uint64)
    requires div > 0 && lowDiv > 0
    ensures lowDiv == div && SplitFits(x, mul, div) ==> r == (x * mul) / div
  {
    if lowDiv == div && SplitFits(x, mul, div) then
      MulDivSplitExact(x, mul, div);
      SplitExpr(x, mul, div, lowDiv)
    else SplitExpr(x, mul, div, lowDiv)
  }

  /** The expression itself, every operation wrapped to 64 bits. */
  function SplitExpr(x: uint64, mul: uint64, div: uint64, lowDiv: uint64): uint64
    requires div > 0 && lowDiv > 0
  {
    var high := Wrap64((x / 0x1_0000_0000) * mul);
    var low := Wrap64((x % 0x1_0000_0000) * mul);
    Wrap64(Wrap64((high / div) * 0x1_0000_0000) + Wrap64(low + Wrap64((high % div) * 0x1_0000_0000)) / lowDiv)
  }

  /** No intermediate of `MulDivSplit(x, mul, div, div)` exceeds 64 bits. */
  predicate SplitFits(x: uint64, mul: uint64, div: uint64)
    requires div > 0
  {
    var high := (x / 0x1_0000_0000) * mul;
    var low := (x % 0x1_0000_0000) * mul;
    && high < 0x1_0000_0000_0000_0000
    && low < 0x1_0000_0000_0000_0000
    && (high % div) * 0x1_0000_0000 + low < 0x1_0000_0000_0000_0000
    && (high / div) * 0x1_0000_0000 + ((high % div) * 0x1_0000_0000 + low) / div < 0x1_0000_0000_0000_0000
  }

  /**
   * When nothing overflows, splitting into halves loses nothing: the
   * expression of `MulDivSplit(x, mul, div, div)` is exactly
   * `floor(x * mul / div)`.
   */
  lemma MulDivSplitExact(x: uint64, mul: uint64, div: uint64)
    requires div > 0
    requires SplitFits(x, mul, div)
    ensures SplitExpr(x, mul, div, div) == (x * mul) / div
  {
    var high, low := (x / 0x1_0000_0000) * mul, (x % 0x1_0000_0000) * mul;
    var q, r := high / div, high % div;
    var s := (r * 0x1_0000_0000 + low) / div;
    assert fits: high < 0x1_0000_0000_0000_0000 && low < 0x1_0000_0000_0000_0000
      && r * 0x1_0000_0000 + low < 0x1_0000_0000_0000_0000
      && q * 0x1_0000_0000 + s < 0x1_0000_0000_0000_0000;
    MulNonNegative(x / 0x1_0000_0000, mul);
    MulNonNegative(x % 0x1_0000_0000, mul);
    MulNonNegative(r, 0x1_0000_0000);
    DivNonNegative(high, div);
    MulNonNegative(q, 0x1_0000_0000);
    DivNonNegative(r * 0x1_0000_0000 + low, div);
    WrapId(high);
    WrapId(low);
    WrapId(r * 0x1_0000_0000);
    WrapId(low + r * 0x1_0000_0000);
    WrapId(q * 0x1_0000_0000);
    WrapId(q * 0x1_0000_0000 + s);
    MulDivSplitParts(x, mul, div);
  }

  lemma DivNonNegative(a: int, d: int)
    requires a >= 0 && d > 0
    ensures a / d >= 0
  {
    assert a == d * (a / d) + a % d;
    MulSignBounds(d, a / d);
  }

  lemma WrapId(a: int)
    requires 0 <= a < 0x1_0000_0000_0000_0000
    ensures Wrap64(a) == a
  {
  }

  /**
   * `CxPlatTimePlatToUs64`: performance-counter ticks at `perfFreq` ticks per
   * second to microseconds. The result is `floor(count * 1000000 / perfFreq)`
   * whenever no intermediate overflows, and so for every count at every
   * frequency from 1 MHz to `2^32 - 10^6` Hz.
   */
  function PlatToUs64(count: uint64, perfFreq: uint64): (us: uint64)
    requires perfFreq > 0
    ensures SplitFits(count, MICROSEC_PER_SEC, perfFreq) ==> us == (count * MICROSEC_PER_SEC) / perfFreq
    ensures MICROSEC_PER_SEC <= perfFreq <= 0x1_0000_0000 - MICROSEC_PER_SEC ==> us == (count * MICROSEC_PER_SEC) / perfFreq
  {
    if MICROSEC_PER_SEC <= perfFreq <= 0x1_0000_0000 - MICROSEC_PER_SEC then
      UsualFrequenciesFit(count, perfFreq);
      MulDivSplit(count, MICROSEC_PER_SEC, perfFreq, perfFreq)
    else MulDivSplit(count, MICROSEC_PER_SEC, perfFreq, perfFreq)
  }

  /**
   * For every counter frequency from 1 MHz to `2^32 - 10^6` Hz (the usual
   * Windows frequency is 10 MHz) no intermediate overflows, whatever the count.
   */
  lemma UsualFrequenciesFit(count: uint64, perfFreq: uint64)
    requires MICROSEC_PER_SEC <= perfFreq <= 0x1_0000_0000 - MICROSEC_PER_SEC
    ensures SplitFits(count, MICROSEC_PER_SEC, perfFreq)
  {
    var h, l := count / 0x1_0000_0000, count % 0x1_0000_0000;
    var high, low := h * MICROSEC_PER_SEC, l * MICROSEC_PER_SEC;
    var r := high % perfFreq;
    assert h < 0x1_0000_0000 && l < 0x1_0000_0000;
    assert high < 0x1_0000_0000 * MICROSEC_PER_SEC;
    assert low < 0x1_0000_0000 * MICROSEC_PER_SEC;
    assert r * 0x1_0000_0000 + low < 0x1_0000_0000_0000_0000 by {
      assert r <= perfFreq - 1;
      assert r * 0x1_0000_0000 <= (perfFreq - 1) * 0x1_0000_0000;
      assert (perfFreq - 1) * 0x1_0000_0000 + 0x1_0000_0000 * MICROSEC_PER_SEC == (perfFreq - 1 + MICROSEC_PER_SEC) * 0x1_0000_0000;
      assert (perfFreq - 1 + MICROSEC_PER_SEC) * 0x1_0000_0000 < 0x1_0000_0000 * 0x1_0000_0000;
    }
    assert (high / perfFreq) * 0x1_0000_0000 + (r * 0x1_0000_0000 + low) / perfFreq < 0x1_0000_0000_0000_0000 by {
      MulDivSplitParts(count, MICROSEC_PER_SEC, perfFreq);
      assert (count * MICROSEC_PER_SEC) / perfFreq <= count by {
        MulMonotone(count, MICROSEC_PER_SEC, perfFreq);
        DivMonotone(count * MICROSEC_PER_SEC, count * perfFreq, perfFreq);
        DivByParts(perfFreq, count, 0);
      }
    }
  }

  lemma SplitProduct(x: uint64, mul: uint64)
    ensures x * mul == ((x / 0x1_0000_0000) * mul) * 0x1_0000_0000 + (x % 0x1_0000_0000) * mul
  {
    var h, l := x / 0x1_0000_0000, x % 0x1_0000_0000;
    assert x == h * 0x1_0000_0000 + l;
    assert x * mul == (h * 0x1_0000_0000 + l) * mul;
    assert (h * 0x1_0000_0000 + l) * mul == (h * mul) * 0x1_0000_0000 + l * mul;
  }

  /** The exact quotient decomposes along the halves (no width bounds involved). */
  lemma MulDivSplitParts(x: uint64, mul: uint64, div: uint64)
    requires div > 0
    ensures var high := (x / 0x1_0000_0000) * mul; var low := (x % 0x1_0000_0000) * mul;
      (high / div) * 0x1_0000_0000 + ((high % div) * 0x1_0000_0000 + low) / div == (x * mul) / div
  {
    var high, low := (x / 0x1_0000_0000) * mul, (x % 0x1_0000_0000) * mul;
    var q, r := high / div, high % div;
    var s, rem := (r * 0x1_0000_0000 + low) / div, (r * 0x1_0000_0000 + low) % div;
    SplitProduct(x, mul);
    assert high == div * q + r;
    assert r * 0x1_0000_0000 + low == div * s + rem;
    assert high * 0x1_0000_0000 == div * (q * 0x1_0000_0000) + r * 0x1_0000_0000 by {
      assert high * 0x1_0000_0000 == (div * q + r) * 0x1_0000_0000;
    }
    assert x * mul == div * (q * 0x1_0000_0000 + s) + rem by {
      assert div * (q * 0x1_0000_0000 + s) == div * (q * 0x1_0000_0000) + div * s;
    }
    DivByParts(div, q * 0x1_0000_0000 + s, rem);
  }

  lemma DivMonotone(a: int, b: int, d: int)
    requires 0 <= a <= b && d > 0
    ensures a / d <= b / d
  {
    var qa, qb := a / d, b / d;
    assert a == d * qa + a % d && b == d * qb + b % d;
    assert d * (qa - qb) == d * qa - d * qb;
    MulSignBounds(d, qa - qb);
  }

  /**
   * `CxPlatTimeUs64ToPlat` as written: the high half is divided by 1000000 but
   * the low half by `perfFreq`.
   */
  function UsToPlatAsWritten(timeUs: uint64, perfFreq: uint64): uint64
    requires perfFreq > 0
  {
    MulDivSplit(timeUs, perfFreq, MICROSEC_PER_SEC, perfFreq)
  }

  /** At the usual 10 MHz counter frequency, one microsecond converts to 1 tick instead of 10. */
  lemma UsToPlatAsWrittenLosesScale()
    ensures UsToPlatAsWritten(1, 10000000) == 1
    ensures (1 * 10000000) / MICROSEC_PER_SEC == 10
  {
    assert Wrap64((1 / 0x1_0000_0000) * 10000000) == 0;
    assert Wrap64((1 % 0x1_0000_0000) * 10000000) == 10000000;
  }

  /**
   * `CxPlatTimeUs64ToPlat` with both halves divided by 1000000: the result
   * is exactly `floor(timeUs * perfFreq / 1000000)` whenever no
   * intermediate overflows.
   */
  function UsToPlat(timeUs: uint64, perfFreq: uint64): (ticks: uint64)
    requires perfFreq > 0
    ensures SplitFits(timeUs, perfFreq, MICROSEC_PER_SEC) ==> ticks == (timeUs * perfFreq) / MICROSEC_PER_SEC
  {
    MulDivSplit(timeUs, perfFreq, MICROSEC_PER_SEC, MICROSEC_PER_SEC)
  }
}
