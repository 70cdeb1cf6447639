/**
 * The debug allocation-failure injection shared by the POSIX and Windows
 * user-mode allocators. A denominator `D` and a counter decide, before each
 * allocation, whether to fail it on purpose:
 *   - `D == 0`: never;
 *   - `D > 0`: when the random draw satisfies `Rand % D == 1`
 *     (about one allocation in `D`);
 *   - `D < 0`: the counter is incremented first, and the allocation fails
 *     when the new counter value is a multiple of `D` (every `|D|`-th one).
 * The counter is a C `long`, incremented with wrap-around: 32 bits on
 * Windows, 64 bits on the 64-bit POSIX targets. The random draw is an input.
 */
module FaultInjection {
  import opened Ints

  /** Whether to fail this allocation, and the counter afterwards. */
  datatype Decision = Decision(fail: bool, counter: int)

  /**
   * The condition tested by `CxPlatAlloc` under `DEBUG`. The two disjuncts
   * short-circuit: the counter moves only when `D < 0`, and then by the
   * wrapping `InterlockedIncrement` of a `long` of width `w`. When `D = -1`
   * and the increment wraps to `LONG_MIN`, C's `LONG_MIN % -1` is undefined
   * and traps on x86; here `CRem` gives 0, an injected failure.
   */
  function Decide(w: LongWidth, d: int32, counter: int, rand: uint32): (r: Decision)
    requires InLong(w, counter)
    ensures InLong(w, r.counter)
    ensures d == 0 ==> !r.fail && r.counter == counter
    ensures d > 0 ==> r.counter == counter && (r.fail <==> rand % d == 1)
    ensures d < 0 ==> r.counter == WrapLong(w, counter + 1)
    ensures d < 0 && counter < LongMax(w) ==> r.counter == counter + 1
    ensures d < 0 && counter == LongMax(w) ==> r.counter == LongMin(w)
    ensures d < 0 && 0 <= counter < LongMax(w) ==> (r.fail <==> (counter + 1) % Abs(d) == 0)
  {
    if d > 0 && rand % d == 1 then Decision(true, counter)
    else if d < 0 then
      var c := WrapLong(w, counter + 1);
      if c >= 0 then
        CRemOfNonNegative(c, d);
        Decision(CRem(c, d) == 0, c)
      else Decision(CRem(c, d) == 0, c)
    else Decision(false, counter)
  }

  /** For a nonnegative `c`, C's `c % d` is the Euclidean remainder by `|d|`, whatever the sign of `d`. */
  lemma CRemOfNonNegative(c: nat, d: int)
    requires d != 0
    ensures CRem(c, d) == c % Abs(d)
  {
    var q := c / Abs(d);
    assert CDiv(c, d) == (if d > 0 then q else -q);
    assert CDiv(c, d) * d == q * Abs(d);
  }

  /** The outcomes of successive allocations with denominator `d`, starting from `counter`. */
  function Outcomes(w: LongWidth, d: int32, counter: int, rands: seq<uint32>): (fails: seq<bool>)
    requires InLong(w, counter)
    ensures |fails| == |rands|
    decreases |rands|
  {
    if |rands| == 0 then []
    else
      var r := Decide(w, d, counter, rands[0]);
      [r.fail] + Outcomes(w, d, r.counter, rands[1..])
  }

  /**
   * The counter after successive allocations: with `d < 0` it counts the
   * calls modulo the width of `long`, and otherwise it does not move.
   */
  function CounterAfter(w: LongWidth, d: int32, counter: int, rands: seq<uint32>): (c: int)
    requires InLong(w, counter)
    ensures d < 0 ==> c == WrapLong(w, counter + |rands|)
    ensures d >= 0 ==> c == counter
    decreases |rands|
  {
    if |rands| == 0 then counter
    else
      var next := Decide(w, d, counter, rands[0]).counter;
      if d < 0 then
        WrapLongAdd(w, counter + 1, |rands| - 1);
        CounterAfter(w, d, next, rands[1..])
      else CounterAfter(w, d, next, rands[1..])
  }

  /**
   * With a negative denominator the draws do not matter: as long as the
   * counter does not reach the largest `long`, the `k`-th call (counting
   * from 1 after the counter value `counter`) fails exactly when
   * `counter + k` is a multiple of `|d|`.
   */
  lemma {:induction false} NegativeDenominatorPeriodic(w: LongWidth, d: int32, counter: nat, rands: seq<uint32>)
    requires d < 0 && counter + |rands| <= LongMax(w)
    ensures forall k :: 0 <= k < |rands| ==>
      (Outcomes(w, d, counter, rands)[k] <==> (counter + k + 1) % Abs(d) == 0)
    decreases |rands|
  {
    if |rands| > 0 {
      NegativeDenominatorPeriodic(w, d, counter + 1, rands[1..]);
      var fails := Outcomes(w, d, counter, rands);
      forall k | 1 <= k < |rands|
        ensures fails[k] <==> (counter + k + 1) % Abs(d) == 0
      {
        assert fails[k] == Outcomes(w, d, counter + 1, rands[1..])[k - 1];
      }
    }
  }

  /**
   * After the setter stores a negative `d` (and resets the counter), the
   * allocations that fail are exactly the `|d|`-th, `2|d|`-th, and so on,
   * up to the largest `long`.
   */
  lemma NthAllocationFails(w: LongWidth, d: int32, rands: seq<uint32>)
    requires d < 0 && |rands| <= LongMax(w)
    ensures forall k :: 0 <= k < |rands| ==> (Outcomes(w, d, 0, rands)[k] <==> (k + 1) % Abs(d) == 0)
  {
    NegativeDenominatorPeriodic(w, d, 0, rands);
  }

  /**
   * On Windows the 32-bit counter wraps: after 2^31 calls it reads `-2^31`,
   * and then the call numbered `2^31 + 1`, a multiple of 3, does not fail
   * with `D == -3`, because C's `-2147483647 % -3` is `-1`.
   */
  lemma WindowsCounterWraps(d: int32, rands: seq<uint32>, rand: uint32)
    requires d < 0 && |rands| == TWO_31
    ensures CounterAfter(Long32, d, 0, rands) == -TWO_31
    ensures (TWO_31 + 1) % 3 == 0 && !Decide(Long32, -3, -TWO_31, rand).fail
  {
    assert CRem(-TWO_31 + 1, -3) == -1;
  }

  /** With `D == 0` injection is off, and `D == 1` never fails either, since `Rand % 1` is never 1. */
  lemma NeverFailsForZeroOrOne(w: LongWidth, d: int32, counter: int, rands: seq<uint32>)
    requires d == 0 || d == 1
    requires InLong(w, counter)
    ensures forall k :: 0 <= k < |rands| ==> !Outcomes(w, d, counter, rands)[k]
    decreases |rands|
  {
    if |rands| > 0 {
      NeverFailsForZeroOrOne(w, d, counter, rands[1..]);
      assert forall k :: 1 <= k < |rands| ==> Outcomes(w, d, counter, rands)[k] == Outcomes(w, d, counter, rands[1..])[k - 1];
    }
  }

  /**
   * The loop of the memory test as written: for the denominator `-N` it
   * expects exactly the allocation at loop index `N` (the call numbered
   * `N + 1`) to fail.
   */
  function MemoryTestExpectationAsWritten(failureIter: nat, calls: nat): (expected: seq<bool>)
    ensures |expected| == calls
    ensures forall i :: 0 <= i < calls ==> (expected[i] <==> i == failureIter)
  {
    seq(calls, i => i == failureIter)
  }

  /**
   * The expectation that matches the rule "a negative denominator `-N`
   * fails the `N`-th allocation": the failing call is at loop index `N - 1`.
   */
  function MemoryTestExpectation(failureIter: nat, calls: nat): (expected: seq<bool>)
    ensures |expected| == calls
    ensures forall i :: 0 <= i < calls ==> (expected[i] <==> i + 1 == failureIter)
  {
    seq(calls, i => i + 1 == failureIter)
  }

  /** For the memory test's ten allocations after setting the denominator to -6, the corrected expectation matches the allocator for every draw. */
  lemma MemoryTestMatchesCorrected(w: LongWidth, rands: seq<uint32>)
    requires |rands| == 10
    ensures Outcomes(w, -6, 0, rands) == MemoryTestExpectation(6, 10)
  {
    NthAllocationFails(w, -6, rands);
    var fails := Outcomes(w, -6, 0, rands);
    var expected := MemoryTestExpectation(6, 10);
    forall k | 0 <= k < 10
      ensures fails[k] == expected[k]
    {
      assert (k + 1) % 6 == 0 <==> k == 5;
    }
  }

  /**
   * In the same run the injected failure is at loop index 5, not at index 6
   * as the test expects, so the expectation as written never matches.
   */
  lemma MemoryTestNthPattern(w: LongWidth, rands: seq<uint32>)
    requires |rands| == 10
    ensures Outcomes(w, -6, 0, rands)[5] && !Outcomes(w, -6, 0, rands)[6]
    ensures Outcomes(w, -6, 0, rands) != MemoryTestExpectationAsWritten(6, 10)
  {
    MemoryTestMatchesCorrected(w, rands);
    var expected := MemoryTestExpectation(6, 10);
    assert expected[5] && !expected[6];
    assert !MemoryTestExpectationAsWritten(6, 10)[5];
  }
}
