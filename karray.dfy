/**
 * `Rtl::KArray<T>`, the growable array of the kernel-mode runtime: a heap
 * buffer of `m_bufferSize` slots of which the first `m_numElements` hold
 * the elements. Every operation that needs room may fail (no exception is
 * thrown in kernel mode), and then reports false and leaves the elements
 * as they were.
 *
 * The buffer is an array whose length is the capacity; a null buffer is the
 * empty array. Whether the pool allocator has memory is an input of each
 * operation that may allocate. `sizeof(T)` is the constant `elemSize`, and
 * `T()` (or `(T)0`) the constant `zero`.
 */
module Rtl {
  import opened Ints
  import opened Optional

  /** The capacity `grow` asks for: at least `count`, at least 4, and at least one and a half times the old capacity. */
  function GrowTarget(count: nat, capacity: nat): (n: nat)
    ensures n >= count && n >= 4 && n >= capacity + capacity / 2
    ensures n == count || n == 4 || n == capacity + capacity / 2
  {
    Max(Max(count, 4), capacity + capacity / 2)
  }

  /** `s` cut to `n` elements, or extended to `n` with `z`: what `resize(n)` leaves. */
  function Resized<T>(s: seq<T>, n: nat, z: T): (r: seq<T>)
    ensures |r| == n
    ensures forall i :: 0 <= i < Min(|s|, n) ==> r[i] == s[i]
    ensures forall i :: |s| <= i < n ==> r[i] == z
  {
    if n <= |s| then s[..n] else s + seq(n - |s|, _ => z)
  }

  /**
   * Shrinking with `resize(n)` keeps a prefix, and growing back to the old
   * count gives the old contents back exactly when every element that was
   * cut equals the fill value `T()`.
   */
  lemma ResizedRoundTrip<T>(s: seq<T>, n: nat, z: T)
    requires n <= |s|
    ensures Resized(s, n, z) == s[..n]
    ensures Resized(Resized(s, n, z), |s|, z) == s <==> forall i :: n <= i < |s| ==> s[i] == z
  {
    var r := Resized(Resized(s, n, z), |s|, z);
    if forall i :: n <= i < |s| ==> s[i] == z {
      assert forall i :: 0 <= i < |s| ==> r[i] == s[i];
    }
    if r == s {
      forall i | n <= i < |s|
        ensures s[i] == z
      {
        assert r[i] == z;
      }
    }
  }

  /** The slots `moveElements(from, to, number)` writes get the slots they are moved from; every other slot keeps its value. */
  function Moved<T>(s: seq<T>, from: nat, to: nat, number: nat): (r: seq<T>)
    requires from + number <= |s| && to + number <= |s|
    ensures |r| == |s|
    ensures forall k :: 0 <= k < |s| && to <= k < to + number ==> r[k] == s[k - to + from]
    ensures forall k :: 0 <= k < |s| && !(to <= k < to + number) ==> r[k] == s[k]
  {
    seq(|s|, k requires 0 <= k < |s| => if to <= k < to + number then s[k - to + from] else s[k])
  }

  /**
   * What `lessThanPredicate` must be for the sorted inserts to mean
   * anything: a strict weak order, that is irreflexive and transitive, with
   * "not less than" transitive as well.
   */
  ghost predicate StrictWeakOrder<T(!new)>(less: (T, T) -> bool) {
    && (forall a :: !less(a, a))
    && (forall a, b, c :: less(a, b) && less(b, c) ==> less(a, c))
    && (forall a, b, c :: !less(a, b) && !less(b, c) ==> !less(a, c))
  }

  /** No element is less than one before it. */
  ghost predicate Sorted<T>(s: seq<T>, less: (T, T) -> bool) {
    forall i, j :: 0 <= i < j < |s| ==> !less(s[j], s[i])
  }

  /** Every element is less than every later one: sorted with no two equivalent elements. */
  ghost predicate StrictlySorted<T>(s: seq<T>, less: (T, T) -> bool) {
    forall i, j :: 0 <= i < j < |s| ==> less(s[i], s[j])
  }

  /** Neither is less than the other. */
  predicate Equivalent<T>(less: (T, T) -> bool, a: T, b: T) {
    !less(a, b) && !less(b, a)
  }

  /** Where the sorted inserts put `t`: the first element not less than `t`, or the end. */
  function FirstNotLess<T>(s: seq<T>, t: T, less: (T, T) -> bool): (i: nat)
    ensures i <= |s|
    ensures forall k :: 0 <= k < i ==> less(s[k], t)
    ensures i < |s| ==> !less(s[i], t)
  {
    if |s| == 0 || !less(s[0], t) then 0 else 1 + FirstNotLess(s[1..], t, less)
  }

  /** The position the loop finds — every element before it less than `t`, and it not — is `FirstNotLess`. */
  lemma FirstNotLessUnique<T>(s: seq<T>, t: T, less: (T, T) -> bool, i: nat)
    requires i <= |s| && (forall k :: 0 <= k < i ==> less(s[k], t)) && (i < |s| ==> !less(s[i], t))
    ensures FirstNotLess(s, t, less) == i
  {
  }

  /** `s` with `t` inserted before position `i`. */
  function InsertedAt<T>(s: seq<T>, i: nat, t: T): (r: seq<T>)
    requires i <= |s|
    ensures |r| == |s| + 1 && r[i] == t
    ensures forall k :: 0 <= k < i ==> r[k] == s[k]
    ensures forall k :: i < k <= |s| ==> r[k] == s[k - 1]
  {
    s[..i] + [t] + s[i..]
  }

  /** An insertion adds `t` and keeps every old element: the result is a permutation of `s` and `t`. */
  lemma InsertedAtPermutes<T>(s: seq<T>, i: nat, t: T)
    requires i <= |s|
    ensures multiset(InsertedAt(s, i, t)) == multiset(s) + multiset{t}
  {
    assert s == s[..i] + s[i..];
  }

  /** `s` without its element at position `i`. */
  function RemovedAt<T>(s: seq<T>, i: nat): (r: seq<T>)
    requires i < |s|
    ensures |r| == |s| - 1
    ensures forall k :: 0 <= k < i ==> r[k] == s[k]
    ensures forall k :: i <= k < |r| ==> r[k] == s[k + 1]
  {
    s[..i] + s[i + 1..]
  }

  /** A removal drops exactly the one element at `i`. */
  lemma RemovedAtPermutes<T>(s: seq<T>, i: nat)
    requires i < |s|
    ensures multiset(RemovedAt(s, i)) + multiset{s[i]} == multiset(s)
  {
    assert s == s[..i] + [s[i]] + s[i + 1..];
  }

  /** Erasing what was just inserted gives the old elements back. */
  lemma RemoveInsertedAt<T>(s: seq<T>, i: nat, t: T)
    requires i <= |s|
    ensures RemovedAt(InsertedAt(s, i, t), i) == s
  {
    var r := RemovedAt(InsertedAt(s, i, t), i);
    assert forall k :: 0 <= k < |s| ==> r[k] == s[k];
  }

  /**
   * `insertSorted` keeps a sorted array sorted, and the result holds the
   * old elements and `t`.
   */
  lemma InsertSortedKeepsSorted<T(!new)>(s: seq<T>, t: T, less: (T, T) -> bool)
    requires StrictWeakOrder(less) && Sorted(s, less)
    ensures Sorted(InsertedAt(s, FirstNotLess(s, t, less), t), less)
  {
    var p := FirstNotLess(s, t, less);
    var r := InsertedAt(s, p, t);
    forall i, j | 0 <= i < j < |r|
      ensures !less(r[j], r[i])
    {
      if j == p {
        assert less(r[i], t);
      } else if i == p {
        assert r[j] == s[j - 1];
        assert !less(s[j - 1], s[p]) || j - 1 == p;
      }
    }
  }

  /**
   * In a sorted array an element equivalent to `t` exists exactly when the
   * one `insertSortedUnique` stops at is equivalent to `t`, so checking that
   * one element suffices.
   */
  lemma EquivalentFoundAtFirstNotLess<T(!new)>(s: seq<T>, t: T, less: (T, T) -> bool)
    requires StrictWeakOrder(less) && Sorted(s, less)
    ensures var p := FirstNotLess(s, t, less);
      (exists k :: 0 <= k < |s| && Equivalent(less, s[k], t)) <==> p < |s| && !less(t, s[p])
  {
    var p := FirstNotLess(s, t, less);
    if k :| 0 <= k < |s| && Equivalent(less, s[k], t) {
      assert !less(s[k], s[p]) || k == p;
    }
    if p < |s| && !less(t, s[p]) {
      assert Equivalent(less, s[p], t);
    }
  }

  /** `insertSortedUnique` keeps a strictly sorted array strictly sorted when it inserts. */
  lemma InsertSortedUniqueKeepsStrictlySorted<T(!new)>(s: seq<T>, t: T, less: (T, T) -> bool)
    requires StrictWeakOrder(less) && StrictlySorted(s, less)
    requires var p := FirstNotLess(s, t, less); p == |s| || less(t, s[p])
    ensures StrictlySorted(InsertedAt(s, FirstNotLess(s, t, less), t), less)
  {
    var p := FirstNotLess(s, t, less);
    var r := InsertedAt(s, p, t);
    forall i, j | 0 <= i < j < |r|
      ensures less(r[i], r[j])
    {
      if j == p {
        assert less(r[i], t);
      } else if i == p {
        assert r[j] == s[j - 1];
        assert less(s[p], s[j - 1]) || j - 1 == p;
      }
    }
  }

  class KArray<T> {
    /** `sizeof(T)`. */
    const elemSize: nat
    /** The value a new slot of `resize` gets: `T()`, all zero bits for a trivial type. */
    const zero: T
    /** `_p`, with `m_bufferSize` slots. */
    var buf: array<T>
    /** `m_bufferSize`. */
    var bufferSize: nat
    /** `m_numElements`. */
    var numElements: nat

    /**
     * The count never exceeds the capacity, the capacity is below
     * `(ULONG)(-1)`, and the buffer's byte size fits a `size_t`: `reserve`
     * refuses anything else.
     */
    ghost predicate Valid()
      reads this
    {
      && buf.Length == bufferSize
      && numElements <= bufferSize < ULONG_MAX
      && elemSize > 0 && elemSize * bufferSize <= SIZE_MAX
    }

    /** The elements, in order. */
    function Contents(): (s: seq<T>)
      reads this, buf
      requires Valid()
      ensures |s| == numElements
    {
      buf[..numElements]
    }

    /** `count()` and `size()`. */
    function Count(): (n: nat)
      reads this
      requires Valid()
      ensures n == numElements <= bufferSize
    {
      numElements
    }

    /** The capacities `reserve` accepts: below `(ULONG)(-1)`, with a byte size that `RtlSIZETMult` does not overflow. */
    predicate ReserveFits(count: nat) {
      count < ULONG_MAX && elemSize * count <= SIZE_MAX
    }

    /** `KArray()`: no buffer and no elements. */
    constructor (elemSize: nat, zero: T)
      requires elemSize > 0
      ensures Valid() && fresh(buf)
      ensures this.elemSize == elemSize && this.zero == zero
      ensures Contents() == [] && bufferSize == 0
    {
      this.elemSize := elemSize;
      this.zero := zero;
      buf := new T[0];
      bufferSize := 0;
      numElements := 0;
    }

    /**
     * `reserve(count)`: nothing to do when the capacity already suffices;
     * otherwise a capacity that does not fit, or a failed allocation,
     * reports false, and success moves the elements into a new buffer of
     * exactly `count` slots.
     */
    method Reserve(count: size_t, allocOk: bool) returns (ok: bool)
      requires Valid()
      modifies this
      ensures Valid()
      ensures ok <==> old(bufferSize) >= count || (ReserveFits(count) && allocOk)
      ensures ok && old(bufferSize) < count ==> bufferSize == count && fresh(buf)
      ensures !ok || old(bufferSize) >= count ==> bufferSize == old(bufferSize) && buf == old(buf)
      ensures numElements == old(numElements) && Contents() == old(Contents())
    {
      if bufferSize >= count {
        return true;
      }
      if count >= ULONG_MAX {
        return false;
      }
      if elemSize * count > SIZE_MAX {
        return false;
      }
      if !allocOk {
        return false;
      }
      var p := new T[count](_ => zero);
      CopyElements(buf, p, numElements);
      bufferSize := count;
      buf := p;
      return true;
    }

    /** The copy loop of `reserve`: the first `n` elements move into the new buffer `dst`. */
    static method CopyElements(src: array<T>, dst: array<T>, n: nat)
      requires n <= src.Length && n <= dst.Length && src != dst
      modifies dst
      ensures dst[..n] == src[..n]
    {
      var i := 0;
      while i < n
        invariant i <= n
        invariant forall j :: 0 <= j < i ==> dst[j] == src[j]
      {
        dst[i] := src[i];
        i := i + 1;
      }
    }

    /**
     * `grow(count)`: nothing to do when the capacity suffices; otherwise
     * `reserve` of `GrowTarget`, so that appending one element at a time
     * reallocates only geometrically often.
     */
    method Grow(count: size_t, allocOk: bool) returns (ok: bool)
      requires Valid()
      modifies this
      ensures Valid()
      ensures old(bufferSize) >= count ==> ok && bufferSize == old(bufferSize) && buf == old(buf)
      ensures old(bufferSize) < count ==>
        && (ok <==> ReserveFits(GrowTarget(count, old(bufferSize))) && allocOk)
        && (ok ==> bufferSize == GrowTarget(count, old(bufferSize)) && fresh(buf))
      ensures !ok ==> bufferSize == old(bufferSize) && buf == old(buf)
      ensures ok ==> bufferSize >= count
      ensures numElements == old(numElements) && Contents() == old(Contents())
    {
      if bufferSize >= count {
        return true;
      }
      var target := GrowTarget(count, bufferSize);
      ok := Reserve(target, allocOk);
    }

    /** Whether `grow(count)` succeeds: the capacity suffices, or `reserve` of `GrowTarget` does. */
    predicate GrowSucceeds(count: nat, allocOk: bool)
      reads this
    {
      bufferSize >= count || (ReserveFits(GrowTarget(count, bufferSize)) && allocOk)
    }

    /** New slots of `resize` from `lo` up to `hi` get `zero`; the others keep their values. */
    static method FillSlots(a: array<T>, lo: nat, hi: nat, z: T)
      requires lo <= hi <= a.Length
      modifies a
      ensures a[..] == old(a[..lo]) + seq(hi - lo, _ => z) + old(a[hi..])
    {
      var i := lo;
      while i < hi
        invariant lo <= i <= hi
        invariant forall k :: 0 <= k < a.Length ==> a[k] == (if lo <= k < i then z else old(a[k]))
      {
        a[i] := z;
        i := i + 1;
      }
      assert a[..] == old(a[..lo]) + seq(hi - lo, _ => z) + old(a[hi..]);
    }

    /**
     * `resize(count)`: `reserve(count)` first, and on its failure false with
     * nothing changed; then slots past the old count get `zero` and the
     * count becomes `count`.
     */
    method Resize(count: size_t, allocOk: bool) returns (ok: bool)
      requires Valid()
      modifies this, buf
      ensures Valid()
      ensures ok <==> old(bufferSize) >= count || (ReserveFits(count) && allocOk)
      ensures ok ==> Contents() == Resized(old(Contents()), count, zero) && bufferSize == Max(old(bufferSize), count)
      ensures !ok ==> Contents() == old(Contents()) && bufferSize == old(bufferSize) && buf == old(buf)
      ensures old(bufferSize) >= count ==> buf == old(buf)
    {
      ok := Reserve(count, allocOk);
      if !ok {
        return;
      }
      if count > numElements {
        FillSlots(buf, numElements, count, zero);
      }
      numElements := count;
    }

    /** `clear()`: `resize(0)`, which never allocates and always succeeds; the capacity stays. */
    method Clear()
      requires Valid()
      modifies this, buf
      ensures Valid()
      ensures Contents() == [] && bufferSize == old(bufferSize) && buf == old(buf)
    {
      var _ := Resize(0, false);
    }

    /**
     * `append(t)` and `push_back(t)`: `grow` to one more than the count,
     * and on success `t` becomes the last element.
     */
    method Append(t: T, allocOk: bool) returns (ok: bool)
      requires Valid()
      modifies this, buf
      ensures Valid()
      ensures ok <==> old(GrowSucceeds(numElements + 1, allocOk))
      ensures ok ==> Contents() == old(Contents()) + [t]
      ensures ok && old(numElements) < old(bufferSize) ==> bufferSize == old(bufferSize) && buf == old(buf)
      ensures ok && old(numElements) == old(bufferSize) ==>
        bufferSize == GrowTarget(old(numElements) + 1, old(bufferSize)) && fresh(buf)
      ensures !ok ==> Contents() == old(Contents()) && bufferSize == old(bufferSize) && buf == old(buf)
    {
      ok := Grow(numElements + 1, allocOk);
      if !ok {
        return;
      }
      buf[numElements] := t;
      numElements := numElements + 1;
    }

    /**
     * `pop_back()`: `resize(count() - 1)` in `size_t` arithmetic. On an
     * empty array that asks for `SIZE_MAX`, which `reserve` refuses, so
     * nothing changes.
     */
    method PopBack()
      requires Valid()
      modifies this, buf
      ensures Valid()
      ensures old(numElements) == 0 ==> Contents() == old(Contents())
      ensures old(numElements) > 0 ==> Contents() == old(Contents())[..old(numElements) - 1]
      ensures bufferSize == old(bufferSize) && buf == old(buf)
    {
      // Shrinking allocates nothing, and the request for SIZE_MAX is refused before any allocation.
      var _ := Resize(Wrap64(numElements - 1), false);
    }

    /**
     * `moveElements(from, to, number)` on the buffer `a`: the `number`
     * elements from `from` end up at `to`, as `memmove` leaves them; the
     * loop runs backward when moving up so that no source slot is
     * overwritten before it is read.
     */
    static method MoveElements(a: array<T>, from: nat, to: nat, number: nat)
      requires from + number <= a.Length && to + number <= a.Length
      modifies a
      ensures a[..] == Moved(old(a[..]), from, to, number)
    {
      ghost var s := a[..];
      if from == to || number == 0 {
        return;
      }
      if from < to {
        var i: nat := number;
        while i > 0
          invariant i <= number
          invariant forall k :: 0 <= k < a.Length && !(to + i <= k < to + number) ==> a[k] == s[k]
          invariant forall k :: to + i <= k < to + number ==> a[k] == s[k - to + from]
        {
          a[to + i - 1] := a[from + i - 1];
          i := i - 1;
        }
      } else {
        var i := 0;
        while i < number
          invariant i <= number
          invariant forall k :: 0 <= k < a.Length && !(to <= k < to + i) ==> a[k] == s[k]
          invariant forall k :: to <= k < to + i ==> a[k] == s[k - to + from]
        {
          a[to + i] := a[from + i];
          i := i + 1;
        }
      }
      assert forall k :: 0 <= k < a.Length ==> a[k] == Moved(s, from, to, number)[k];
    }

    /** The body of `insertAt` after `grow`: the elements from `index` move up one slot and `t` takes its place. */
    static method ShiftInsert(a: array<T>, n: nat, index: nat, t: T)
      requires index <= n < a.Length
      modifies a
      ensures a[..n + 1] == InsertedAt(old(a[..n]), index, t)
    {
      ghost var s := a[..n];
      ghost var r := InsertedAt(s, index, t);
      ghost var moved := Moved(a[..], index, index + 1, n - index);
      MoveElements(a, index, index + 1, n - index);
      assert forall k :: index < k <= n ==> a[k] == moved[k] == s[k - 1];
      a[index] := t;
      forall k | 0 <= k <= n
        ensures a[k] == r[k]
      {
        if k < index {
          assert a[k] == moved[k];
        }
      }
    }

    /** The body of `eraseAt` for an index in range: the later elements move down one slot over it. */
    static method ShiftErase(a: array<T>, n: nat, index: nat)
      requires index < n <= a.Length
      modifies a
      ensures a[..n - 1] == RemovedAt(old(a[..n]), index)
    {
      ghost var s := a[..n];
      ghost var r := RemovedAt(s, index);
      ghost var moved := Moved(a[..], index + 1, index, n - index - 1);
      MoveElements(a, index + 1, index, n - index - 1);
      forall k | 0 <= k < n - 1
        ensures a[k] == r[k]
      {
        assert a[k] == moved[k];
      }
    }

    /**
     * `insertAt(index, t)`: false with nothing changed when `index` is past
     * the count or `grow` fails; otherwise the elements from `index` move up
     * one slot and `t` takes its place.
     */
    method InsertAt(index: size_t, t: T, allocOk: bool) returns (ok: bool)
      requires Valid()
      modifies this, buf
      ensures Valid()
      ensures ok <==> index <= old(numElements) && old(GrowSucceeds(numElements + 1, allocOk))
      ensures ok ==> Contents() == InsertedAt(old(Contents()), index, t)
      ensures !ok ==> Contents() == old(Contents()) && bufferSize == old(bufferSize) && buf == old(buf)
    {
      if index > numElements {
        return false;
      }
      ok := Grow(numElements + 1, allocOk);
      if !ok {
        return;
      }
      ShiftInsert(buf, numElements, index, t);
      numElements := numElements + 1;
    }

    /**
     * `eraseAt(index)`: an index past the end is a fast-fail (reported
     * here, with nothing changed); otherwise the later elements move down
     * one slot over it.
     */
    method EraseAt(index: size_t) returns (failFast: bool)
      requires Valid()
      modifies this, buf
      ensures Valid()
      ensures failFast <==> index >= old(numElements)
      ensures failFast ==> Contents() == old(Contents())
      ensures !failFast ==> Contents() == RemovedAt(old(Contents()), index)
      ensures bufferSize == old(bufferSize) && buf == old(buf)
    {
      if index >= numElements {
        return true;
      }
      ShiftErase(buf, numElements, index);
      numElements := numElements - 1;
      return false;
    }

    /** `operator[](index)`: the element, or a fast-fail (`None`) for an index past the end. */
    function At(index: size_t): (r: Option<T>)
      reads this, buf
      requires Valid()
      ensures r.Some? <==> index < |Contents()|
      ensures r.Some? ==> r.value == Contents()[index]
    {
      if index >= numElements then None else Some(buf[index])
    }

    /** The search loop of the sorted inserts: the first index whose element is not less than `t`. */
    method FindInsertPosition(t: T, less: (T, T) -> bool) returns (i: nat)
      requires Valid()
      ensures i == FirstNotLess(Contents(), t, less)
    {
      i := 0;
      while i < numElements
        invariant i <= numElements
        invariant forall k :: 0 <= k < i ==> less(buf[k], t)
      {
        if !less(buf[i], t) {
          break;
        }
        i := i + 1;
      }
      FirstNotLessUnique(Contents(), t, less, i);
    }

    /**
     * `insertSorted(t, lessThanPredicate)`: `t` goes before the first
     * element not less than it, or at the end when there is none.
     */
    method InsertSorted(t: T, less: (T, T) -> bool, allocOk: bool) returns (ok: bool)
      requires Valid()
      modifies this, buf
      ensures Valid()
      ensures ok <==> old(GrowSucceeds(numElements + 1, allocOk))
      ensures ok ==> Contents() == InsertedAt(old(Contents()), FirstNotLess(old(Contents()), t, less), t)
      ensures !ok ==> Contents() == old(Contents()) && bufferSize == old(bufferSize) && buf == old(buf)
    {
      var i := FindInsertPosition(t, less);
      if i < numElements {
        ok := InsertAt(i, t, allocOk);
      } else {
        ok := Append(t, allocOk);
      }
    }

    /**
     * `insertSortedUnique(t, lessThanPredicate)`: as `insertSorted`, except
     * that when the element it stops at is not greater than `t` either (it
     * is equivalent to `t`) it succeeds without inserting.
     */
    method InsertSortedUnique(t: T, less: (T, T) -> bool, allocOk: bool) returns (ok: bool)
      requires Valid()
      modifies this, buf
      ensures Valid()
      ensures var s := old(Contents()); var p := FirstNotLess(s, t, less);
        if p < |s| && !less(t, s[p]) then
          ok && Contents() == s && bufferSize == old(bufferSize) && buf == old(buf)
        else
          && (ok <==> old(GrowSucceeds(numElements + 1, allocOk)))
          && (ok ==> Contents() == InsertedAt(s, p, t))
          && (!ok ==> Contents() == s && bufferSize == old(bufferSize) && buf == old(buf))
    {
      var i := FindInsertPosition(t, less);
      if i < numElements {
        if less(t, buf[i]) {
          ok := InsertAt(i, t, allocOk);
        } else {
          ok := true;
        }
      } else {
        ok := Append(t, allocOk);
      }
    }

    /** `reset()`, which the destructor runs: the buffer is freed and the array is empty with no capacity. */
    method Reset()
      requires Valid()
      modifies this
      ensures Valid()
      ensures Contents() == [] && bufferSize == 0
    {
      buf := new T[0];
      numElements := 0;
      bufferSize := 0;
    }

    /** The move constructor: the new array takes `rhs`'s buffer and elements, and `rhs` is left empty. */
    constructor Move(rhs: KArray<T>)
      requires rhs.Valid()
      modifies rhs
      ensures Valid() && rhs.Valid()
      ensures elemSize == rhs.elemSize && zero == rhs.zero
      ensures buf == old(rhs.buf) && bufferSize == old(rhs.bufferSize) && Contents() == old(rhs.Contents())
      ensures rhs.Contents() == [] && rhs.bufferSize == 0
    {
      elemSize := rhs.elemSize;
      zero := rhs.zero;
      buf := rhs.buf;
      numElements := rhs.numElements;
      bufferSize := rhs.bufferSize;
      new;
      rhs.buf := new T[0];
      rhs.numElements := 0;
      rhs.bufferSize := 0;
    }

    /**
     * Move assignment: `reset()`, then this array takes `rhs`'s buffer and
     * elements and `rhs` is left empty. Assigning an array to itself leaves
     * it empty.
     */
    method MoveAssign(rhs: KArray<T>)
      requires Valid() && rhs.Valid() && rhs.elemSize == elemSize
      modifies this, rhs
      ensures Valid() && rhs.Valid()
      ensures rhs != this ==> buf == old(rhs.buf) && bufferSize == old(rhs.bufferSize) && Contents() == old(rhs.Contents())
      ensures rhs.Contents() == [] && rhs.bufferSize == 0
      ensures rhs == this ==> Contents() == []
    {
      Reset();
      buf := rhs.buf;
      numElements := rhs.numElements;
      bufferSize := rhs.bufferSize;
      rhs.buf := new T[0];
      rhs.numElements := 0;
      rhs.bufferSize := 0;
    }
  }

  /**
   * The basic test: appending 0 to 9 to an empty array of `uint32_t` (the
   * allocator never failing) gives ten elements, the `i`-th equal to `i`.
   */
  method KArrayBasic() returns (a: KArray<uint32>)
    ensures fresh(a) && a.Valid()
    ensures a.Count() == 10
    ensures forall i :: 0 <= i < 10 ==> a.At(i) == Some(i)
  {
    a := new KArray<uint32>(4, 0);
    var i := 0;
    while i < 10
      invariant 0 <= i <= 10
      invariant fresh(a) && fresh(a.buf) && a.Valid() && a.elemSize == 4
      invariant a.bufferSize <= 16
      invariant a.Contents() == seq(i, k => k)
    {
      var ok := a.Append(i, true);
      i := i + 1;
    }
  }
}
