/**
 * The POSIX event (`CXPLAT_EVENT`): a `Signaled` flag and an `AutoReset`
 * flag guarded by a mutex and a condition variable. The model is the
 * sequential abstraction seen by one waiter: the mutex and condition
 * variable are left out, and each return from a condition wait is an input
 * that says whether the wait timed out and what the other threads left in
 * `Signaled` meanwhile.
 */
module PosixEvent {
  import opened Ints
  import opened PosixTime

  /**
   * One return from `pthread_cond_timedwait` (or `pthread_cond_wait`, which
   * never times out): whether it reported `ETIMEDOUT`, and the value of
   * `Signaled` once the mutex is held again.
   */
  datatype CondWake = CondWake(timedOut: bool, signaled: bool)

  /** A wake that ends the wait loop: a timeout, or one that finds the event signaled. */
  predicate Decides(w: CondWake) {
    w.timedOut || w.signaled
  }

  /** The wait loop ends: the event is signaled already, or some wake ends it. */
  predicate WaitEnds(signaled: bool, wakes: seq<CondWake>) {
    signaled || exists i :: 0 <= i < |wakes| && Decides(wakes[i])
  }

  /** What a timed wait returns, the flag it leaves, and how many wakes it consumed. */
  datatype WaitOutcome = WaitOutcome(satisfied: bool, signaled: bool, consumed: nat)

  /**
   * The loop of `CxPlatInternalEventWaitWithTimeout`, as a function of the
   * flag on entry and the wakes: it runs while the event is not signaled;
   * a timeout returns false and leaves the flag as it is; otherwise the
   * satisfied wait consumes the signal when the event is auto-reset.
   */
  function TimedWait(signaled: bool, autoReset: bool, wakes: seq<CondWake>): (o: WaitOutcome)
    requires WaitEnds(signaled, wakes)
    ensures o.consumed <= |wakes|
    decreases |wakes|
  {
    if signaled then WaitOutcome(true, !autoReset, 0)
    else
      assert |wakes| > 0;
      var w := wakes[0];
      if w.timedOut then WaitOutcome(false, w.signaled, 1)
      else
        assert WaitEnds(w.signaled, wakes[1..]) by {
          if !w.signaled {
            var i :| 0 <= i < |wakes| && Decides(wakes[i]);
            assert i > 0 && Decides(wakes[1..][i - 1]);
          }
        }
        var o := TimedWait(w.signaled, autoReset, wakes[1..]);
        o.(consumed := o.consumed + 1)
  }

  /**
   * The outcome described independently of the recursion: the wait consumes
   * wakes up to and including the first one that ends it (none when the
   * event is signaled on entry); it is satisfied unless that wake is a
   * timeout; a satisfied wait leaves the flag clear exactly when the event
   * auto-resets, and a timed-out one leaves the flag the wake reported.
   */
  lemma {:induction false} TimedWaitCharacterised(signaled: bool, autoReset: bool, wakes: seq<CondWake>)
    requires WaitEnds(signaled, wakes)
    ensures var o := TimedWait(signaled, autoReset, wakes);
      && (o.consumed == 0 <==> signaled)
      && (forall j :: 0 <= j < o.consumed - 1 ==> !Decides(wakes[j]))
      && (o.consumed > 0 ==> Decides(wakes[o.consumed - 1]))
      && (o.satisfied <==> signaled || !wakes[o.consumed - 1].timedOut)
      && (o.satisfied ==> o.signaled == !autoReset)
      && (!o.satisfied ==> o.signaled == wakes[o.consumed - 1].signaled)
    decreases |wakes|
  {
    if !signaled && !wakes[0].timedOut {
      assert WaitEnds(wakes[0].signaled, wakes[1..]) by {
        if !wakes[0].signaled {
          var i :| 0 <= i < |wakes| && Decides(wakes[i]);
          assert i > 0 && Decides(wakes[1..][i - 1]);
        }
      }
      TimedWaitCharacterised(wakes[0].signaled, autoReset, wakes[1..]);
      var o := TimedWait(wakes[0].signaled, autoReset, wakes[1..]);
      forall j | 1 <= j < o.consumed
        ensures !Decides(wakes[j])
      {
        assert wakes[j] == wakes[1..][j - 1];
      }
    }
  }

  /** The wakes of an untimed `pthread_cond_wait` loop: none of them times out. */
  function Untimed(wakeups: seq<bool>): (wakes: seq<CondWake>)
    ensures |wakes| == |wakeups|
    ensures forall i :: 0 <= i < |wakes| ==> wakes[i] == CondWake(false, wakeups[i])
  {
    seq(|wakeups|, i requires 0 <= i < |wakeups| => CondWake(false, wakeups[i]))
  }

  /**
   * `CxPlatInternalEventWaitForever` is the timed wait without timeouts: it
   * is always satisfied and leaves the flag set exactly for a manual-reset
   * event.
   */
  lemma {:induction false} WaitForeverIsUntimedWait(signaled: bool, autoReset: bool, wakeups: seq<bool>)
    requires signaled || true in wakeups
    ensures WaitEnds(signaled, Untimed(wakeups))
    ensures TimedWait(signaled, autoReset, Untimed(wakeups)).satisfied
    ensures TimedWait(signaled, autoReset, Untimed(wakeups)).signaled == !autoReset
    decreases |wakeups|
  {
    var wakes := Untimed(wakeups);
    if !signaled {
      var i :| 0 <= i < |wakeups| && wakeups[i];
      assert Decides(wakes[i]);
      assert wakes[1..] == Untimed(wakeups[1..]);
      if !wakeups[0] {
        assert wakeups[1..][i - 1];
      }
      WaitForeverIsUntimedWait(wakeups[0], autoReset, wakeups[1..]);
    }
  }

  class Event {
    /** `Signaled`. */
    var signaled: bool
    /** `AutoReset`. */
    var autoReset: bool

    /** `CxPlatEventInitialize`: auto-reset unless manual reset is asked for; signaled as given. */
    constructor Initialize(manualReset: bool, initialState: bool)
      ensures autoReset == !manualReset
      ensures signaled == initialState
    {
      autoReset := !manualReset;
      signaled := initialState;
    }

    /** `CxPlatInternalEventSet`: the flag becomes set; the waiters are woken. */
    method Set()
      modifies this
      ensures signaled
      ensures autoReset == old(autoReset)
    {
      signaled := true;
    }

    /** `CxPlatInternalEventReset`: the flag becomes clear. */
    method Reset()
      modifies this
      ensures !signaled
      ensures autoReset == old(autoReset)
    {
      signaled := false;
    }

    /**
     * `CxPlatInternalEventWaitForever`: waits until the flag is set, reading
     * it after each wakeup (spurious ones included), then clears it if the
     * event auto-resets. It returns how many wakeups it consumed: up to the
     * first that found the event signaled.
     */
    method WaitForever(wakeups: seq<bool>) returns (consumed: nat)
      requires signaled || true in wakeups
      modifies this
      ensures autoReset == old(autoReset)
      ensures signaled == !autoReset
      ensures consumed <= |wakeups|
      ensures consumed == 0 <==> old(signaled)
      ensures consumed > 0 ==> wakeups[consumed - 1]
      ensures forall j :: 0 <= j < consumed - 1 ==> !wakeups[j]
    {
      consumed := 0;
      while !signaled
        invariant autoReset == old(autoReset)
        invariant consumed <= |wakeups|
        invariant consumed == 0 ==> signaled == old(signaled)
        invariant old(signaled) ==> consumed == 0
        invariant consumed > 0 ==> signaled == wakeups[consumed - 1]
        invariant forall j :: 0 <= j < consumed - 1 ==> !wakeups[j]
        invariant !signaled ==> true in wakeups[consumed..]
        decreases |wakeups| - consumed
      {
        assert wakeups[consumed..] == [wakeups[consumed]] + wakeups[consumed + 1..];
        signaled := wakeups[consumed];
        consumed := consumed + 1;
      }
      if autoReset {
        signaled := false;
      }
    }

    /**
     * `CxPlatInternalEventWaitWithTimeout`. The caller must not pass
     * `UINT32_MAX` (the infinite timeout). The deadline is the clock reading
     * `now` plus the timeout; each condition wait either times out, which
     * returns false and leaves the flag alone, or rereads the flag. A
     * satisfied wait clears the flag if the event auto-resets and returns true.
     */
    method WaitWithTimeout(timeoutMs: uint32, now: Timespec, wakes: seq<CondWake>)
      returns (satisfied: bool, deadline: Timespec)
      requires timeoutMs != UINT32_MAX
      requires Normalized(now)
      requires WaitEnds(signaled, wakes)
      modifies this
      ensures autoReset == old(autoReset)
      ensures var o := TimedWait(old(signaled), autoReset, wakes);
        satisfied == o.satisfied && signaled == o.signaled
      ensures Normalized(deadline) && TotalNs(deadline) == TotalNs(now) + timeoutMs * 1000000
    {
      deadline := GetAbsoluteTime(timeoutMs, now);
      ghost var s0 := signaled;
      var i := 0;
      while !signaled
        invariant autoReset == old(autoReset)
        invariant i <= |wakes|
        invariant WaitEnds(signaled, wakes[i..])
        invariant TimedWait(s0, autoReset, wakes).satisfied == TimedWait(signaled, autoReset, wakes[i..]).satisfied
        invariant TimedWait(s0, autoReset, wakes).signaled == TimedWait(signaled, autoReset, wakes[i..]).signaled
        decreases |wakes| - i
      {
        var w := wakes[i];
        assert wakes[i..][1..] == wakes[i + 1..];
        if w.timedOut {
          satisfied := false;
          signaled := w.signaled;
          return;
        }
        signaled := w.signaled;
        i := i + 1;
      }
      if autoReset {
        signaled := false;
      }
      satisfied := true;
    }
  }

  /**
   * The basic event test: an auto-reset event created unsignaled times out
   * (nobody sets it); after reset and set a timed wait is satisfied at once;
   * after reset and set again a wait forever returns at once.
   */
  method EventBasicScenario(now: Timespec) returns (first: bool, second: bool)
    requires Normalized(now)
    ensures !first && second
  {
    var e := new Event.Initialize(false, false);
    var deadline;
    assert Decides([CondWake(true, false)][0]);
    first, deadline := e.WaitWithTimeout(100, now, [CondWake(true, false)]);
    e.Reset();
    e.Set();
    second, deadline := e.WaitWithTimeout(100, now, []);
    e.Reset();
    e.Set();
    var consumed := e.WaitForever([]);
  }
}
