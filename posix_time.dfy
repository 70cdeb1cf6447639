/**
 * The POSIX time helpers built on `struct timespec`: the conversion to
 * microseconds, the absolute deadline a timed wait hands to
 * `pthread_cond_timedwait`, and the interval a sleep hands to `nanosleep`.
 * The clock reading itself is a parameter.
 */
module PosixTime {
  import opened Ints

  /** `struct timespec`: whole seconds and nanoseconds. */
  datatype Timespec = Timespec(sec: int, nsec: int)

  /** A timespec as the clock returns it: nonnegative, with fewer than 10^9 nanoseconds. */
  predicate Normalized(t: Timespec) {
    t.sec >= 0 && 0 <= t.nsec < 1000000000
  }

  /** The instant a timespec denotes, in nanoseconds. */
  function TotalNs(t: Timespec): int {
    t.sec * 1000000000 + t.nsec
  }

  /**
   * `CxPlatTimespecToUs`: `tv_sec * 1000000 + tv_nsec / 1000`, returned as a
   * `uint64_t`. For a normalized timespec whose value fits, the result is
   * the instant in whole microseconds: its seconds part is `sec` and its
   * sub-second part is the nanoseconds truncated to microseconds.
   */
  function TimespecToUs(t: Timespec): (r: uint64)
    ensures Normalized(t) && t.sec * 1000000 + t.nsec / 1000 < 0x1_0000_0000_0000_0000 ==>
      r == TotalNs(t) / 1000 && r / 1000000 == t.sec && r % 1000000 == t.nsec / 1000
  {
    Wrap64(t.sec * 1000000 + CDiv(t.nsec, 1000))
  }

  /**
   * `CxPlatGetAbsoluteTime`: the clock reading `now` plus `deltaMs`
   * milliseconds. Seconds and the sub-second remainder are added separately
   * and one carry restores the nanosecond range; the result is normalized
   * and lies exactly `deltaMs` milliseconds after `now`.
   */
  method GetAbsoluteTime(deltaMs: uint64, now: Timespec) returns (time: Timespec)
    requires Normalized(now)
    ensures Normalized(time)
    ensures TotalNs(time) == TotalNs(now) + deltaMs * 1000000
    ensures now.sec + deltaMs / 1000 <= time.sec <= now.sec + deltaMs / 1000 + 1
  {
    time := now;
    time := time.(sec := time.sec + deltaMs / 1000);
    time := time.(nsec := time.nsec + (deltaMs % 1000) * 1000000);
    if time.nsec >= 1000000000 {
      time := time.(sec := time.sec + 1);
      time := time.(nsec := time.nsec - 1000000000);
    }
  }

  /**
   * The interval `CxPlatSleep` passes to `nanosleep`: `ms / 1000` seconds and
   * `1000000 * (ms % 1000)` nanoseconds. It is normalized, holds whole
   * milliseconds, and reading it back in milliseconds gives `ms`.
   */
  function SleepInterval(ms: uint32): (ts: Timespec)
    ensures Normalized(ts)
    ensures ts.nsec % 1000000 == 0
    ensures ts.sec * 1000 + ts.nsec / 1000000 == ms
    ensures TotalNs(ts) == ms * 1000000
  {
    Timespec(ms / 1000, 1000000 * (ms % 1000))
  }
}
