/**
 * The wait counter of one user, as a value: the integer stored under the
 * user's wait key, or nothing when the key is absent. The functions are
 * what the increment and decrement scripts do to it.
 */
module WaitCounter {
  import opened Wrappers

  /** The stored counter; `None` when the key does not exist. */
  type Counter = Option<int>

  /** What GET yields to the scripts: an absent key reads as zero. */
  function Current(counter: Counter): (r: int)
    ensures counter == None ==> r == 0
    ensures counter.Some? ==> r == counter.value
  {
    match counter
    case None => 0
    case Some(v) => v
  }

  /** The outcome of the increment script. */
  datatype Entry = Entry(granted: bool, counter: Counter, setsExpiry: bool)

  /**
   * The increment script: refuse at or above `maxWait`, otherwise INCR, and
   * set the key's expiry only when the new value is 1.
   */
  function Increment(counter: Counter, maxWait: int): (r: Entry)
    ensures r.granted <==> Current(counter) < maxWait
    ensures r.granted ==> r.counter.Some? && Current(r.counter) == Current(counter) + 1
    ensures !r.granted ==> r.counter == counter && !r.setsExpiry
    ensures r.setsExpiry <==> r.granted && Current(counter) == 0
  {
    var current := Current(counter);
    if current >= maxWait then Entry(false, counter, false)
    else
      var newVal := current + 1;
      Entry(true, Some(newVal), newVal == 1)
  }

  /** The decrement script: DECR only a present, positive counter. */
  function Decrement(counter: Counter): (r: Counter)
    ensures Current(counter) > 0 ==> r.Some? && Current(r) == Current(counter) - 1
    ensures Current(counter) <= 0 ==> r == counter
  {
    match counter
    case Some(v) => if v > 0 then Some(v - 1) else counter
    case None => counter
  }

  /** A counter in range for limit `maxWait`: absent, or a value in [0, maxWait]. */
  predicate InRange(counter: Counter, maxWait: int) {
    counter.None? || 0 <= counter.value <= maxWait
  }

  /** Leaving right after a granted entry restores the count that was read. */
  lemma DecrementUndoesIncrement(counter: Counter, maxWait: int)
    requires Current(counter) >= 0 && Increment(counter, maxWait).granted
    ensures Current(Decrement(Increment(counter, maxWait).counter)) == Current(counter)
  {
  }

  /** Entering right after a leave that had someone to remove restores the stored counter. */
  lemma IncrementUndoesDecrement(counter: Counter, maxWait: int)
    requires Current(counter) > 0 && Current(counter) <= maxWait
    ensures Increment(Decrement(counter), maxWait).granted
    ensures Increment(Decrement(counter), maxWait).counter == counter
  {
  }

  /**
   * Expiry is set again whenever the counter climbs back from zero, not
   * only on creation: a counter drained to 0 by a decrement gets a fresh
   * expiry on the next entry.
   */
  lemma ExpiryResetAfterDrain(maxWait: int)
    requires maxWait >= 1
    ensures Increment(None, maxWait).setsExpiry
    ensures Decrement(Increment(None, maxWait).counter) == Some(0)
    ensures Increment(Decrement(Increment(None, maxWait).counter), maxWait).setsExpiry
    ensures !Increment(Some(1), maxWait).setsExpiry
  {
  }

  /** Calls that change one user's wait counter. */
  datatype WaitCall = IncrementCall | DecrementCall | CounterExpiry

  function ApplyWait(counter: Counter, call: WaitCall, maxWait: int): Counter {
    match call
    case IncrementCall => Increment(counter, maxWait).counter
    case DecrementCall => Decrement(counter)
    case CounterExpiry => None
  }

  function ReplayWait(counter: Counter, calls: seq<WaitCall>, maxWait: int): Counter
    decreases |calls|
  {
    if calls == [] then counter
    else ReplayWait(ApplyWait(counter, calls[0], maxWait), calls[1..], maxWait)
  }

  /**
   * With one limit W for every increment, a counter that starts in [0, W]
   * (or absent) stays there: increments stop at W, decrements stop at 0.
   */
  lemma {:induction false} ReplayWaitKeepsRange(counter: Counter, calls: seq<WaitCall>, maxWait: int)
    requires InRange(counter, maxWait)
    ensures InRange(ReplayWait(counter, calls, maxWait), maxWait)
    ensures 0 <= Current(ReplayWait(counter, calls, maxWait))
    decreases |calls|
  {
    if calls != [] {
      var next := ApplyWait(counter, calls[0], maxWait);
      assert InRange(next, maxWait);
      ReplayWaitKeepsRange(next, calls[1..], maxWait);
    }
  }
}
