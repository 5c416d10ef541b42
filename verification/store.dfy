/**
 * The shared Redis store as the concurrency cache uses it: one keyspace
 * whose keys hold sorted sets (slot ledgers) or integer strings (wait
 * counters), and the expiry instant of each key. Each Lua script, and the
 * single ZREM command, is one method that runs atomically; the store's
 * clock (Redis TIME, in seconds) is the explicit `now` argument, frozen for
 * the whole call.
 */
module RedisStore {
  import opened Wrappers
  import opened SlotLedger
  import opened WaitCounter

  /** What a key holds. */
  datatype Value = SortedSet(members: Ledger) | IntString(n: int)

  /** A reply: an integer, or the WRONGTYPE error of a key holding the other kind of value. */
  datatype Reply = Integer(n: int) | WrongType

  /** The integer a script returns for a yes/no answer. */
  function ReplyOf(granted: bool): Reply {
    Integer(if granted then 1 else 0)
  }

  /** How a sorted set is stored: Redis deletes a key whose sorted set becomes empty. */
  function StoredLedger(ledger: Ledger): Option<Value> {
    if ledger == map[] then None else Some(SortedSet(ledger))
  }

  /** How a counter is stored. */
  function StoredCounter(counter: Counter): Option<Value> {
    match counter
    case None => None
    case Some(n) => Some(IntString(n))
  }

  /** A value the scripts can leave behind: a non-empty sorted set or a non-negative counter. */
  predicate ValueOK(v: Value) {
    match v
    case SortedSet(members) => members != map[]
    case IntString(n) => n >= 0
  }

  class Store {
    /** key -> value, Redis's main dictionary. */
    var keyspace: map<string, Value>
    /** key -> the instant (seconds) after which the key no longer exists. */
    var expires: map<string, int>

    /** Only existing keys carry an expiry, and every stored value is one the scripts can produce. */
    ghost predicate Valid()
      reads this
    {
      && expires.Keys <= keyspace.Keys
      && forall key :: key in keyspace ==> ValueOK(keyspace[key])
    }

    /** Every key carries an expiry, so no abandoned key outlives its TTL. */
    ghost predicate AllKeysExpire()
      reads this
    {
      keyspace.Keys <= expires.Keys
    }

    constructor ()
      ensures Valid() && AllKeysExpire()
      ensures keyspace == map[] && expires == map[]
    {
      keyspace, expires := map[], map[];
    }

    function ValueAt(key: string): Option<Value>
      reads this
    {
      if key in keyspace then Some(keyspace[key]) else None
    }

    function DeadlineAt(key: string): Option<int>
      reads this
    {
      if key in expires then Some(expires[key]) else None
    }

    /** A key past its deadline is gone for every command that looks at it. */
    predicate Expired(key: string, now: int)
      reads this
    {
      key in expires && expires[key] < now
    }

    /** What a command running at `now` finds under `key`. */
    function LiveValue(key: string, now: int): Option<Value>
      reads this
    {
      if Expired(key, now) then None else ValueAt(key)
    }

    function LiveDeadline(key: string, now: int): Option<int>
      reads this
    {
      if Expired(key, now) then None else DeadlineAt(key)
    }

    /** The sorted set a command running at `now` sees (empty when there is none). */
    function LiveLedger(key: string, now: int): Ledger
      reads this
    {
      match LiveValue(key, now)
      case Some(SortedSet(members)) => members
      case _ => map[]
    }

    /** The counter a command running at `now` sees. */
    function LiveCounter(key: string, now: int): Counter
      reads this
    {
      match LiveValue(key, now)
      case Some(IntString(n)) => Some(n)
      case _ => None
    }

    predicate HoldsLedger(key: string, now: int)
      reads this
    {
      LiveValue(key, now).Some? && LiveValue(key, now).value.SortedSet?
    }

    predicate HoldsCounter(key: string, now: int)
      reads this
    {
      LiveValue(key, now).Some? && LiveValue(key, now).value.IntString?
    }

    /** `key` holds no counter: the sorted-set commands may run on it without WRONGTYPE. */
    predicate NoCounterAt(key: string)
      reads this
    {
      !(key in keyspace && keyspace[key].IntString?)
    }

    /** `key` holds no sorted set: the string commands may run on it without WRONGTYPE. */
    predicate NoLedgerAt(key: string)
      reads this
    {
      !(key in keyspace && keyspace[key].SortedSet?)
    }

    /** Every key other than `key` is as it was. */
    twostate predicate OthersUnchanged(key: string)
      reads this
    {
      keyspace - {key} == old(keyspace) - {key} && expires - {key} == old(expires) - {key}
    }

    /** Lazy expiry: a command that touches an expired key first deletes it. */
    method ExpireIfNeeded(key: string, now: int)
      requires Valid()
      modifies this
      ensures Valid()
      ensures keyspace == if old(Expired(key, now)) then old(keyspace) - {key} else old(keyspace)
      ensures expires == if old(Expired(key, now)) then old(expires) - {key} else old(expires)
      ensures OthersUnchanged(key)
    {
      if key in expires && expires[key] < now {
        keyspace := keyspace - {key};
        expires := expires - {key};
      }
    }

    /** Stores a sorted set; an empty one deletes the key and its expiry. */
    method PutLedger(key: string, ledger: Ledger)
      requires Valid() && NoCounterAt(key)
      modifies this
      ensures Valid()
      ensures keyspace == if ledger == map[] then old(keyspace) - {key} else old(keyspace)[key := SortedSet(ledger)]
      ensures expires == if ledger == map[] then old(expires) - {key} else old(expires)
      ensures OthersUnchanged(key)
    {
      if ledger == map[] {
        keyspace := keyspace - {key};
        expires := expires - {key};
      } else {
        keyspace := keyspace[key := SortedSet(ledger)];
      }
    }

    /** The sorted set stored under `key`, for a key that holds no counter. */
    function LedgerAt(key: string): Ledger
      reads this
    {
      if key in keyspace && keyspace[key].SortedSet? then keyspace[key].members else map[]
    }

    /** ZREMRANGEBYSCORE key -inf max */
    method ZRemRangeByScore(key: string, max: int)
      requires Valid() && NoCounterAt(key)
      modifies this
      ensures Valid()
      ensures keyspace == (var live := Sweep(old(LedgerAt(key)), max);
                           if live == map[] then old(keyspace) - {key} else old(keyspace)[key := SortedSet(live)])
      ensures expires == if Sweep(old(LedgerAt(key)), max) == map[] then old(expires) - {key} else old(expires)
      ensures OthersUnchanged(key)
    {
      PutLedger(key, Sweep(LedgerAt(key), max));
    }

    /** ZSCORE key member */
    method ZScore(key: string, member: string) returns (score: Option<int>)
      requires NoCounterAt(key)
      ensures score.Some? <==> member in LedgerAt(key)
      ensures score.Some? ==> score.value == LedgerAt(key)[member]
    {
      var ledger := LedgerAt(key);
      score := if member in ledger then Some(ledger[member]) else None;
    }

    /** ZCARD key */
    method ZCard(key: string) returns (count: nat)
      requires NoCounterAt(key)
      ensures count == |LedgerAt(key)|
    {
      count := |LedgerAt(key)|;
    }

    /** ZADD key score member: adds the member or moves its score. */
    method ZAdd(key: string, score: int, member: string)
      requires Valid() && NoCounterAt(key)
      modifies this
      ensures Valid()
      ensures keyspace == old(keyspace)[key := SortedSet(old(LedgerAt(key))[member := score])]
      ensures expires == old(expires)
      ensures OthersUnchanged(key)
    {
      var ledger := LedgerAt(key)[member := score];
      assert member in ledger;
      PutLedger(key, ledger);
    }

    /** EXPIRE key seconds, for a positive number of seconds: a no-op on a missing key. */
    method Expire(key: string, seconds: int, now: int)
      requires seconds > 0
      requires Valid()
      modifies this
      ensures Valid()
      ensures keyspace == old(keyspace)
      ensures expires == if key in keyspace then old(expires)[key := now + seconds] else old(expires)
      ensures OthersUnchanged(key)
    {
      if key in keyspace {
        expires := expires[key := now + seconds];
      }
    }

    /** The counter stored under `key`, for a key that holds no sorted set. */
    function CounterAt(key: string): Counter
      reads this
    {
      if key in keyspace && keyspace[key].IntString? then Some(keyspace[key].n) else None
    }

    /** GET key */
    method Get(key: string) returns (value: Counter)
      requires NoLedgerAt(key)
      ensures value == CounterAt(key)
    {
      value := CounterAt(key);
    }

    /** INCR key, from a non-negative value: a missing key counts as 0; the expiry is kept. */
    method Incr(key: string) returns (newVal: int)
      requires Valid() && NoLedgerAt(key)
      modifies this
      ensures Valid()
      ensures newVal == Current(old(CounterAt(key))) + 1
      ensures keyspace == old(keyspace)[key := IntString(newVal)]
      ensures expires == old(expires)
      ensures OthersUnchanged(key)
    {
      newVal := Current(CounterAt(key)) + 1;
      keyspace := keyspace[key := IntString(newVal)];
    }

    /** DECR key, on a positive counter: the expiry is kept. */
    method Decr(key: string) returns (newVal: int)
      requires Valid() && NoLedgerAt(key)
      requires Current(CounterAt(key)) > 0
      modifies this
      ensures Valid()
      ensures newVal == Current(old(CounterAt(key))) - 1
      ensures keyspace == old(keyspace)[key := IntString(newVal)]
      ensures expires == old(expires)
      ensures OthersUnchanged(key)
    {
      newVal := Current(CounterAt(key)) - 1;
      keyspace := keyspace[key := IntString(newVal)];
    }

    /** ZADD key now member followed by EXPIRE key ttl, the two commands of every admission. */
    method ZAddAndExpire(key: string, now: int, member: string, ttl: int)
      requires Valid() && NoCounterAt(key) && ttl > 0
      modifies this
      ensures Valid()
      ensures old(AllKeysExpire()) ==> AllKeysExpire()
      ensures keyspace == old(keyspace)[key := SortedSet(old(LedgerAt(key))[member := now])]
      ensures expires == old(expires)[key := now + ttl]
      ensures OthersUnchanged(key)
    {
      ZAdd(key, now, member);
      Expire(key, ttl, now);
    }

    /** What the acquire script leaves under `key` when the key holds no counter. */
    twostate predicate AcquireEffect(key: string, maxConcurrency: int, ttl: int, requestID: string, now: int,
                                     reply: Reply)
      reads this
    {
      var outcome := Admit(old(LiveLedger(key, now)), maxConcurrency, ttl, requestID, now);
      && reply == ReplyOf(outcome.granted)
      && ValueAt(key) == StoredLedger(outcome.ledger)
      && DeadlineAt(key) == (if outcome.granted then Some(now + ttl)
                             else if outcome.ledger == map[] then None
                             else old(LiveDeadline(key, now)))
    }

    /**
     * The acquire script: sweep members at or below now - ttl, refresh an
     * existing request, else add the request while ZCARD is below
     * maxConcurrency; each admission resets the key's expiry to ttl.
     */
    method Acquire(key: string, maxConcurrency: int, ttl: int, requestID: string, now: int) returns (reply: Reply)
      requires Valid() && ttl > 0
      modifies this
      ensures Valid()
      ensures old(AllKeysExpire()) ==> AllKeysExpire()
      ensures OthersUnchanged(key)
      ensures old(HoldsCounter(key, now)) ==> reply == WrongType && keyspace == old(keyspace) && expires == old(expires)
      ensures !old(HoldsCounter(key, now)) ==> AcquireEffect(key, maxConcurrency, ttl, requestID, now, reply)
    {
      ghost var before := LiveLedger(key, now);
      ghost var deadline := LiveDeadline(key, now);
      ghost var outcome := Admit(before, maxConcurrency, ttl, requestID, now);
      ExpireIfNeeded(key, now);
      if key in keyspace && keyspace[key].IntString? {
        return WrongType;
      }
      assert LedgerAt(key) == before && DeadlineAt(key) == deadline;
      var expireBefore := now - ttl;
      ZRemRangeByScore(key, expireBefore);
      ghost var live := Sweep(before, expireBefore);
      assert LedgerAt(key) == live && ValueAt(key) == StoredLedger(live);
      assert DeadlineAt(key) == if live == map[] then None else deadline;
      var granted := AdmitSwept(key, maxConcurrency, ttl, requestID, now);
      assert granted == outcome.granted;
      if granted {
        assert outcome.ledger == live[requestID := now];
        return Integer(1);
      }
      assert outcome == Admission(false, live);
      return Integer(0);
    }

    /**
     * The second half of the acquire script, on a key already swept:
     * ZSCORE to refresh a present request, else ZCARD against the limit;
     * an admission is ZADD then EXPIRE.
     */
    method AdmitSwept(key: string, maxConcurrency: int, ttl: int, requestID: string, now: int) returns (granted: bool)
      requires Valid() && NoCounterAt(key) && ttl > 0
      modifies this
      ensures Valid()
      ensures old(AllKeysExpire()) ==> AllKeysExpire()
      ensures OthersUnchanged(key)
      ensures granted <==> requestID in old(LedgerAt(key)) || |old(LedgerAt(key))| < maxConcurrency
      ensures granted ==> keyspace == old(keyspace)[key := SortedSet(old(LedgerAt(key))[requestID := now])]
      ensures granted ==> expires == old(expires)[key := now + ttl]
      ensures !granted ==> keyspace == old(keyspace) && expires == old(expires)
    {
      var score := ZScore(key, requestID);
      if score.Some? {
        ZAddAndExpire(key, now, requestID, ttl);
        return true;
      }
      var count := ZCard(key);
      if count < maxConcurrency {
        ZAddAndExpire(key, now, requestID, ttl);
        return true;
      }
      return false;
    }

    /** What the count script leaves under `key` when the key holds no counter. */
    twostate predicate CountEffect(key: string, ttl: int, now: int, reply: Reply)
      reads this
    {
      var live := Sweep(old(LiveLedger(key, now)), now - ttl);
      && reply == Integer(|live|)
      && ValueAt(key) == StoredLedger(live)
      && DeadlineAt(key) == if live == map[] then None else old(LiveDeadline(key, now))
    }

    /** The count script: sweep members at or below now - ttl, then ZCARD. */
    method GetCount(key: string, ttl: int, now: int) returns (reply: Reply)
      requires Valid()
      modifies this
      ensures Valid()
      ensures old(AllKeysExpire()) ==> AllKeysExpire()
      ensures OthersUnchanged(key)
      ensures old(HoldsCounter(key, now)) ==> reply == WrongType && keyspace == old(keyspace) && expires == old(expires)
      ensures !old(HoldsCounter(key, now)) ==> CountEffect(key, ttl, now, reply)
    {
      ghost var before := LiveLedger(key, now);
      ghost var deadline := LiveDeadline(key, now);
      ExpireIfNeeded(key, now);
      if key in keyspace && keyspace[key].IntString? {
        return WrongType;
      }
      assert LedgerAt(key) == before && DeadlineAt(key) == deadline;
      var expireBefore := now - ttl;
      ZRemRangeByScore(key, expireBefore);
      ghost var live := Sweep(before, expireBefore);
      assert LedgerAt(key) == live && ValueAt(key) == StoredLedger(live);
      var count := ZCard(key);
      return Integer(count);
    }

    /** What ZREM leaves under `key` when the key holds no counter. */
    twostate predicate RemoveEffect(key: string, requestID: string, now: int)
      reads this
    {
      var after := RemoveMember(old(LiveLedger(key, now)), requestID);
      && ValueAt(key) == StoredLedger(after)
      && DeadlineAt(key) == if after == map[] then None else old(LiveDeadline(key, now))
    }

    /** ZREM key member, the command the release operations send. */
    method ZRem(key: string, requestID: string, now: int) returns (reply: Reply)
      requires Valid()
      modifies this
      ensures Valid()
      ensures old(AllKeysExpire()) ==> AllKeysExpire()
      ensures OthersUnchanged(key)
      ensures old(HoldsCounter(key, now)) ==> reply == WrongType && keyspace == old(keyspace) && expires == old(expires)
      ensures !old(HoldsCounter(key, now)) ==> reply == Integer(if requestID in old(LiveLedger(key, now)) then 1 else 0)
      ensures !old(HoldsCounter(key, now)) ==> RemoveEffect(key, requestID, now)
    {
      ExpireIfNeeded(key, now);
      if key in keyspace && keyspace[key].IntString? {
        return WrongType;
      }
      var removed := if requestID in LedgerAt(key) then 1 else 0;
      PutLedger(key, RemoveMember(LedgerAt(key), requestID));
      return Integer(removed);
    }

    /** What the increment script leaves under `key` when the key holds no sorted set. */
    twostate predicate IncrementEffect(key: string, maxWait: int, ttl: int, now: int, reply: Reply)
      reads this
    {
      var entry := Increment(old(LiveCounter(key, now)), maxWait);
      && reply == ReplyOf(entry.granted)
      && ValueAt(key) == StoredCounter(entry.counter)
      && DeadlineAt(key) == if entry.setsExpiry then Some(now + ttl) else old(LiveDeadline(key, now))
    }

    /**
     * The increment script: refuse when the counter (absent reads 0) is at
     * or above maxWait; otherwise INCR, and EXPIRE only when the new value is 1.
     */
    method IncrementWait(key: string, maxWait: int, ttl: int, now: int) returns (reply: Reply)
      requires Valid() && ttl > 0
      modifies this
      ensures Valid()
      ensures old(AllKeysExpire()) ==> AllKeysExpire()
      ensures OthersUnchanged(key)
      ensures old(HoldsLedger(key, now)) ==> reply == WrongType && keyspace == old(keyspace) && expires == old(expires)
      ensures !old(HoldsLedger(key, now)) ==> IncrementEffect(key, maxWait, ttl, now, reply)
    {
      ExpireIfNeeded(key, now);
      if key in keyspace && keyspace[key].SortedSet? {
        return WrongType;
      }
      var current := Get(key);
      if Current(current) >= maxWait {
        return Integer(0);
      }
      var newVal := Incr(key);
      if newVal == 1 {
        Expire(key, ttl, now);
      }
      return Integer(1);
    }

    /** What the decrement script leaves under `key` when the key holds no sorted set. */
    twostate predicate DecrementEffect(key: string, now: int)
      reads this
    {
      && ValueAt(key) == StoredCounter(Decrement(old(LiveCounter(key, now))))
      && DeadlineAt(key) == old(LiveDeadline(key, now))
    }

    /** The decrement script: DECR only a present counter above 0; always replies 1. */
    method DecrementWait(key: string, now: int) returns (reply: Reply)
      requires Valid()
      modifies this
      ensures Valid()
      ensures old(AllKeysExpire()) ==> AllKeysExpire()
      ensures OthersUnchanged(key)
      ensures old(HoldsLedger(key, now)) ==> reply == WrongType && keyspace == old(keyspace) && expires == old(expires)
      ensures !old(HoldsLedger(key, now)) ==> reply == Integer(1) && DecrementEffect(key, now)
    {
      ExpireIfNeeded(key, now);
      if key in keyspace && keyspace[key].SortedSet? {
        return WrongType;
      }
      var current := Get(key);
      if current.Some? && current.value > 0 {
        var _ := Decr(key);
      }
      return Integer(1);
    }
  }
}
