/**
 * The concurrency cache: the public operations the dispatcher calls. Each
 * one derives its key from an account or user ID and runs one script (or
 * ZREM) on the shared store, passing the configured slot TTL in seconds.
 * A script reply of 1 means granted; a store error comes back as Failure.
 */
module Cache {
  import opened Wrappers
  import opened ConcurrencyKeys
  import opened SlotLedger
  import opened WaitCounter
  import opened RedisStore

  /** A key holds the kind of value its prefix promises. */
  predicate KindFits(key: string, v: Value) {
    (v.SortedSet? ==> IsSlotKey(key)) && (v.IntString? ==> IsWaitKey(key))
  }

  /** Changing one key to a value of the right kind keeps every key of the right kind. */
  lemma WellKindedAfterKeyChange(before: map<string, Value>, after: map<string, Value>, key: string)
    requires forall k :: k in before ==> KindFits(k, before[k])
    requires after - {key} == before - {key}
    requires key in after ==> KindFits(key, after[key])
    ensures forall k :: k in after ==> KindFits(k, after[k])
  {
    forall k | k in after
      ensures KindFits(k, after[k])
    {
      if k != key {
        assert k in after - {key};
      }
    }
  }

  class ConcurrencyCache {
    const store: Store
    const slotTTLSeconds: int

    ghost predicate Valid()
      reads this, store
    {
      store.Valid() && slotTTLSeconds > 0
    }

    /** Every key of the store holds the kind of value its prefix promises. */
    ghost predicate KeysWellKinded()
      reads this, store
    {
      forall key :: key in store.keyspace ==> KindFits(key, store.keyspace[key])
    }

    /** NewConcurrencyCache: keeps the store handle and the normalised TTL in seconds. */
    constructor (store: Store, slotTTLMinutes: int)
      requires store.Valid()
      ensures Valid()
      ensures this.store == store
      ensures slotTTLSeconds == SlotTTLSeconds(slotTTLMinutes)
    {
      this.store := store;
      slotTTLSeconds := SlotTTLSeconds(slotTTLMinutes);
    }

    /** Acquire on a slot ledger key; shared by the account and user variants. */
    method AcquireSlot(key: string, maxConcurrency: int, requestID: string, now: int) returns (r: Result<bool>)
      requires Valid() && IsSlotKey(key)
      modifies store
      ensures Valid()
      ensures old(KeysWellKinded()) ==> KeysWellKinded() && r.Ok?
      ensures old(store.AllKeysExpire()) ==> store.AllKeysExpire()
      ensures store.OthersUnchanged(key)
      ensures r.Failure? <==> old(store.HoldsCounter(key, now))
      ensures r.Failure? ==> store.keyspace == old(store.keyspace) && store.expires == old(store.expires)
      ensures r.Ok? ==> store.AcquireEffect(key, maxConcurrency, slotTTLSeconds, requestID, now, ReplyOf(r.value))
    {
      KeySpacesDisjoint(key);
      var reply := store.Acquire(key, maxConcurrency, slotTTLSeconds, requestID, now);
      if old(KeysWellKinded()) {
        assert key in store.keyspace ==> store.keyspace[key].SortedSet?;
        WellKindedAfterKeyChange(old(store.keyspace), store.keyspace, key);
      }
      match reply
      case Integer(n) => r := Ok(n == 1);
      case WrongType => r := Failure;
    }

    /** Release on a slot ledger key: ZREM, whose count Go discards. */
    method ReleaseSlot(key: string, requestID: string, now: int) returns (r: Outcome)
      requires Valid() && IsSlotKey(key)
      modifies store
      ensures Valid()
      ensures old(KeysWellKinded()) ==> KeysWellKinded() && r.Pass?
      ensures old(store.AllKeysExpire()) ==> store.AllKeysExpire()
      ensures store.OthersUnchanged(key)
      ensures r.Fail? <==> old(store.HoldsCounter(key, now))
      ensures r.Fail? ==> store.keyspace == old(store.keyspace) && store.expires == old(store.expires)
      ensures r.Pass? ==> store.RemoveEffect(key, requestID, now)
    {
      KeySpacesDisjoint(key);
      var reply := store.ZRem(key, requestID, now);
      if old(KeysWellKinded()) {
        assert key in store.keyspace ==> store.keyspace[key].SortedSet?;
        WellKindedAfterKeyChange(old(store.keyspace), store.keyspace, key);
      }
      r := if reply.WrongType? then Fail else Pass;
    }

    /** Count on a slot ledger key. */
    method GetConcurrency(key: string, now: int) returns (r: Result<int>)
      requires Valid() && IsSlotKey(key)
      modifies store
      ensures Valid()
      ensures old(KeysWellKinded()) ==> KeysWellKinded() && r.Ok?
      ensures old(store.AllKeysExpire()) ==> store.AllKeysExpire()
      ensures store.OthersUnchanged(key)
      ensures r.Failure? <==> old(store.HoldsCounter(key, now))
      ensures r.Failure? ==> store.keyspace == old(store.keyspace) && store.expires == old(store.expires)
      ensures r.Ok? ==> store.CountEffect(key, slotTTLSeconds, now, Integer(r.value))
    {
      KeySpacesDisjoint(key);
      var reply := store.GetCount(key, slotTTLSeconds, now);
      if old(KeysWellKinded()) {
        assert key in store.keyspace ==> store.keyspace[key].SortedSet?;
        WellKindedAfterKeyChange(old(store.keyspace), store.keyspace, key);
      }
      match reply
      case Integer(n) => r := Ok(n);
      case WrongType => r := Failure;
    }

    method AcquireAccountSlot(accountID: Int64, maxConcurrency: int, requestID: string, now: int)
      returns (r: Result<bool>)
      requires Valid()
      modifies store
      ensures Valid()
      ensures old(KeysWellKinded()) ==> KeysWellKinded() && r.Ok?
      ensures old(store.AllKeysExpire()) ==> store.AllKeysExpire()
      ensures store.OthersUnchanged(AccountSlotKey(accountID))
      ensures r.Failure? <==> old(store.HoldsCounter(AccountSlotKey(accountID), now))
      ensures r.Failure? ==> store.keyspace == old(store.keyspace) && store.expires == old(store.expires)
      ensures r.Ok? ==>
        store.AcquireEffect(AccountSlotKey(accountID), maxConcurrency, slotTTLSeconds, requestID, now, ReplyOf(r.value))
    {
      r := AcquireSlot(AccountSlotKey(accountID), maxConcurrency, requestID, now);
    }

    method ReleaseAccountSlot(accountID: Int64, requestID: string, now: int) returns (r: Outcome)
      requires Valid()
      modifies store
      ensures Valid()
      ensures old(KeysWellKinded()) ==> KeysWellKinded() && r.Pass?
      ensures old(store.AllKeysExpire()) ==> store.AllKeysExpire()
      ensures store.OthersUnchanged(AccountSlotKey(accountID))
      ensures r.Fail? <==> old(store.HoldsCounter(AccountSlotKey(accountID), now))
      ensures r.Fail? ==> store.keyspace == old(store.keyspace) && store.expires == old(store.expires)
      ensures r.Pass? ==> store.RemoveEffect(AccountSlotKey(accountID), requestID, now)
    {
      r := ReleaseSlot(AccountSlotKey(accountID), requestID, now);
    }

    method GetAccountConcurrency(accountID: Int64, now: int) returns (r: Result<int>)
      requires Valid()
      modifies store
      ensures Valid()
      ensures old(KeysWellKinded()) ==> KeysWellKinded() && r.Ok?
      ensures old(store.AllKeysExpire()) ==> store.AllKeysExpire()
      ensures store.OthersUnchanged(AccountSlotKey(accountID))
      ensures r.Failure? <==> old(store.HoldsCounter(AccountSlotKey(accountID), now))
      ensures r.Failure? ==> store.keyspace == old(store.keyspace) && store.expires == old(store.expires)
      ensures r.Ok? ==> store.CountEffect(AccountSlotKey(accountID), slotTTLSeconds, now, Integer(r.value))
    {
      r := GetConcurrency(AccountSlotKey(accountID), now);
    }

    method AcquireUserSlot(userID: Int64, maxConcurrency: int, requestID: string, now: int)
      returns (r: Result<bool>)
      requires Valid()
      modifies store
      ensures Valid()
      ensures old(KeysWellKinded()) ==> KeysWellKinded() && r.Ok?
      ensures old(store.AllKeysExpire()) ==> store.AllKeysExpire()
      ensures store.OthersUnchanged(UserSlotKey(userID))
      ensures r.Failure? <==> old(store.HoldsCounter(UserSlotKey(userID), now))
      ensures r.Failure? ==> store.keyspace == old(store.keyspace) && store.expires == old(store.expires)
      ensures r.Ok? ==>
        store.AcquireEffect(UserSlotKey(userID), maxConcurrency, slotTTLSeconds, requestID, now, ReplyOf(r.value))
    {
      r := AcquireSlot(UserSlotKey(userID), maxConcurrency, requestID, now);
    }

    method ReleaseUserSlot(userID: Int64, requestID: string, now: int) returns (r: Outcome)
      requires Valid()
      modifies store
      ensures Valid()
      ensures old(KeysWellKinded()) ==> KeysWellKinded() && r.Pass?
      ensures old(store.AllKeysExpire()) ==> store.AllKeysExpire()
      ensures store.OthersUnchanged(UserSlotKey(userID))
      ensures r.Fail? <==> old(store.HoldsCounter(UserSlotKey(userID), now))
      ensures r.Fail? ==> store.keyspace == old(store.keyspace) && store.expires == old(store.expires)
      ensures r.Pass? ==> store.RemoveEffect(UserSlotKey(userID), requestID, now)
    {
      r := ReleaseSlot(UserSlotKey(userID), requestID, now);
    }

    method GetUserConcurrency(userID: Int64, now: int) returns (r: Result<int>)
      requires Valid()
      modifies store
      ensures Valid()
      ensures old(KeysWellKinded()) ==> KeysWellKinded() && r.Ok?
      ensures old(store.AllKeysExpire()) ==> store.AllKeysExpire()
      ensures store.OthersUnchanged(UserSlotKey(userID))
      ensures r.Failure? <==> old(store.HoldsCounter(UserSlotKey(userID), now))
      ensures r.Failure? ==> store.keyspace == old(store.keyspace) && store.expires == old(store.expires)
      ensures r.Ok? ==> store.CountEffect(UserSlotKey(userID), slotTTLSeconds, now, Integer(r.value))
    {
      r := GetConcurrency(UserSlotKey(userID), now);
    }

    method IncrementWaitCount(userID: Int64, maxWait: int, now: int) returns (r: Result<bool>)
      requires Valid()
      modifies store
      ensures Valid()
      ensures old(KeysWellKinded()) ==> KeysWellKinded() && r.Ok?
      ensures old(store.AllKeysExpire()) ==> store.AllKeysExpire()
      ensures store.OthersUnchanged(WaitQueueKey(userID))
      ensures r.Failure? <==> old(store.HoldsLedger(WaitQueueKey(userID), now))
      ensures r.Failure? ==> store.keyspace == old(store.keyspace) && store.expires == old(store.expires)
      ensures r.Ok? ==> store.IncrementEffect(WaitQueueKey(userID), maxWait, slotTTLSeconds, now, ReplyOf(r.value))
    {
      var key := WaitQueueKey(userID);
      KeySpacesDisjoint(key);
      var reply := store.IncrementWait(key, maxWait, slotTTLSeconds, now);
      if old(KeysWellKinded()) {
        assert key in store.keyspace ==> store.keyspace[key].IntString?;
        WellKindedAfterKeyChange(old(store.keyspace), store.keyspace, key);
      }
      match reply
      case Integer(n) => r := Ok(n == 1);
      case WrongType => r := Failure;
    }

    method DecrementWaitCount(userID: Int64, now: int) returns (r: Outcome)
      requires Valid()
      modifies store
      ensures Valid()
      ensures old(KeysWellKinded()) ==> KeysWellKinded() && r.Pass?
      ensures old(store.AllKeysExpire()) ==> store.AllKeysExpire()
      ensures store.OthersUnchanged(WaitQueueKey(userID))
      ensures r.Fail? <==> old(store.HoldsLedger(WaitQueueKey(userID), now))
      ensures r.Fail? ==> store.keyspace == old(store.keyspace) && store.expires == old(store.expires)
      ensures r.Pass? ==> store.DecrementEffect(WaitQueueKey(userID), now)
    {
      var key := WaitQueueKey(userID);
      KeySpacesDisjoint(key);
      var reply := store.DecrementWait(key, now);
      if old(KeysWellKinded()) {
        assert key in store.keyspace ==> store.keyspace[key].IntString?;
        WellKindedAfterKeyChange(old(store.keyspace), store.keyspace, key);
      }
      r := if reply.WrongType? then Fail else Pass;
    }
  }

  /** Two slots on one account: A and B get in, C is refused ... */
  method ScenarioSlotLimit(now: int) {
    var store := new Store();
    var cache := new ConcurrencyCache(store, 15);
    var key := AccountSlotKey(7);
    var a := cache.AcquireAccountSlot(7, 2, "A", now);
    assert a == Ok(true);
    assert store.LiveLedger(key, now) == map["A" := now];
    SweepNeverGrows(map["A" := now], now - 900);
    var b := cache.AcquireAccountSlot(7, 2, "B", now);
    assert b == Ok(true);
    assert store.LiveLedger(key, now) == map["A" := now, "B" := now];
    ScenarioSlotFull(cache, now);
  }

  /** ... C is refused while A and B hold both slots ... */
  method ScenarioSlotFull(cache: ConcurrencyCache, now: int)
    requires cache.Valid() && cache.KeysWellKinded() && cache.slotTTLSeconds == 900
    requires cache.store.LiveLedger(AccountSlotKey(7), now) == map["A" := now, "B" := now]
    modifies cache.store
  {
    var key := AccountSlotKey(7);
    SweepNeverGrows(map["A" := now, "B" := now], now - 900);
    var c := cache.AcquireAccountSlot(7, 2, "C", now);
    assert c == Ok(false);
    assert cache.store.LiveLedger(key, now) == map["A" := now, "B" := now];
    ScenarioSlotFreed(cache, now);
  }

  /** ... until B is released, after which C gets in. */
  method ScenarioSlotFreed(cache: ConcurrencyCache, now: int)
    requires cache.Valid() && cache.KeysWellKinded() && cache.slotTTLSeconds == 900
    requires cache.store.LiveLedger(AccountSlotKey(7), now) == map["A" := now, "B" := now]
    modifies cache.store
  {
    var key := AccountSlotKey(7);
    var released := cache.ReleaseAccountSlot(7, "B", now);
    assert released == Pass;
    assert map["A" := now, "B" := now] - {"B"} == map["A" := now];
    assert cache.store.LiveLedger(key, now) == map["A" := now];
    SweepNeverGrows(map["A" := now], now - 900);
    var c := cache.AcquireAccountSlot(7, 2, "C", now);
    assert c == Ok(true);
  }

  /** A wait queue of depth 1: the second entry is refused until the first one leaves. */
  method ScenarioWaitLimit(now: int) {
    var store := new Store();
    var cache := new ConcurrencyCache(store, 15);
    var first := cache.IncrementWaitCount(3, 1, now);
    assert first == Ok(true);
    var second := cache.IncrementWaitCount(3, 1, now);
    assert second == Ok(false);
    var left := cache.DecrementWaitCount(3, now);
    assert left == Pass;
    var third := cache.IncrementWaitCount(3, 1, now);
    assert third == Ok(true);
  }

  /** A slot one TTL old no longer counts and no longer blocks a new request. */
  method ScenarioStaleSlot(now: int) {
    var store := new Store();
    var cache := new ConcurrencyCache(store, 1);
    var a := cache.AcquireUserSlot(5, 1, "A", now);
    assert a == Ok(true);
    var count := cache.GetUserConcurrency(5, now + 60);
    assert count == Ok(0);
    var b := cache.AcquireUserSlot(5, 1, "B", now + 60);
    assert b == Ok(true);
  }
}
