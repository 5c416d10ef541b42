/**
 * The slot ledger of one scope (an account or a user), as a value: the
 * sorted set that maps each admitted request ID to its admission time in
 * seconds on the store's clock. The functions here are what the acquire
 * and count scripts and ZREM do to one such set; the lemmas are the
 * guarantees the component gives about them.
 */
module SlotLedger {

  /** request ID -> admission time (the member's score). */
  type Ledger = map<string, int>

  /**
   * ZREMRANGEBYSCORE key -inf expireBefore: every member whose score is at
   * most `expireBefore` goes, every other member stays with its score.
   */
  function Sweep(ledger: Ledger, expireBefore: int): (live: Ledger)
    ensures forall id :: id in live <==> id in ledger && ledger[id] > expireBefore
    ensures forall id :: id in live ==> live[id] == ledger[id]
  {
    map id | id in ledger && ledger[id] > expireBefore :: ledger[id]
  }

  /** The outcome of the acquire script on one ledger. */
  datatype Admission = Admission(granted: bool, ledger: Ledger)

  /**
   * The acquire script: sweep the members older than the TTL, then refresh
   * a request already present, or add a new one while the live count is
   * below `maxConcurrency`, or refuse.
   */
  function Admit(ledger: Ledger, maxConcurrency: int, ttl: int, requestID: string, now: int): Admission {
    var live := Sweep(ledger, now - ttl);
    if requestID in live then Admission(true, live[requestID := now])
    else if |live| < maxConcurrency then Admission(true, live[requestID := now])
    else Admission(false, live)
  }

  /** ZREM key requestID. */
  function RemoveMember(ledger: Ledger, requestID: string): (r: Ledger)
    ensures requestID !in r
    ensures forall id :: id != requestID ==> (id in r <==> id in ledger)
    ensures forall id :: id in r ==> r[id] == ledger[id]
    ensures |r| == if requestID in ledger then |ledger| - 1 else |ledger|
  {
    ledger - {requestID}
  }

  /** What the count script returns: the cardinality of the swept ledger (which it also stores). */
  function LiveCount(ledger: Ledger, ttl: int, now: int): (r: nat)
    ensures r <= |ledger|
    ensures r == 0 <==> forall id :: id in ledger ==> ledger[id] <= now - ttl
  {
    SweepNeverGrows(ledger, now - ttl);
    |Sweep(ledger, now - ttl)|
  }

  /**
   * What one acquire does, in terms of the ledger it started from: the
   * request is granted when it is still live or the live count is below
   * the limit; a granted request is stamped `now`, a refused one stays out;
   * every other member survives exactly when it is live, with its score.
   */
  lemma AdmitOutcome(ledger: Ledger, maxConcurrency: int, ttl: int, requestID: string, now: int)
    ensures var r := Admit(ledger, maxConcurrency, ttl, requestID, now);
      && (r.granted <==> (requestID in ledger && ledger[requestID] > now - ttl) || |Sweep(ledger, now - ttl)| < maxConcurrency)
      && (r.granted ==> requestID in r.ledger && r.ledger[requestID] == now)
      && (!r.granted ==> requestID !in r.ledger)
      && (forall id :: id != requestID ==> (id in r.ledger <==> id in ledger && ledger[id] > now - ttl))
      && (forall id :: id in r.ledger && id != requestID ==> r.ledger[id] == ledger[id])
  {
  }

  lemma {:induction false} SubmapCardinality(small: Ledger, big: Ledger)
    requires small.Keys <= big.Keys
    ensures |small| <= |big|
  {
    var rest := big.Keys - small.Keys;
    assert big.Keys == small.Keys + rest;
    assert small.Keys !! rest;
  }

  /** A sweep removes exactly the stale members, so it never adds to the count. */
  lemma SweepNeverGrows(ledger: Ledger, expireBefore: int)
    ensures |Sweep(ledger, expireBefore)| <= |ledger|
    ensures (forall id :: id in ledger ==> ledger[id] > expireBefore) ==> Sweep(ledger, expireBefore) == ledger
  {
    SubmapCardinality(Sweep(ledger, expireBefore), ledger);
  }

  /** Two sweeps are one sweep at the later cut-off; in particular a sweep is idempotent. */
  lemma SweepTwice(ledger: Ledger, first: int, second: int)
    ensures Sweep(Sweep(ledger, first), second) == Sweep(ledger, if first < second then second else first)
  {
  }

  /**
   * Re-acquiring a request that is still live always succeeds, even at
   * capacity; only its score moves to `now`, so the count does not change.
   */
  lemma AdmitRefreshesLiveRequest(ledger: Ledger, maxConcurrency: int, ttl: int, requestID: string, now: int)
    requires requestID in Sweep(ledger, now - ttl)
    ensures var live := Sweep(ledger, now - ttl);
      var r := Admit(ledger, maxConcurrency, ttl, requestID, now);
      && r.granted
      && r.ledger.Keys == live.Keys
      && |r.ledger| == |live|
      && r.ledger[requestID] == now
      && (forall id :: id in live && id != requestID ==> r.ledger[id] == live[id])
  {
    var live := Sweep(ledger, now - ttl);
    assert live[requestID := now].Keys == live.Keys;
  }

  /**
   * A request not in the swept ledger is admitted iff the live count is
   * below the limit; it then joins with score `now`, and otherwise the
   * ledger is just the swept one.
   */
  lemma AdmitNewRequest(ledger: Ledger, maxConcurrency: int, ttl: int, requestID: string, now: int)
    requires requestID !in Sweep(ledger, now - ttl)
    ensures var live := Sweep(ledger, now - ttl);
      var r := Admit(ledger, maxConcurrency, ttl, requestID, now);
      && (r.granted <==> |live| < maxConcurrency)
      && (r.granted ==> r.ledger.Keys == live.Keys + {requestID} && |r.ledger| == |live| + 1
                        && r.ledger[requestID] == now
                        && forall id :: id in live ==> r.ledger[id] == live[id])
      && (!r.granted ==> r.ledger == live)
  {
  }

  /** A refusal never changes anything beyond the sweep. */
  lemma AdmitRefusalOnlySweeps(ledger: Ledger, maxConcurrency: int, ttl: int, requestID: string, now: int)
    ensures var r := Admit(ledger, maxConcurrency, ttl, requestID, now);
      !r.granted <==> requestID !in Sweep(ledger, now - ttl) && |Sweep(ledger, now - ttl)| >= maxConcurrency
    ensures !Admit(ledger, maxConcurrency, ttl, requestID, now).granted ==>
      Admit(ledger, maxConcurrency, ttl, requestID, now).ledger == Sweep(ledger, now - ttl)
  {
  }

  /** One acquire with limit M keeps a ledger of at most M members at most M. */
  lemma AdmitKeepsBound(ledger: Ledger, maxConcurrency: int, ttl: int, requestID: string, now: int)
    requires |ledger| <= maxConcurrency
    ensures |Admit(ledger, maxConcurrency, ttl, requestID, now).ledger| <= maxConcurrency
  {
    var live := Sweep(ledger, now - ttl);
    SweepNeverGrows(ledger, now - ttl);
    if requestID in live {
      AdmitRefreshesLiveRequest(ledger, maxConcurrency, ttl, requestID, now);
    }
  }

  /**
   * A request admitted at `admittedAt` is re-admitted at any later call
   * made while its slot is still fresh, whatever the limit is then.
   */
  lemma ReacquireWithinTTL(ledger: Ledger, maxConcurrency: int, ttl: int, requestID: string, admittedAt: int,
                           laterLimit: int, now: int)
    requires Admit(ledger, maxConcurrency, ttl, requestID, admittedAt).granted
    requires now - ttl < admittedAt
    ensures var first := Admit(ledger, maxConcurrency, ttl, requestID, admittedAt);
      var second := Admit(first.ledger, laterLimit, ttl, requestID, now);
      second.granted && |second.ledger| <= |first.ledger|
  {
    var first := Admit(ledger, maxConcurrency, ttl, requestID, admittedAt);
    assert requestID in Sweep(first.ledger, now - ttl);
    AdmitRefreshesLiveRequest(first.ledger, laterLimit, ttl, requestID, now);
    SweepNeverGrows(first.ledger, now - ttl);
  }

  /** Removing a member touches no other member, and removing it again changes nothing. */
  lemma RemoveMemberOnlyRemovesIt(ledger: Ledger, requestID: string)
    ensures requestID !in RemoveMember(ledger, requestID)
    ensures forall id :: id != requestID ==>
      (id in RemoveMember(ledger, requestID) <==> id in ledger)
    ensures forall id :: id in RemoveMember(ledger, requestID) ==> RemoveMember(ledger, requestID)[id] == ledger[id]
    ensures RemoveMember(RemoveMember(ledger, requestID), requestID) == RemoveMember(ledger, requestID)
    ensures requestID !in ledger ==> RemoveMember(ledger, requestID) == ledger
  {
  }

  /** A ledger whose members were all admitted at or before `lastAdmission` is empty one TTL later. */
  lemma CountAfterTTLIsZero(ledger: Ledger, ttl: int, lastAdmission: int, now: int)
    requires forall id :: id in ledger ==> ledger[id] <= lastAdmission
    requires now - ttl >= lastAdmission
    ensures Sweep(ledger, now - ttl) == map[]
    ensures LiveCount(ledger, ttl, now) == 0
  {
  }

  /** Counting twice at the same instant gives the same answer and the same ledger. */
  lemma CountIdempotent(ledger: Ledger, ttl: int, now: int)
    ensures LiveCount(Sweep(ledger, now - ttl), ttl, now) == LiveCount(ledger, ttl, now)
    ensures Sweep(Sweep(ledger, now - ttl), now - ttl) == Sweep(ledger, now - ttl)
  {
    SweepTwice(ledger, now - ttl, now - ttl);
  }

  /**
   * The bound holds for a fixed limit only: with two live members, a
   * refresh under a lower limit of 1 still succeeds and the ledger keeps
   * both members.
   */
  lemma LoweredLimitIsNotEnforced(now: int)
    ensures var r := Admit(map["a" := now, "b" := now], 1, 60, "a", now);
      r.granted && |r.ledger| == 2
  {
    var ledger := map["a" := now, "b" := now];
    SweepNeverGrows(ledger, now - 60);
    AdmitRefreshesLiveRequest(ledger, 1, 60, "a", now);
  }

  /** Calls that change one scope's ledger, in the order the store runs them. */
  datatype SlotCall =
    | AcquireCall(requestID: string, now: int)
    | ReleaseCall(requestID: string)
    | CountCall(now: int)
    | KeyExpiry   // the whole key reaches its TTL and disappears

  function Apply(ledger: Ledger, call: SlotCall, maxConcurrency: int, ttl: int): Ledger {
    match call
    case AcquireCall(requestID, now) => Admit(ledger, maxConcurrency, ttl, requestID, now).ledger
    case ReleaseCall(requestID) => RemoveMember(ledger, requestID)
    case CountCall(now) => Sweep(ledger, now - ttl)
    case KeyExpiry => map[]
  }

  function Replay(ledger: Ledger, calls: seq<SlotCall>, maxConcurrency: int, ttl: int): Ledger
    decreases |calls|
  {
    if calls == [] then ledger
    else Replay(Apply(ledger, calls[0], maxConcurrency, ttl), calls[1..], maxConcurrency, ttl)
  }

  /**
   * Bounded concurrency: when every acquire on a scope uses the same limit
   * M and the ledger starts with at most M members, no sequence of
   * acquires, releases, counts and expiries takes it past M.
   */
  lemma {:induction false} ReplayKeepsBound(ledger: Ledger, calls: seq<SlotCall>, maxConcurrency: int, ttl: int)
    requires |ledger| <= maxConcurrency
    ensures |Replay(ledger, calls, maxConcurrency, ttl)| <= maxConcurrency
    decreases |calls|
  {
    if calls != [] {
      var next := Apply(ledger, calls[0], maxConcurrency, ttl);
      match calls[0] {
      case AcquireCall(requestID, now) =>
        AdmitKeepsBound(ledger, maxConcurrency, ttl, requestID, now);
      case ReleaseCall(requestID) =>
        SubmapCardinality(next, ledger);
      case CountCall(now) =>
        SweepNeverGrows(ledger, now - ttl);
      case KeyExpiry =>
      }
      ReplayKeepsBound(next, calls[1..], maxConcurrency, ttl);
    }
  }
}
