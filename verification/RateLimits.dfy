/** The sliding-window limiters, and the full-history specification they refine. */
module RateLimits {

  type Identity = nat
  type Time = int      // milliseconds

  const MINUTE_MS: int := 60_000
  const HOUR_MS: int := 3_600_000
  const MAX_TRACKED_IDENTITIES: int := 10_000

  datatype Limits = Limits(minute: nat, hour: nat)

  const ACCOUNT_LIMITS := Limits(5, 20)
  const IP_LIMITS := Limits(10, 50)
  const REGISTRATION_LIMITS := Limits(5, 20)

  type Buckets = map<Identity, seq<Time>>

  /** The attempts strictly after `start`, in order. */
  function After(attempts: seq<Time>, start: Time): (r: seq<Time>)
    ensures |r| <= |attempts|
  {
    if attempts == [] then []
    else if attempts[0] > start then [attempts[0]] + After(attempts[1..], start)
    else After(attempts[1..], start)
  }

  function Attempts(m: Buckets, id: Identity): seq<Time> {
    if id in m then m[id] else []
  }

  function StoreAttempts(m: Buckets, id: Identity, attempts: seq<Time>): Buckets {
    if attempts == [] then m - {id} else m[id := attempts]
  }

  function Prune(m: Buckets, now: Time): Buckets {
    map id | id in m && After(m[id], now - HOUR_MS) != [] :: After(m[id], now - HOUR_MS)
  }

  datatype Decision = Decision(buckets: Buckets, allowed: bool)

  /** No room for another identity, even after dropping the expired ones. */
  predicate IsFull(m: Buckets, id: Identity, now: Time) {
    id !in m && |m| >= MAX_TRACKED_IDENTITIES && |Prune(m, now)| >= MAX_TRACKED_IDENTITIES
  }

  predicate Admits(limits: Limits, attempts: seq<Time>, now: Time) {
    |After(attempts, now - MINUTE_MS)| < limits.minute && |After(attempts, now - HOUR_MS)| < limits.hour
  }

  function Tracked(m: Buckets, id: Identity, now: Time): Buckets {
    if id !in m && |m| >= MAX_TRACKED_IDENTITIES then Prune(m, now) else m
  }

  function ConsumeAttempt(m: Buckets, limits: Limits, id: Identity, now: Time): Decision {
    var tracked := Tracked(m, id, now);
    if IsFull(m, id, now) then Decision(tracked, false)
    else
      var retained := After(Attempts(tracked, id), now - HOUR_MS);
      if Admits(limits, retained, now) then Decision(StoreAttempts(tracked, id, retained + [now]), true)
      else Decision(StoreAttempts(tracked, id, retained), false)
  }

  // ----- Filtering twice is filtering once -----

  lemma {:induction false} AfterAfter(attempts: seq<Time>, early: Time, late: Time)
    requires early <= late
    ensures After(After(attempts, early), late) == After(attempts, late)
  {
    if attempts != [] {
      AfterAfter(attempts[1..], early, late);
      if attempts[0] > early {
        assert After(attempts, early)[1..] == After(attempts[1..], early);
      }
    }
  }

  lemma {:induction false} AfterAppend(xs: seq<Time>, ys: seq<Time>, start: Time)
    ensures After(xs + ys, start) == After(xs, start) + After(ys, start)
  {
    if xs == [] {
      assert xs + ys == ys;
    } else {
      assert (xs + ys)[1..] == xs[1..] + ys;
      AfterAppend(xs[1..], ys, start);
    }
  }

  // ----- The specification: every accepted attempt is remembered for ever -----

  /** The buckets agree with the full history on everything that can still matter. */
  ghost predicate Agrees(m: Buckets, history: Buckets, clock: Time) {
    forall id: Identity :: After(Attempts(m, id), clock - HOUR_MS) == After(Attempts(history, id), clock - HOUR_MS)
  }

  function Remember(history: Buckets, id: Identity, now: Time): Buckets {
    history[id := Attempts(history, id) + [now]]
  }

  lemma AgreesLater(m: Buckets, history: Buckets, clock: Time, now: Time)
    requires Agrees(m, history, clock) && clock <= now
    ensures Agrees(m, history, now)
  {
    forall id: Identity
      ensures After(Attempts(m, id), now - HOUR_MS) == After(Attempts(history, id), now - HOUR_MS)
    {
      AfterAfter(Attempts(m, id), clock - HOUR_MS, now - HOUR_MS);
      AfterAfter(Attempts(history, id), clock - HOUR_MS, now - HOUR_MS);
    }
  }

  lemma PruneAgrees(m: Buckets, id: Identity, now: Time)
    ensures After(Attempts(Prune(m, now), id), now - HOUR_MS) == After(Attempts(m, id), now - HOUR_MS)
  {
    if id in m { AfterAfter(m[id], now - HOUR_MS, now - HOUR_MS); }
  }

  lemma StoreAgrees(m: Buckets, id: Identity, attempts: seq<Time>, other: Identity)
    ensures Attempts(StoreAttempts(m, id, attempts), other) == if other == id then attempts else Attempts(m, other)
  {
  }

  /** Pruned or not, a decision depends on the history in the last hour only. */
  lemma DecisionIsTheHistorys(m: Buckets, history: Buckets, limits: Limits, id: Identity, now: Time)
    requires Agrees(m, history, now)
    ensures !IsFull(m, id, now) ==>
      Admits(limits, After(Attempts(Tracked(m, id, now), id), now - HOUR_MS), now)
        == Admits(limits, Attempts(history, id), now)
  {
    PruneAgrees(m, id, now);
    var retained := After(Attempts(Tracked(m, id, now), id), now - HOUR_MS);
    var full := Attempts(history, id);
    assert retained == After(full, now - HOUR_MS);
    AfterAfter(full, now - HOUR_MS, now - HOUR_MS);
    AfterAfter(full, now - HOUR_MS, now - MINUTE_MS);
  }

  /**
   * For a clock that does not go back, a request is allowed exactly when the full history would allow it, capacity
   * refusals aside, and the buckets go on agreeing with the history.
   */
  lemma ConsumeRefinesHistory(m: Buckets, history: Buckets, limits: Limits, id: Identity, clock: Time, now: Time)
    requires Agrees(m, history, clock) && clock <= now
    ensures var d := ConsumeAttempt(m, limits, id, now);
            && d.allowed == (!IsFull(m, id, now) && Admits(limits, Attempts(history, id), now))
            && Agrees(d.buckets, if d.allowed then Remember(history, id, now) else history, now)
  {
    AgreesLater(m, history, clock, now);
    DecisionIsTheHistorys(m, history, limits, id, now);
    var d := ConsumeAttempt(m, limits, id, now);
    var tracked := Tracked(m, id, now);
    var retained := After(Attempts(tracked, id), now - HOUR_MS);
    var remembered := if d.allowed then Remember(history, id, now) else history;
    forall other: Identity
      ensures After(Attempts(d.buckets, other), now - HOUR_MS) == After(Attempts(remembered, other), now - HOUR_MS)
    {
      PruneAgrees(m, other, now);
      if !IsFull(m, id, now) {
        StoreAgrees(tracked, id, if d.allowed then retained + [now] else retained, other);
        AfterAfter(Attempts(tracked, id), now - HOUR_MS, now - HOUR_MS);
        AfterAppend(retained, [now], now - HOUR_MS);
        AfterAppend(Attempts(history, id), [now], now - HOUR_MS);
      }
    }
  }

  // ----- Capacity -----

  lemma StoreSize(m: Buckets, id: Identity, attempts: seq<Time>)
    ensures |StoreAttempts(m, id, attempts)| <= |m| + if id in m then 0 else 1
  {
    assert (m - {id}).Keys == m.Keys - {id};
    assert m[id := attempts].Keys == m.Keys + {id};
  }

  lemma PruneSize(m: Buckets, now: Time)
    ensures |Prune(m, now)| <= |m| && forall id :: id in Prune(m, now) ==> id in m
  {
    assert m.Keys == Prune(m, now).Keys + (m.Keys - Prune(m, now).Keys);
  }

  lemma ConsumeStaysWithinCapacity(m: Buckets, limits: Limits, id: Identity, now: Time)
    requires |m| <= MAX_TRACKED_IDENTITIES
    ensures |ConsumeAttempt(m, limits, id, now).buckets| <= MAX_TRACKED_IDENTITIES
  {
    PruneSize(m, now);
    var tracked := Tracked(m, id, now);
    var retained := After(Attempts(tracked, id), now - HOUR_MS);
    hide StoreAttempts, After, Prune, Admits, Attempts;
    StoreSize(tracked, id, retained);
    StoreSize(tracked, id, retained + [now]);
  }

  // ----- Whole request streams -----

  datatype Request = Request(id: Identity, at: Time)

  ghost predicate Ordered(requests: seq<Request>, from: Time) {
    && (forall i :: 0 <= i < |requests| ==> from <= requests[i].at)
    && (forall i, j :: 0 <= i < j < |requests| ==> requests[i].at <= requests[j].at)
  }

  function BucketsAfter(m: Buckets, limits: Limits, requests: seq<Request>): Buckets
    decreases |requests|
  {
    if requests == [] then m
    else BucketsAfter(ConsumeAttempt(m, limits, requests[0].id, requests[0].at).buckets, limits, requests[1..])
  }

  /** The accepted attempts, remembered for ever. */
  function HistoryAfter(m: Buckets, history: Buckets, limits: Limits, requests: seq<Request>): Buckets
    decreases |requests|
  {
    if requests == [] then history
    else
      var d := ConsumeAttempt(m, limits, requests[0].id, requests[0].at);
      HistoryAfter(d.buckets, if d.allowed then Remember(history, requests[0].id, requests[0].at) else history, limits,
                   requests[1..])
  }

  /** Attempts in order, and at each of them the window that ends there was within its limit. */
  ghost predicate WithinLimit(attempts: seq<Time>, window: Time, limit: nat) {
    forall k :: 0 <= k < |attempts| ==> |After(attempts[..k + 1], attempts[k] - window)| <= limit
  }

  ghost predicate InOrder(attempts: seq<Time>, clock: Time) {
    && (forall i, j :: 0 <= i < j < |attempts| ==> attempts[i] <= attempts[j])
    && (forall i :: 0 <= i < |attempts| ==> attempts[i] <= clock)
  }

  ghost predicate HistoryWithin(history: Buckets, limits: Limits, clock: Time) {
    forall id: Identity ::
      && InOrder(Attempts(history, id), clock)
      && WithinLimit(Attempts(history, id), MINUTE_MS, limits.minute)
      && WithinLimit(Attempts(history, id), HOUR_MS, limits.hour)
  }

  lemma AppendWithin(attempts: seq<Time>, now: Time, window: Time, limit: nat)
    requires WithinLimit(attempts, window, limit) && |After(attempts, now - window)| < limit && window > 0
    ensures WithinLimit(attempts + [now], window, limit)
  {
    var longer := attempts + [now];
    forall k | 0 <= k < |longer| ensures |After(longer[..k + 1], longer[k] - window)| <= limit {
      if k < |attempts| {
        assert longer[..k + 1] == attempts[..k + 1];
      } else {
        assert longer[..k + 1] == attempts + [now];
        AfterAppend(attempts, [now], now - window);
      }
    }
  }

  lemma RememberWithin(history: Buckets, limits: Limits, id: Identity, clock: Time, now: Time)
    requires HistoryWithin(history, limits, clock) && clock <= now && Admits(limits, Attempts(history, id), now)
    ensures HistoryWithin(Remember(history, id, now), limits, now)
  {
    var longer := Remember(history, id, now);
    forall other: Identity
      ensures InOrder(Attempts(longer, other), now)
      ensures WithinLimit(Attempts(longer, other), MINUTE_MS, limits.minute)
      ensures WithinLimit(Attempts(longer, other), HOUR_MS, limits.hour)
    {
      assert InOrder(Attempts(history, other), clock);
      if other == id {
        AppendWithin(Attempts(history, id), now, MINUTE_MS, limits.minute);
        AppendWithin(Attempts(history, id), now, HOUR_MS, limits.hour);
      }
    }
  }

  function LastOf(requests: seq<Request>, clock: Time): Time {
    if requests == [] then clock else requests[|requests| - 1].at
  }

  lemma {:induction false} StreamKeeps(m: Buckets, history: Buckets, limits: Limits, requests: seq<Request>,
                                       clock: Time)
    requires Agrees(m, history, clock) && HistoryWithin(history, limits, clock) && |m| <= MAX_TRACKED_IDENTITIES
    requires Ordered(requests, clock)
    ensures HistoryWithin(HistoryAfter(m, history, limits, requests), limits, LastOf(requests, clock))
    ensures |BucketsAfter(m, limits, requests)| <= MAX_TRACKED_IDENTITIES
    decreases |requests|
  {
    hide Agrees, HistoryWithin, ConsumeAttempt, Admits;
    if requests != [] {
      var r := requests[0];
      var d := ConsumeAttempt(m, limits, r.id, r.at);
      ConsumeRefinesHistory(m, history, limits, r.id, clock, r.at);
      ConsumeStaysWithinCapacity(m, limits, r.id, r.at);
      if d.allowed {
        RememberWithin(history, limits, r.id, clock, r.at);
      } else {
        LaterWithin(history, limits, clock, r.at);
      }
      StreamKeeps(d.buckets, if d.allowed then Remember(history, r.id, r.at) else history, limits, requests[1..], r.at);
    }
  }

  lemma LaterWithin(history: Buckets, limits: Limits, clock: Time, now: Time)
    requires HistoryWithin(history, limits, clock) && clock <= now
    ensures HistoryWithin(history, limits, now)
  {
    forall id: Identity ensures InOrder(Attempts(history, id), now) {
      assert InOrder(Attempts(history, id), clock);
    }
  }

  // ----- Any window, not only those that end at an attempt -----

  lemma {:induction false} AfterShorter(attempts: seq<Time>, early: Time, late: Time)
    requires early <= late
    ensures |After(attempts, late)| <= |After(attempts, early)|
  {
    if attempts != [] { AfterShorter(attempts[1..], early, late); }
  }

  /** The attempts in a window that ends at any time `end`. */
  function InWindow(attempts: seq<Time>, start: Time, end: Time): seq<Time> {
    if attempts == [] then []
    else
      var rest := InWindow(attempts[..|attempts| - 1], start, end);
      if start < attempts[|attempts| - 1] <= end then rest + [attempts[|attempts| - 1]] else rest
  }

  lemma {:induction false} InWindowIsAfter(attempts: seq<Time>, start: Time, end: Time)
    requires forall i :: 0 <= i < |attempts| ==> attempts[i] <= end
    ensures InWindow(attempts, start, end) == After(attempts, start)
  {
    if attempts != [] {
      var last := |attempts| - 1;
      InWindowIsAfter(attempts[..last], start, end);
      AfterAppend(attempts[..last], [attempts[last]], start);
      assert attempts == attempts[..last] + [attempts[last]];
    }
  }

  lemma {:induction false} AnyWindowWithin(attempts: seq<Time>, window: Time, limit: nat, end: Time)
    requires WithinLimit(attempts, window, limit)
    requires forall i, j :: 0 <= i < j < |attempts| ==> attempts[i] <= attempts[j]
    ensures |InWindow(attempts, end - window, end)| <= limit
  {
    if attempts != [] {
      var last := |attempts| - 1;
      if attempts[last] > end {
        forall k | 0 <= k < last ensures |After(attempts[..last][..k + 1], attempts[k] - window)| <= limit {
          assert attempts[..last][..k + 1] == attempts[..k + 1];
        }
        AnyWindowWithin(attempts[..last], window, limit, end);
      } else {
        InWindowIsAfter(attempts, end - window, end);
        assert attempts[..last + 1] == attempts;
        AfterShorter(attempts, attempts[last] - window, end - window);
      }
    }
  }

  /**
   * For any stream of requests in time order no identity has more than its limit accepted in any minute or any hour,
   * and never more than 10,000 identities are tracked.
   */
  lemma NoWindowExceedsItsLimit(limits: Limits, requests: seq<Request>, from: Time, id: Identity, end: Time)
    requires Ordered(requests, from)
    ensures var accepted := Attempts(HistoryAfter(map[], map[], limits, requests), id);
            && |InWindow(accepted, end - MINUTE_MS, end)| <= limits.minute
            && |InWindow(accepted, end - HOUR_MS, end)| <= limits.hour
    ensures |BucketsAfter(map[], limits, requests)| <= MAX_TRACKED_IDENTITIES
  {
    hide Ordered;
    assert Agrees(map[], map[], from) && HistoryWithin(map[], limits, from);
    StreamKeeps(map[], map[], limits, requests, from);
    var history := HistoryAfter(map[], map[], limits, requests);
    assert InOrder(Attempts(history, id), LastOf(requests, from));
    AnyWindowWithin(Attempts(history, id), MINUTE_MS, limits.minute, end);
    AnyWindowWithin(Attempts(history, id), HOUR_MS, limits.hour, end);
  }

  // ----- The limiters themselves -----

  class SlidingWindowBuckets {
    const limits: Limits
    var attempts: Buckets

    constructor (limits: Limits)
      ensures this.limits == limits && attempts == map[]
    {
      this.limits := limits;
      attempts := map[];
    }

    method Store(id: Identity, retained: seq<Time>)
      modifies this
      ensures attempts == StoreAttempts(old(attempts), id, retained)
    {
      if |retained| == 0 { attempts := attempts - {id}; } else { attempts := attempts[id := retained]; }
    }

    method PruneExpired(now: Time)
      modifies this
      ensures attempts == Prune(old(attempts), now)
    {
      var remaining := attempts.Keys;
      while remaining != {}
        invariant remaining <= old(attempts).Keys
        invariant attempts.Keys <= old(attempts).Keys
        invariant forall id :: id in remaining ==> id in attempts && attempts[id] == old(attempts)[id]
        invariant forall id :: id in old(attempts) && id !in remaining ==>
          if After(old(attempts)[id], now - HOUR_MS) == [] then id !in attempts
          else id in attempts && attempts[id] == After(old(attempts)[id], now - HOUR_MS)
        decreases |remaining|
      {
        var id :| id in remaining;
        Store(id, After(attempts[id], now - HOUR_MS));
        remaining := remaining - {id};
      }
    }

    method Consume(id: Identity, now: Time) returns (allowed: bool)
      modifies this
      ensures Decision(attempts, allowed) == ConsumeAttempt(old(attempts), limits, id, now)
    {
      if id !in attempts && |attempts| >= MAX_TRACKED_IDENTITIES {
        PruneExpired(now);
        if |attempts| >= MAX_TRACKED_IDENTITIES { return false; }
      }
      var existing := if id in attempts then attempts[id] else [];
      var retained := After(existing, now - HOUR_MS);
      var minuteCount := |After(retained, now - MINUTE_MS)|;
      AfterAfter(existing, now - HOUR_MS, now - HOUR_MS);
      if minuteCount >= limits.minute || |retained| >= limits.hour {
        Store(id, retained);
        return false;
      }
      Store(id, retained + [now]);
      allowed := true;
    }
  }

  /** One limiter per account and one per client address; an attempt on one leaves the other alone. */
  class LoginRateLimiter {
    const accountBuckets: SlidingWindowBuckets
    const ipBuckets: SlidingWindowBuckets

    ghost predicate Valid()
      reads this
    {
      accountBuckets != ipBuckets && accountBuckets.limits == ACCOUNT_LIMITS && ipBuckets.limits == IP_LIMITS
    }

    constructor ()
      ensures Valid() && fresh(accountBuckets) && fresh(ipBuckets)
      ensures accountBuckets.attempts == map[] && ipBuckets.attempts == map[]
    {
      accountBuckets := new SlidingWindowBuckets(ACCOUNT_LIMITS);
      ipBuckets := new SlidingWindowBuckets(IP_LIMITS);
    }

    method ConsumeIp(client: Identity, now: Time) returns (allowed: bool)
      requires Valid()
      modifies ipBuckets
      ensures Valid()
      ensures Decision(ipBuckets.attempts, allowed)
           == ConsumeAttempt(old(ipBuckets.attempts), Limits(10, 50), client, now)
    {
      allowed := ipBuckets.Consume(client, now);
    }

    method ConsumeAccount(account: Identity, now: Time) returns (allowed: bool)
      requires Valid()
      modifies accountBuckets
      ensures Valid()
      ensures Decision(accountBuckets.attempts, allowed)
           == ConsumeAttempt(old(accountBuckets.attempts), Limits(5, 20), account, now)
    {
      allowed := accountBuckets.Consume(account, now);
    }
  }

  class RegistrationRateLimiter {
    const buckets: SlidingWindowBuckets

    constructor ()
      ensures fresh(buckets) && buckets.limits == REGISTRATION_LIMITS && buckets.attempts == map[]
    {
      buckets := new SlidingWindowBuckets(REGISTRATION_LIMITS);
    }

    method Consume(client: Identity, now: Time) returns (allowed: bool)
      requires buckets.limits == REGISTRATION_LIMITS
      modifies buckets
      ensures Decision(buckets.attempts, allowed) == ConsumeAttempt(old(buckets.attempts), Limits(5, 20), client, now)
    {
      allowed := buckets.Consume(client, now);
    }
  }
}
