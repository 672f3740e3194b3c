/**
 * Concrete runs after which the reconciliation job never settles an authorised payment: one that it never reaches,
 * for every page size, and one whose cart another order has.
 */
module StarvedJob {
  import opened Basics
  import opened Money
  import opened Records
  import opened PaymentAttempts
  import opened StripePayments
  import opened Protocol
  import opened ProtocolSafety
  import opened ProtocolSteps
  import opened ProtocolRuns
  import opened CaptureSafety
  import opened Reconciliation
  import opened ReconciliationJob
  import opened LateEvents

  /** An attempt whose session could not be created: marked, and nothing to ask about. */
  function StuckAttempt(key: Key): Attempt { ATTEMPT.(key := key, status := ReconciliationRequired) }

  /** One after the other, under the keys 0, 1, 2, and so on. */
  function StuckAttempts(n: nat): (r: seq<Attempt>)
    ensures |r| == n && forall i :: 0 <= i < n ==> r[i] == StuckAttempt(i)
  {
    if n == 0 then [] else StuckAttempts(n - 1) + [StuckAttempt(n - 1)]
  }

  function StuckWorld(n: nat): World { At(DRAFTED.(attempts := StuckAttempts(n)), NO_PROVIDER) }

  function PrepareWith(key: Key): Step { PrepareStep(PrepareInput(0, 0, Some(CAPABILITY), key, Guest), 0) }

  lemma KeyIsFree(n: nat)
    ensures FindAttempt(StuckAttempts(n), 0, n).None?
  {
  }

  lemma AnotherIsPrepared(n: nat)
    ensures Next(StuckWorld(n), PrepareWith(n))
         == At(DRAFTED.(attempts := StuckAttempts(n) + [ATTEMPT.(key := n)]), NO_PROVIDER)
  {
    hide Prepare, FindAttempt;
    KeyIsFree(n);
    SamplePrepare(StuckAttempts(n), n);
  }

  lemma AnotherGetsStuck(n: nat)
    ensures Next(At(DRAFTED.(attempts := StuckAttempts(n) + [ATTEMPT.(key := n)]), NO_PROVIDER), MarkUnresolved(n, 0))
         == StuckWorld(n + 1)
  {
    hide Next;
    var attempts := StuckAttempts(n) + [ATTEMPT.(key := n)];
    MarkedWrites(At(DRAFTED.(attempts := attempts), NO_PROVIDER), n, 0);
    assert attempts[n := StuckAttempt(n)] == StuckAttempts(n + 1);
  }

  lemma {:induction false} StuckIsReachable(n: nat)
    ensures Reachable(StuckWorld(n))
  {
    hide Reachable, Next;
    if n == 0 {
      DraftIsReachable();
      assert StuckWorld(0) == At(DRAFTED, NO_PROVIDER);
    } else {
      StuckIsReachable(n - 1);
      AnotherIsPrepared(n - 1);
      AnotherGetsStuck(n - 1);
      TwoSteps(StuckWorld(n - 1), PrepareWith(n - 1), MarkUnresolved(n - 1, 0));
      ReachableOn(StuckWorld(n - 1), [PrepareWith(n - 1), MarkUnresolved(n - 1, 0)]);
    }
  }

  // ----- One more attempt, which is paid -----

  function PaidAttempts(n: nat): seq<Attempt> { StuckAttempts(n) + [PENDING_ATTEMPT.(key := n)] }

  function PaidDb(n: nat): Db { DRAFTED.(attempts := PaidAttempts(n)) }

  function PaidProvider(n: nat): Provider {
    Provider(map[n := SESSION.(status := SessionComplete)],
             map[n := Intent(21, RequiresCapture, {Open, RequiresCapture})], {})
  }

  function WithSession(n: nat): Provider { Provider(map[n := SESSION], map[], {}) }

  function WithIntent(n: nat): Provider { Provider(map[n := SESSION], map[n := Intent(21, Open, {Open})], {}) }

  lemma SessionIsCreated(n: nat)
    ensures var db := DRAFTED.(attempts := StuckAttempts(n) + [ATTEMPT.(key := n)]);
            Next(At(db, NO_PROVIDER), CreateSession(n, SESSION_ID)) == At(db, WithSession(n))
  {
    hide Prepare;
    assert NewSession(ATTEMPT.(key := n), 11) == SESSION;
  }

  lemma RecordedStep(w: World, a: AttemptId)
    requires a in w.provider.sessions && a < |w.db.attempts|
    requires IsActive(w.db.attempts[a].status) && w.db.attempts[a].sessionId.None?
    requires w.db.attempts[a].sessionExpiresAt.None?
    ensures Next(w, RecordSession(a, 0)) == w.(db := SetAttempt(w.db, a, w.db.attempts[a].(
      pendingAt := OrElse(w.db.attempts[a].pendingAt, 0), sessionExpiresAt := Some(w.provider.sessions[a].expiresAt),
      sessionId := Some(w.provider.sessions[a].id), status := Pending, updatedAt := 0)))
  {
    hide SetAttempt, OrElse;
  }

  lemma SessionIsStored(n: nat)
    ensures var db := DRAFTED.(attempts := StuckAttempts(n) + [ATTEMPT.(key := n)]);
            Next(At(db, WithSession(n)), RecordSession(n, 0)) == At(PaidDb(n), WithSession(n))
  {
    hide Next;
    var attempts := StuckAttempts(n) + [ATTEMPT.(key := n)];
    RecordedStep(At(DRAFTED.(attempts := attempts), WithSession(n)), n);
    assert attempts[n := PENDING_ATTEMPT.(key := n)] == PaidAttempts(n);
  }

  lemma IntentIsOpenedFor(n: nat, db: Db)
    ensures Next(At(db, WithSession(n)), OpenIntent(n, REFERENCE)) == At(db, WithIntent(n))
  {
  }

  lemma AuthorisedStep(w: World, a: AttemptId)
    requires a in w.provider.sessions && w.provider.sessions[a].status == SessionOpen
    requires a in w.provider.intents && w.provider.intents[a].status == Open
    ensures Next(w, AuthorizeIntent(a)) == SetSession(SetIntent(w, a, RequiresCapture), a, SessionComplete)
  {
    hide SetSession, SetIntent;
  }

  lemma IntentIsPaid(n: nat, db: Db)
    ensures Next(At(db, WithIntent(n)), AuthorizeIntent(n)) == At(db, PaidProvider(n))
  {
    hide Next;
    AuthorisedStep(At(db, WithIntent(n)), n);
    assert {Open} + {RequiresCapture} == {Open, RequiresCapture};
  }

  lemma PaidIsReachable(n: nat)
    ensures Reachable(At(PaidDb(n), PaidProvider(n)))
  {
    hide Reachable, Next;
    StuckIsReachable(n);
    AnotherIsPrepared(n);
    SessionIsCreated(n);
    SessionIsStored(n);
    IntentIsOpenedFor(n, PaidDb(n));
    IntentIsPaid(n, PaidDb(n));
    var w := StuckWorld(n);
    ThreeSteps(w, PrepareWith(n), CreateSession(n, SESSION_ID), RecordSession(n, 0));
    ReachableOn(w, [PrepareWith(n), CreateSession(n, SESSION_ID), RecordSession(n, 0)]);
    var stored := Run(w, [PrepareWith(n), CreateSession(n, SESSION_ID), RecordSession(n, 0)]);
    TwoSteps(stored, OpenIntent(n, REFERENCE), AuthorizeIntent(n));
    ReachableOn(stored, [OpenIntent(n, REFERENCE), AuthorizeIntent(n)]);
  }

  lemma {:induction false} SizeOfFirst(n: nat, s: set<nat>)
    requires forall i: nat :: i in s <==> i < n
    ensures |s| == n
  {
    if n == 0 {
      assert s == {};
    } else {
      SizeOfFirst(n - 1, s - {n - 1});
    }
  }

  lemma AllStuckAreAhead(n: nat)
    ensures |StuckAhead(PaidDb(n), n)| == n
  {
    SizeOfFirst(n, StuckAhead(PaidDb(n), n));
  }

  /**
   * For every page size: as many attempts whose session could not be created, and after them one that is paid. A single
   * pass over that one would settle it, and it matches the query, but however often the job runs it never takes it.
   */
  lemma PaidAttemptIsNeverReached(limit: nat) returns (w: World, a: AttemptId)
    ensures Reachable(w) && Retrievable(w, a) && IntentIs(w, a, RequiresCapture)
    ensures forall now: Time :: EXPIRY <= now ==> IsCandidate(w.db, a, now)
    ensures forall now: Time :: Agrees(Run(w, ReconcileSteps(w, a, now)), a)
    ensures forall turns: seq<Turn>, later: Time :: Undisturbed(w, limit, turns, a) ==>
      a !in Page(Job(w, limit, turns).db, limit, later)
  {
    hide Reachable, Agrees, ReconcileSteps, Run, Page, Job, StuckAhead, Undisturbed;
    w, a := At(PaidDb(limit), PaidProvider(limit)), limit;
    PaidIsReachable(limit);
    AllStuckAreAhead(limit);
    forall now: Time ensures Agrees(Run(w, ReconcileSteps(w, a, now)), a) { ReconcilePassConverges(w, a, now, now); }
    forall turns: seq<Turn>, later: Time | Undisturbed(w, limit, turns, a)
      ensures a !in Page(Job(w, limit, turns).db, limit, later)
    {
      JobNeverReaches(w, limit, turns, a, later);
    }
  }

  // ----- Two payments for one cart -----

  const SECOND_ID: AttemptId := 1
  const SECOND_SESSION_ID: SessionId := 12
  const SECOND_REFERENCE: PaymentReference := 22
  const FIRST := PENDING_ATTEMPT.(key := 0)
  const NEW_SECOND := ATTEMPT.(key := 1)
  const SECOND := PENDING_ATTEMPT.(key := 1, sessionId := Some(12))
  const DONE := SESSION.(status := SessionComplete)
  const PAID := Intent(21, RequiresCapture, {Open, RequiresCapture})

  const SECOND_SESSION := SESSION.(id := 12)
  const SECOND_OPEN := Intent(22, Open, {Open})
  const PAID_PROVIDER := PaidProvider(0)
  const WITH_SECOND := Provider(map[0 := DONE, 1 := SECOND_SESSION], map[0 := PAID], {})
  const OPENED_SECOND := WITH_SECOND.(intents := map[0 := PAID, 1 := SECOND_OPEN])
  const BOTH_PAID := Provider(
    map[0 := DONE, 1 := SECOND_SESSION.(status := SessionComplete)],
    map[0 := PAID, 1 := PAID.(reference := 22)], {})
  const TWO_PREPARED := DRAFTED.(attempts := [FIRST, NEW_SECOND])
  const TWO_PENDING := DRAFTED.(attempts := [FIRST, SECOND])

  /** The same draft under a second key, before the first payment is allocated. */
  lemma SecondIsPrepared()
    ensures Reachable(At(TWO_PREPARED, PAID_PROVIDER))
  {
    hide Reachable, Prepare;
    PaidIsReachable(0);
    assert PaidAttempts(0) == [FIRST];
    assert FindAttempt([FIRST], 0, 1).None?;
    SamplePrepare([FIRST], 1);
    assert [FIRST] + [NEW_SECOND] == [FIRST, NEW_SECOND];
    var w := At(DRAFTED.(attempts := [FIRST]), PAID_PROVIDER);
    assert Next(w, PrepareWith(SECOND_ID)) == At(TWO_PREPARED, PAID_PROVIDER);
    hide Next;
    OneStep(w, PrepareWith(SECOND_ID));
    ReachableOn(w, [PrepareWith(SECOND_ID)]);
  }

  lemma SecondSession()
    ensures Next(At(TWO_PREPARED, PAID_PROVIDER), CreateSession(SECOND_ID, SECOND_SESSION_ID))
         == At(TWO_PREPARED, WITH_SECOND)
  {
    assert NewSession(NEW_SECOND, 12) == SECOND_SESSION;
    assert PAID_PROVIDER.sessions[1 := SECOND_SESSION] == map[0 := DONE, 1 := SECOND_SESSION];
  }

  lemma SecondIsRecorded()
    ensures Next(At(TWO_PREPARED, WITH_SECOND), RecordSession(SECOND_ID, 0))
         == At(TWO_PENDING, WITH_SECOND)
  {
    hide Next;
    RecordedStep(At(TWO_PREPARED, WITH_SECOND), 1);
    assert [FIRST, NEW_SECOND][1 := SECOND] == [FIRST, SECOND];
  }

  lemma SecondIsOpened()
    ensures Next(At(TWO_PENDING, WITH_SECOND), OpenIntent(SECOND_ID, SECOND_REFERENCE))
         == At(TWO_PENDING, OPENED_SECOND)
  {
    assert map[0 := PAID][1 := SECOND_OPEN] == map[0 := PAID, 1 := SECOND_OPEN];
  }

  lemma SecondIsPaid()
    ensures Next(At(TWO_PENDING, OPENED_SECOND), AuthorizeIntent(SECOND_ID))
         == At(TWO_PENDING, BOTH_PAID)
  {
    hide Next;
    AuthorisedStep(At(TWO_PENDING, OPENED_SECOND), 1);
    assert {Open} + {RequiresCapture} == {Open, RequiresCapture};
    assert map[0 := PAID, 1 := SECOND_OPEN][1 := PAID.(reference := 22)] == BOTH_PAID.intents;
    assert map[0 := DONE, 1 := SECOND_SESSION][1 := SECOND_SESSION.(status := SessionComplete)] == BOTH_PAID.sessions;
  }

  lemma BothAreReachable()
    ensures Reachable(At(TWO_PENDING, BOTH_PAID))
  {
    hide Reachable, Next;
    SecondIsPrepared();
    SecondSession();
    SecondIsRecorded();
    SecondIsOpened();
    SecondIsPaid();
    var w := At(TWO_PREPARED, PAID_PROVIDER);
    TwoSteps(w, CreateSession(SECOND_ID, SECOND_SESSION_ID), RecordSession(SECOND_ID, 0));
    ReachableOn(w, [CreateSession(SECOND_ID, SECOND_SESSION_ID), RecordSession(SECOND_ID, 0)]);
    var w1 := Run(w, [CreateSession(SECOND_ID, SECOND_SESSION_ID), RecordSession(SECOND_ID, 0)]);
    TwoSteps(w1, OpenIntent(SECOND_ID, SECOND_REFERENCE), AuthorizeIntent(SECOND_ID));
    ReachableOn(w1, [OpenIntent(SECOND_ID, SECOND_REFERENCE), AuthorizeIntent(SECOND_ID)]);
  }

  // ----- The first one is captured -----

  const MATCHED := FIRST.(reference := Some(21))
  const SOLD := map[0 := PRODUCT.(stockAmount := 4)]
  const ORDER := PendingOrder(MATCHED, 0, 0, 0)
  const ALLOCATION := Allocation(0, 21, Allocated, 0, None, None, None)
  const MATCHED_DB := DRAFTED.(attempts := [MATCHED, SECOND])
  const ALLOCATED_DB := MATCHED_DB.(
    products := SOLD, orders := [ORDER], orderOfAttempt := map[0 := 0], allocations := map[0 := ALLOCATION])

  lemma FirstIsMatched()
    ensures Next(At(TWO_PENDING, BOTH_PAID), RecordIntent(ID, 0)) == At(MATCHED_DB, BOTH_PAID)
  {
    assert [FIRST, SECOND][0 := MATCHED] == [MATCHED, SECOND];
  }

  lemma SampleStock()
    ensures LinesByProduct([LINE]) == [LINE]
    ensures AllAvailable(map[0 := PRODUCT], [LINE], 0)
    ensures TakeStock(map[0 := PRODUCT], [LINE]) == Some(SOLD)
    ensures forall t: Time :: AllAvailable(SOLD, [LINE], t)
  {
    hide LineTotalMinor, IsValidOrderAmount;
    SamplePrices();
    assert [LINE][1..] == [];
    assert SortBy([LINE][1..], LineKey) == [];
    assert TakeStock(SOLD, []) == Some(SOLD);
    assert map[0 := PRODUCT][0 := PRODUCT.(stockAmount := 4)] == SOLD;
  }

  lemma FirstIsAllocated()
    ensures AllocateInventory(MATCHED_DB, ID, 0) == Ok(WithKind(ALLOCATED_DB, Some(Capture)))
  {
    hide AllAvailable, TakeStock, LinesByProduct;
    SampleStock();
    assert [] + [ORDER] == [ORDER];
  }

  lemma AllocationIsApplied()
    ensures Next(At(MATCHED_DB, BOTH_PAID), ApplyStateStep(ID, RequiresCapture, 0)) == At(ALLOCATED_DB, BOTH_PAID)
  {
    hide AllocateInventory;
    FirstIsAllocated();
  }

  const REQUESTED := ALLOCATION.(captureRequestedAt := Some(0), status := CaptureRequested)
  const REQUESTED_DB := ALLOCATED_DB.(allocations := map[0 := REQUESTED])
  const WITH_TICKET := BOTH_PAID.(tickets := {0})
  const CAPTURED := PAID.(status := IntentSucceeded, seen := {Open, RequiresCapture, IntentSucceeded})
  const ONE_CAPTURED := BOTH_PAID.(intents := map[0 := CAPTURED, 1 := PAID.(reference := 22)], tickets := {0})

  lemma TicketAdded(w: World, db: Db)
    requires w.provider.tickets == {}
    ensures NextTicket(w, ID, Ok(CaptureTicket(db, Some(21))))
         == w.(db := db, provider := w.provider.(tickets := {0}))
  {
    assert {} + {ID} == {0};
  }

  lemma CaptureIsRequested()
    ensures Next(At(ALLOCATED_DB, BOTH_PAID), RequestCaptureStep(ID, 0)) == At(REQUESTED_DB, WITH_TICKET)
  {
    hide NextTicket;
    assert map[0 := ALLOCATION][0 := REQUESTED] == map[0 := REQUESTED];
    assert RequestCapture(ALLOCATED_DB, ID, 0) == Ok(CaptureTicket(REQUESTED_DB, Some(21)));
    TicketAdded(At(ALLOCATED_DB, BOTH_PAID), REQUESTED_DB);
  }

  lemma CapturedStep(w: World, a: AttemptId)
    requires a in w.provider.tickets && a in w.provider.intents && w.provider.intents[a].status == RequiresCapture
    ensures Next(w, CaptureIntent(a)) == SetIntent(w, a, IntentSucceeded)
  {
    hide SetIntent;
  }

  lemma FirstIsCaptured()
    ensures Next(At(REQUESTED_DB, WITH_TICKET), CaptureIntent(ID)) == At(REQUESTED_DB, ONE_CAPTURED)
  {
    hide Next;
    CapturedStep(At(REQUESTED_DB, WITH_TICKET), 0);
    assert {Open, RequiresCapture} + {IntentSucceeded} == {Open, RequiresCapture, IntentSucceeded};
    assert BOTH_PAID.intents[0 := CAPTURED] == ONE_CAPTURED.intents;
  }

  lemma CapturedIsReachable()
    ensures Reachable(At(REQUESTED_DB, ONE_CAPTURED))
  {
    hide Reachable, Next;
    BothAreReachable();
    FirstIsMatched();
    AllocationIsApplied();
    CaptureIsRequested();
    FirstIsCaptured();
    var w := At(TWO_PENDING, BOTH_PAID);
    TwoSteps(w, RecordIntent(ID, 0), ApplyStateStep(ID, RequiresCapture, 0));
    ReachableOn(w, [RecordIntent(ID, 0), ApplyStateStep(ID, RequiresCapture, 0)]);
    var w1 := At(ALLOCATED_DB, BOTH_PAID);
    TwoSteps(w1, RequestCaptureStep(ID, 0), CaptureIntent(ID));
    ReachableOn(w1, [RequestCaptureStep(ID, 0), CaptureIntent(ID)]);
  }

  /** The settlement leaves a paid order on the cart, and nothing else that concerns the second payment. */
  ghost predicate FirstSettled(w: World) {
    && w.provider == ONE_CAPTURED
    && |w.db.attempts| == 2 && w.db.attempts[1] == SECOND
    && w.db.attempts[0].draftId == 0 && w.db.attempts[0].status == Succeeded
    && w.db.allocations.Keys == {0} && w.db.allocations[0].status == Captured
    && |w.db.orders| == 1 && w.db.orders[0].cartId == 0 && w.db.orders[0].status == OrderPaid
    && w.db.products == SOLD && w.db.drafts == map[0 := DRAFT]
  }

  lemma SettledIsReachable() returns (w: World)
    ensures Reachable(w) && FirstSettled(w)
  {
    hide Reachable, Inv, Next, FinalizeCapturedPayment, CartAfterPurchase;
    CapturedIsReachable();
    var w0, step := At(REQUESTED_DB, ONE_CAPTURED), ApplyStateStep(ID, IntentSucceeded, 0);
    ReachableHolds(w0);
    FinalizeResult(w0, 0, 0);
    CaptureIsApplied();
    OneStep(w0, step);
    ReachableOn(w0, [step]);
    w := Next(w0, step);
  }

  lemma CaptureIsApplied()
    ensures Next(At(REQUESTED_DB, ONE_CAPTURED), ApplyStateStep(ID, IntentSucceeded, 0))
         == Commit(At(REQUESTED_DB, ONE_CAPTURED), FinalizeCapturedPayment(REQUESTED_DB, ID, 0))
  {
    hide FinalizeCapturedPayment;
  }

  lemma SecondIsBlocked(w: World)
    requires FirstSettled(w)
    ensures Retrievable(w, SECOND_ID) && IntentIs(w, SECOND_ID, RequiresCapture)
    ensures Waiting(w, SECOND_ID) && AloneAndBlocked(w.db, SECOND_ID)
    ensures forall now: Time :: EXPIRY <= now ==> IsCandidate(w.db, SECOND_ID, now)
  {
    hide AllAvailable, LinesByProduct;
    SampleStock();
    assert CartTaken(w.db.orders, 0);
  }

  /**
   * Two keys on one draft, both paid. Once the first payment has its order, the second one's authorised money is looked
   * at by run after run of the job, which never captures it and never gives it back.
   */
  lemma SecondPaymentIsNeverSettled() returns (w: World)
    ensures Reachable(w) && |w.db.attempts| == 2 && w.db.attempts[0].draftId == w.db.attempts[1].draftId
    ensures AttemptIs(w, ID, Succeeded) && Waiting(w, SECOND_ID)
    ensures forall now: Time :: EXPIRY <= now ==> IsCandidate(w.db, SECOND_ID, now)
    ensures forall now: Time :: !Agrees(Run(w, ReconcileSteps(w, SECOND_ID, now)), SECOND_ID)
    ensures forall limit: nat, turns: seq<Turn> :: LeftAlone(turns) ==> Waiting(Job(w, limit, turns), SECOND_ID)
  {
    hide Reachable, Agrees, ReconcileSteps, Run, Job, Waiting, CartBlocks, IsCandidate, BlockedThroughout;
    w := SettledIsReachable();
    SecondIsBlocked(w);
    forall now: Time ensures !Agrees(Run(w, ReconcileSteps(w, SECOND_ID, now)), SECOND_ID) {
      assert CartBlocks(w.db, 1, now);
      ReconcilePassConverges(w, 1, now, now);
    }
    forall limit: nat, turns: seq<Turn> | LeftAlone(turns) ensures Waiting(Job(w, limit, turns), SECOND_ID) {
      AloneStaysBlocked(w, limit, turns, 1);
      JobNeverSettles(w, limit, turns, 1);
    }
  }
}
