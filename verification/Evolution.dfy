/**
 * What a step never undoes: sealed snapshots, attached references, finished statuses, capture requests and the
 * provider's final answers. None of this needs the invariant; it is what the guards of the single transactions buy.
 */
module Evolution {
  import opened Basics
  import opened Money
  import opened Records
  import opened PaymentAttempts
  import opened StripePayments
  import opened CashOrders
  import opened CheckoutDrafts
  import opened Protocol

  /**
   * Everything a customer agreed to is sealed; what the provider said is never replaced; an ended attempt is frozen.
   */
  ghost predicate AttemptEvolves(x: Attempt, y: Attempt) {
    && y == x.(status := y.status, reference := y.reference, sessionId := y.sessionId,
               sessionExpiresAt := y.sessionExpiresAt, pendingAt := y.pendingAt, updatedAt := y.updatedAt)
    && (x.reference.Some? ==> y.reference == x.reference)
    && (x.sessionId.Some? ==> y.sessionId == x.sessionId && y.sessionExpiresAt == x.sessionExpiresAt)
    && (!IsActive(x.status) ==> y == x)
  }

  ghost predicate AllocationEvolves(x: Option<Allocation>, y: Option<Allocation>) {
    x.Some? ==>
      && y.Some?
      && y.value.orderId == x.value.orderId && y.value.reference == x.value.reference
      && y.value.authorizedAt == x.value.authorizedAt
      && (x.value.captureRequestedAt.Some? ==> y.value.captureRequestedAt == x.value.captureRequestedAt)
      && (x.value.status == Captured ==> y.value.status == Captured)
      && (x.value.status == Released ==> y == x)
  }

  ghost predicate ClaimEvolves(x: Option<Claim>, y: Option<Claim>) {
    x.Some? ==>
      && y.Some?
      && y.value.userId == x.value.userId && y.value.heldAt == x.value.heldAt
      && (x.value.status != Claimed ==> y == x)
  }

  ghost predicate OrderEvolves(x: Order, y: Order) {
    y == x.(status := y.status, paymentState := y.paymentState, paidAt := y.paidAt)
  }

  ghost predicate AttemptsEvolve(xs: seq<Attempt>, ys: seq<Attempt>) {
    |xs| <= |ys| && forall a :: 0 <= a < |xs| ==> AttemptEvolves(xs[a], ys[a])
  }

  ghost predicate OrdersEvolve(xs: seq<Order>, ys: seq<Order>) {
    |xs| <= |ys| && forall o :: 0 <= o < |xs| ==> OrderEvolves(xs[o], ys[o])
  }

  ghost predicate AllocationsEvolve(x: map<AttemptId, Allocation>, y: map<AttemptId, Allocation>) {
    forall a: nat :: AllocationEvolves(Lookup(x, a), Lookup(y, a))
  }

  ghost predicate ClaimsEvolve(x: map<AttemptId, Claim>, y: map<AttemptId, Claim>) {
    forall a: nat :: ClaimEvolves(Lookup(x, a), Lookup(y, a))
  }

  /** An accepted webhook stays accepted, with the payload it had. */
  ghost predicate ReceiptsEvolve(x: map<EventId, nat>, y: map<EventId, nat>) {
    forall e :: e in x ==> e in y && y[e] == x[e]
  }

  ghost predicate DbEvolves(x: Db, y: Db) {
    && AttemptsEvolve(x.attempts, y.attempts)
    && OrdersEvolve(x.orders, y.orders)
    && AllocationsEvolve(x.allocations, y.allocations)
    && ClaimsEvolve(x.claims, y.claims)
    && ReceiptsEvolve(x.receipts, y.receipts)
  }

  ghost predicate IntentEvolves(x: Option<Intent>, y: Option<Intent>) {
    x.Some? ==>
      && y.Some? && y.value.reference == x.value.reference && x.value.seen <= y.value.seen
      && (x.value.status in {IntentSucceeded, IntentCanceled} ==> y == x)
  }

  ghost predicate ProviderEvolves(x: Provider, y: Provider) {
    && x.tickets <= y.tickets
    && forall a: nat :: IntentEvolves(Lookup(x.intents, a), Lookup(y.intents, a))
  }

  ghost predicate Evolves(x: World, y: World) {
    DbEvolves(x.db, y.db) && ProviderEvolves(x.provider, y.provider)
  }

  lemma AllocationsEvolveOn(x: map<AttemptId, Allocation>, y: map<AttemptId, Allocation>, z: map<AttemptId, Allocation>)
    requires AllocationsEvolve(x, y) && AllocationsEvolve(y, z)
    ensures AllocationsEvolve(x, z)
  {
    forall a: nat ensures AllocationEvolves(Lookup(x, a), Lookup(z, a)) {
      assert AllocationEvolves(Lookup(x, a), Lookup(y, a)) && AllocationEvolves(Lookup(y, a), Lookup(z, a));
    }
  }

  lemma ClaimsEvolveOn(x: map<AttemptId, Claim>, y: map<AttemptId, Claim>, z: map<AttemptId, Claim>)
    requires ClaimsEvolve(x, y) && ClaimsEvolve(y, z)
    ensures ClaimsEvolve(x, z)
  {
    forall a: nat ensures ClaimEvolves(Lookup(x, a), Lookup(z, a)) {
      assert ClaimEvolves(Lookup(x, a), Lookup(y, a)) && ClaimEvolves(Lookup(y, a), Lookup(z, a));
    }
  }

  lemma DbEvolvesOn(x: Db, y: Db, z: Db)
    requires DbEvolves(x, y) && DbEvolves(y, z)
    ensures DbEvolves(x, z)
  {
    AllocationsEvolveOn(x.allocations, y.allocations, z.allocations);
    ClaimsEvolveOn(x.claims, y.claims, z.claims);
    forall a | 0 <= a < |x.attempts| ensures AttemptEvolves(x.attempts[a], z.attempts[a]) {
      assert AttemptEvolves(x.attempts[a], y.attempts[a]) && AttemptEvolves(y.attempts[a], z.attempts[a]);
    }
    forall o | 0 <= o < |x.orders| ensures OrderEvolves(x.orders[o], z.orders[o]) {
      assert OrderEvolves(x.orders[o], y.orders[o]) && OrderEvolves(y.orders[o], z.orders[o]);
    }
  }

  lemma EvolvesOn(x: World, y: World, z: World)
    requires Evolves(x, y) && Evolves(y, z)
    ensures Evolves(x, z)
  {
    DbEvolvesOn(x.db, y.db, z.db);
    forall a: nat ensures IntentEvolves(Lookup(x.provider.intents, a), Lookup(z.provider.intents, a)) {
      assert IntentEvolves(Lookup(x.provider.intents, a), Lookup(y.provider.intents, a));
      assert IntentEvolves(Lookup(y.provider.intents, a), Lookup(z.provider.intents, a));
    }
  }

  // ----- One transaction at a time -----

  ghost predicate OkEvolves(db: Db, outcome: Outcome<Db>) {
    outcome.Ok? ==> DbEvolves(db, outcome.value)
  }

  lemma SameAttempt(x: Attempt)
    ensures AttemptEvolves(x, x)
  {
  }

  lemma SameOrder(x: Order)
    ensures OrderEvolves(x, x)
  {
  }

  lemma AttemptsStay(xs: seq<Attempt>, ys: seq<Attempt>)
    requires xs <= ys
    ensures AttemptsEvolve(xs, ys)
  {
    hide AttemptEvolves;
    forall a | 0 <= a < |xs| ensures AttemptEvolves(xs[a], ys[a]) { SameAttempt(xs[a]); }
  }

  lemma OrdersStay(xs: seq<Order>, ys: seq<Order>)
    requires xs <= ys
    ensures OrdersEvolve(xs, ys)
  {
    hide OrderEvolves;
    forall o | 0 <= o < |xs| ensures OrderEvolves(xs[o], ys[o]) { SameOrder(xs[o]); }
  }

  lemma OneAttemptEvolves(xs: seq<Attempt>, a: AttemptId, y: Attempt)
    requires a < |xs| && AttemptEvolves(xs[a], y)
    ensures AttemptsEvolve(xs, xs[a := y])
  {
    hide AttemptEvolves;
    forall b | 0 <= b < |xs| ensures AttemptEvolves(xs[b], xs[a := y][b]) { SameAttempt(xs[b]); }
  }

  lemma OneOrderEvolves(xs: seq<Order>, o: OrderId, y: Order)
    requires o < |xs| && OrderEvolves(xs[o], y)
    ensures OrdersEvolve(xs, xs[o := y])
  {
    hide OrderEvolves;
    forall b | 0 <= b < |xs| ensures OrderEvolves(xs[b], xs[o := y][b]) { SameOrder(xs[b]); }
  }

  lemma OneAllocationEvolves(m: map<AttemptId, Allocation>, a: AttemptId, y: Allocation)
    requires AllocationEvolves(Lookup(m, a), Some(y))
    ensures AllocationsEvolve(m, m[a := y])
  {
  }

  lemma OneClaimEvolves(m: map<AttemptId, Claim>, a: AttemptId, y: Claim)
    requires ClaimEvolves(Lookup(m, a), Some(y))
    ensures ClaimsEvolve(m, m[a := y])
  {
  }

  lemma SameEvolves(db: Db)
    ensures DbEvolves(db, db)
  {
    AttemptsStay(db.attempts, db.attempts);
    OrdersStay(db.orders, db.orders);
  }

  lemma OtherTablesEvolve(x: Db, y: Db)
    requires y.attempts == x.attempts && y.orders == x.orders && y.allocations == x.allocations && y.claims == x.claims
    requires y.receipts == x.receipts
    ensures DbEvolves(x, y)
  {
    hide AttemptEvolves, OrderEvolves;
    AttemptsStay(x.attempts, y.attempts);
    OrdersStay(x.orders, y.orders);
  }

  /** Replacing one attempt row, its allocation or its claim evolves the database if the row itself evolves. */
  lemma RowEvolves(db: Db, a: AttemptId, attempt: Attempt)
    requires a < |db.attempts| && AttemptEvolves(db.attempts[a], attempt)
    ensures DbEvolves(db, SetAttempt(db, a, attempt))
  {
    hide AttemptEvolves;
    OneAttemptEvolves(db.attempts, a, attempt);
    OrdersStay(db.orders, db.orders);
  }

  lemma AllocationRowEvolves(db: Db, a: AttemptId, allocation: Allocation)
    requires AllocationEvolves(Lookup(db.allocations, a), Some(allocation))
    ensures DbEvolves(db, db.(allocations := db.allocations[a := allocation]))
  {
    hide AttemptEvolves;
    OneAllocationEvolves(db.allocations, a, allocation);
    AttemptsStay(db.attempts, db.attempts);
    OrdersStay(db.orders, db.orders);
  }

  lemma ClaimRowEvolves(db: Db, a: AttemptId, claim: Claim)
    requires ClaimEvolves(Lookup(db.claims, a), Some(claim))
    ensures DbEvolves(db, db.(claims := db.claims[a := claim]))
  {
    hide AttemptEvolves;
    OneClaimEvolves(db.claims, a, claim);
    AttemptsStay(db.attempts, db.attempts);
    OrdersStay(db.orders, db.orders);
  }

  lemma MarkReconciliationEvolves(db: Db, a: AttemptId, now: Time)
    ensures DbEvolves(db, MarkReconciliation(db, a, now))
  {
    hide DbEvolves;
    SameEvolves(db);
    if a < |db.attempts| && IsActive(db.attempts[a].status) {
      RowEvolves(db, a, db.attempts[a].(status := ReconciliationRequired, updatedAt := now));
    }
  }

  lemma MarkPendingEvolves(db: Db, a: AttemptId, reference: PaymentReference, now: Time)
    ensures OkEvolves(db, MarkPending(db, a, reference, now))
  {
    hide DbEvolves;
    SameEvolves(db);
    if MarkPending(db, a, reference, now).Ok? && IsActive(db.attempts[a].status) {
      RowEvolves(db, a, db.attempts[a].(
        pendingAt := Some(now), reference := Some(reference), status := Pending, updatedAt := now));
    }
  }

  lemma RecordSessionEvolves(db: Db, a: AttemptId, session: SessionId, expiresAt: Time, now: Time)
    ensures OkEvolves(db, MarkProviderSessionCreated(db, a, session, expiresAt, now))
  {
    hide DbEvolves;
    if MarkProviderSessionCreated(db, a, session, expiresAt, now).Ok? {
      var stored := db.attempts[a];
      RowEvolves(db, a, stored.(
        pendingAt := OrElse(stored.pendingAt, now), sessionExpiresAt := Some(expiresAt),
        sessionId := Some(session), status := Pending, updatedAt := now));
    }
  }

  lemma AttachEvolves(db: Db, a: AttemptId, reference: PaymentReference, now: Time)
    ensures OkEvolves(db, AttachReference(db, a, reference, now))
  {
    hide DbEvolves;
    SameEvolves(db);
    if AttachReference(db, a, reference, now).Ok? && db.attempts[a].reference.None? {
      var attempt := db.attempts[a];
      RowEvolves(db, a, attempt.(
        pendingAt := OrElse(attempt.pendingAt, now), reference := Some(reference), status := Pending,
        updatedAt := now));
    }
  }

  lemma ReleaseDefinitiveEvolves(db: Db, a: AttemptId, outcome: DefinitiveOutcome, now: Time)
    ensures OkEvolves(db, ReleaseDefinitiveOutcome(db, a, outcome, now))
  {
    hide DbEvolves;
    SameEvolves(db);
    if a < |db.attempts| && IsActive(db.attempts[a].status) {
      var status := if outcome.FailedOutcome? then DefinitivelyFailed else Cancelled;
      var db1 := SetAttempt(db, a, db.attempts[a].(status := status, updatedAt := now));
      RowEvolves(db, a, db.attempts[a].(status := status, updatedAt := now));
      if a in db.claims && db.claims[a].status == Claimed {
        ClaimRowEvolves(db1, a, db.claims[a].(status := ClaimReleased));
        DbEvolvesOn(db, db1, db1.(claims := db.claims[a := db.claims[a].(status := ClaimReleased)]));
      }
    }
  }

  lemma AllocateEvolves(db: Db, a: AttemptId, now: Time)
    requires a < |db.attempts| && db.attempts[a].reference.Some?
    ensures AllocateInventory(db, a, now).Ok? ==> DbEvolves(db, AllocateInventory(db, a, now).value.db)
  {
    hide AllAvailable, TakeStock, ProductsExist, LinesByProduct, MarkReconciliation, AttemptEvolves, OrderEvolves;
    SameEvolves(db);
    MarkReconciliationEvolves(db, a, now);
    var r := AllocateInventory(db, a, now);
    if r.Ok? && r.value.kind == Some(Capture) && a !in db.allocations {
      AttemptsStay(db.attempts, db.attempts);
      OrdersStay(db.orders, r.value.db.orders);
      OneAllocationEvolves(db.allocations, a, r.value.db.allocations[a]);
    }
  }

  lemma RequestCaptureEvolves(db: Db, a: AttemptId, now: Time)
    ensures RequestCapture(db, a, now).Ok? ==> DbEvolves(db, RequestCapture(db, a, now).value.db)
  {
    hide DbEvolves;
    SameEvolves(db);
    if a < |db.attempts| && a in db.allocations && IsLive(db.allocations[a].status) {
      var l := db.allocations[a];
      AllocationRowEvolves(db, a, l.(
        captureRequestedAt := OrElse(l.captureRequestedAt, now), status := CaptureRequested));
    }
  }

  lemma MarkUnresolvedEvolves(db: Db, a: AttemptId, now: Time)
    ensures DbEvolves(db, MarkAttemptReconciliation(db, a, now))
  {
    hide DbEvolves, MarkReconciliation;
    var db1 := MarkReconciliation(db, a, now);
    MarkReconciliationEvolves(db, a, now);
    if a in db.allocations && IsLive(db.allocations[a].status) {
      var l := db.allocations[a];
      assert db1.allocations == db.allocations by { MarkReconciliationKeepsAllocations(db, a, now); }
      AllocationRowEvolves(db1, a, l.(
        captureRequestedAt := OrElse(l.captureRequestedAt, now), status := CaptureUnresolved));
      DbEvolvesOn(db, db1, MarkAttemptReconciliation(db, a, now));
    }
  }

  lemma MarkReconciliationKeepsAllocations(db: Db, a: AttemptId, now: Time)
    ensures MarkReconciliation(db, a, now).allocations == db.allocations
  {
  }

  lemma MarkSucceededEvolves(db: Db, a: AttemptId, orderId: OrderId, now: Time)
    ensures OkEvolves(db, MarkSucceeded(db, a, orderId, now))
  {
    hide DbEvolves, SuccessfulOrderMatchesAttempt;
    SameEvolves(db);
    if a < |db.attempts| && db.attempts[a].status in {Pending, ReconciliationRequired} {
      var db1 := SetAttempt(db, a, db.attempts[a].(status := Succeeded, updatedAt := now));
      RowEvolves(db, a, db.attempts[a].(status := Succeeded, updatedAt := now));
      if a in db.claims && db.claims[a].status == Claimed {
        var claim := db.claims[a].(status := Consumed, consumedOrderId := Some(orderId));
        ClaimRowEvolves(db1, a, claim);
        DbEvolvesOn(db, db1, db1.(claims := db.claims[a := claim]));
      }
    }
  }

  lemma FinalizeEvolves(db: Db, a: AttemptId, now: Time)
    requires a < |db.attempts|
    ensures OkEvolves(db, FinalizeCapturedPayment(db, a, now))
  {
    hide MarkSucceeded, CartAfterPurchase, DbEvolves;
    SameEvolves(db);
    var r := FinalizeCapturedPayment(db, a, now);
    if db.attempts[a].status != Succeeded && r.Ok? {
      var o := db.orderOfAttempt[a];
      var paid := db.orders[o].(paidAt := Some(now), paymentState := PaymentPaid, status := OrderPaid);
      var captured := db.allocations[a].(capturedAt := Some(now), status := Captured);
      var db1 := db.(orders := db.orders[o := paid], allocations := db.allocations[a := captured]);
      OrderAndAllocationEvolve(db, db1, a, o);
      MarkSucceededEvolves(db1, a, o, now);
      var db2 := MarkSucceeded(db1, a, o, now).value;
      DbEvolvesOn(db, db1, db2);
      OtherTablesEvolve(db2, r.value);
      DbEvolvesOn(db, db2, r.value);
    }
  }

  lemma OrderAndAllocationEvolve(db: Db, db': Db, a: AttemptId, o: OrderId)
    requires o < |db.orders| == |db'.orders| && OrderEvolves(db.orders[o], db'.orders[o])
    requires a in db'.allocations && AllocationEvolves(Lookup(db.allocations, a), Some(db'.allocations[a]))
    requires db'.attempts == db.attempts && db'.claims == db.claims && db'.receipts == db.receipts
    requires db'.orders == db.orders[o := db'.orders[o]] && db'.allocations == db.allocations[a := db'.allocations[a]]
    ensures DbEvolves(db, db')
  {
    hide AttemptEvolves, OrderEvolves;
    OneOrderEvolves(db.orders, o, db'.orders[o]);
    OneAllocationEvolves(db.allocations, a, db'.allocations[a]);
    AttemptsStay(db.attempts, db.attempts);
  }

  lemma ReleaseUnpaidEvolves(db: Db, a: AttemptId, outcome: DefinitiveOutcome, now: Time)
    requires a < |db.attempts|
    ensures OkEvolves(db, ReleaseUnpaidPayment(db, a, outcome, now))
  {
    hide DbEvolves, ReleaseDefinitiveOutcome, ReturnStock, ProductsExist, LinesByProduct;
    ReleaseDefinitiveEvolves(db, a, outcome, now);
    if a in db.allocations && db.allocations[a].status != Released && ReleaseUnpaidPayment(db, a, outcome, now).Ok? {
      var o := db.allocations[a].orderId;
      var db1 := db.(
        products := ReturnStock(db.products, LinesByProduct(db.attempts[a].items)),
        allocations := db.allocations[a := db.allocations[a].(releasedAt := Some(now), status := Released)],
        orders := db.orders[o := db.orders[o].(paymentState := PaymentFailed, status := OrderCancelled)]);
      OrderAndAllocationEvolve(db, db1, a, o);
      ReleaseDefinitiveEvolves(db1, a, outcome, now);
      if ReleaseDefinitiveOutcome(db1, a, outcome, now).Ok? {
        DbEvolvesOn(db, db1, ReleaseDefinitiveOutcome(db1, a, outcome, now).value);
      }
    }
  }

  // ----- Whole transactions -----

  lemma ApplyStateEvolves(db: Db, intent: IntentSnapshot, a: AttemptId, now: Time)
    ensures ApplyIntentState(db, intent, a, now).Ok? ==> DbEvolves(db, ApplyIntentState(db, intent, a, now).value.db)
  {
    hide DbEvolves, AllocateInventory, FinalizeCapturedPayment, ReleaseUnpaidPayment, MarkReconciliation;
    if a < |db.attempts| && IntentMatchesAttempt(intent, db.attempts[a], a) {
      match intent.status {
        case RequiresCapture => AllocateEvolves(db, a, now);
        case IntentSucceeded => FinalizeEvolves(db, a, now);
        case IntentCanceled => ReleaseUnpaidEvolves(db, a, CancelledUnpaid, now);
        case Open => MarkReconciliationEvolves(db, a, now);
      }
    }
  }

  lemma IntentEventEvolves(db: Db, kind: IntentEventType, intent: IntentSnapshot, a: AttemptId, now: Time)
    ensures ApplyIntentEvent(db, kind, intent, a, now).Ok? ==>
      DbEvolves(db, ApplyIntentEvent(db, kind, intent, a, now).value.db)
  {
    hide DbEvolves, AllocateInventory, FinalizeCapturedPayment, ReleaseUnpaidPayment;
    var attached := AttachReference(db, a, intent.id, now);
    AttachEvolves(db, a, intent.id, now);
    if attached.Ok? && ApplyIntentEvent(db, kind, intent, a, now).Ok? {
      var db1 := attached.value;
      match kind {
        case CapturableUpdated => AllocateEvolves(db1, a, now);
        case PaymentSucceeded => FinalizeEvolves(db1, a, now);
        case PaymentCanceled => ReleaseUnpaidEvolves(db1, a, CancelledUnpaid, now);
        case OtherIntentEvent => MarkReconciliationEvolves(db, a, now);
      }
      if kind != OtherIntentEvent { DbEvolvesOn(db, db1, ApplyIntentEvent(db, kind, intent, a, now).value.db); }
    }
  }

  lemma SessionEventEvolves(db: Db, kind: SessionEventType, session: SessionSnapshot, a: AttemptId, now: Time)
    ensures OkEvolves(db, ApplySessionEvent(db, kind, session, a, now))
  {
    hide DbEvolves, ReleaseDefinitiveOutcome, MarkReconciliation, AttachReference;
    SameEvolves(db);
    var loaded := if session.intentId.Some? then AttachReference(db, a, session.intentId.value, now) else Ok(db);
    if session.intentId.Some? { AttachEvolves(db, a, session.intentId.value, now); }
    if loaded.Ok? && ApplySessionEvent(db, kind, session, a, now).Ok? {
      var db1 := loaded.value;
      SameEvolves(db1);
      ReleaseDefinitiveEvolves(db1, a, CancelledUnpaid, now);
      MarkReconciliationEvolves(db1, a, now);
      DbEvolvesOn(db, db1, ApplySessionEvent(db, kind, session, a, now).value);
    }
  }

  lemma ReceiptEvolves(db: Db, x: Db, receipts: map<EventId, nat>)
    requires DbEvolves(db, x) && ReceiptsEvolve(x.receipts, receipts)
    ensures DbEvolves(db, x.(receipts := receipts))
  {
  }

  // ----- Card transactions leave drafts, replay tables and receipts alone, and add no attempt -----

  ghost predicate CardRowsOnly(db: Db, db': Db) {
    && |db'.attempts| == |db.attempts|
    && db' == db.(products := db'.products, carts := db'.carts, attempts := db'.attempts,
                  allocations := db'.allocations, orders := db'.orders, orderOfAttempt := db'.orderOfAttempt,
                  claims := db'.claims)
  }

  ghost predicate OkCardRows(db: Db, outcome: Outcome<Db>) {
    outcome.Ok? ==> CardRowsOnly(db, outcome.value)
  }

  lemma AttemptRowOnly(db: Db, a: AttemptId, attempt: Attempt, claims: map<AttemptId, Claim>)
    requires a < |db.attempts|
    ensures CardRowsOnly(db, db) && CardRowsOnly(db, SetAttempt(db, a, attempt))
    ensures CardRowsOnly(db, SetAttempt(db, a, attempt).(claims := claims))
  {
  }

  lemma AttachRows(db: Db, a: AttemptId, reference: PaymentReference, now: Time)
    ensures OkCardRows(db, AttachReference(db, a, reference, now))
    ensures OkCardRows(db, MarkPending(db, a, reference, now))
  {
    hide OrElse, IsActive, SetAttempt, CardRowsOnly;
    if a < |db.attempts| {
      var attempt := db.attempts[a];
      AttemptRowOnly(db, a, attempt.(
        pendingAt := OrElse(attempt.pendingAt, now), reference := Some(reference), status := Pending,
        updatedAt := now), db.claims);
      AttemptRowOnly(db, a, attempt.(
        pendingAt := Some(now), reference := Some(reference), status := Pending, updatedAt := now), db.claims);
    }
  }

  lemma RecordSessionRows(db: Db, a: AttemptId, session: SessionId, expiresAt: Time, now: Time)
    ensures OkCardRows(db, MarkProviderSessionCreated(db, a, session, expiresAt, now))
  {
    var r := MarkProviderSessionCreated(db, a, session, expiresAt, now);
    if r.Ok? { assert r.value == db.(attempts := r.value.attempts); }
  }

  lemma EndRows(db: Db, a: AttemptId, now: Time)
    ensures OkCardRows(db, ReleaseDefinitiveOutcome(db, a, CancelledUnpaid, now))
    ensures CardRowsOnly(db, MarkReconciliation(db, a, now))
  {
    if a < |db.attempts| && IsActive(db.attempts[a].status) {
    }
  }

  lemma AllocateRows(db: Db, a: AttemptId, now: Time)
    requires a < |db.attempts| && db.attempts[a].reference.Some?
    ensures AllocateInventory(db, a, now).Ok? ==> CardRowsOnly(db, AllocateInventory(db, a, now).value.db)
  {
    hide AllAvailable, TakeStock, LinesByProduct, MarkReconciliation, PendingOrder;
    EndRows(db, a, now);
  }

  lemma CaptureRows(db: Db, a: AttemptId, now: Time)
    ensures RequestCapture(db, a, now).Ok? ==> CardRowsOnly(db, RequestCapture(db, a, now).value.db)
    ensures CardRowsOnly(db, MarkAttemptReconciliation(db, a, now))
  {
    hide MarkReconciliation;
    EndRows(db, a, now);
    if a in db.allocations && IsLive(db.allocations[a].status) {
      assert MarkAttemptReconciliation(db, a, now)
        == MarkReconciliation(db, a, now).(allocations := MarkAttemptReconciliation(db, a, now).allocations);
    }
  }

  lemma MarkSucceededRows(db: Db, a: AttemptId, orderId: OrderId, now: Time)
    ensures OkCardRows(db, MarkSucceeded(db, a, orderId, now))
  {
    hide SuccessfulOrderMatchesAttempt, SetAttempt, CardRowsOnly;
    if a < |db.attempts| {
      var paid := db.attempts[a].(status := Succeeded, updatedAt := now);
      AttemptRowOnly(db, a, paid, db.claims);
      if a in db.claims {
        AttemptRowOnly(db, a, paid, db.claims[a := db.claims[a].(
          status := Consumed, consumedOrderId := Some(orderId))]);
      }
    }
  }

  lemma FinalizeRows(db: Db, a: AttemptId, now: Time)
    requires a < |db.attempts|
    ensures OkCardRows(db, FinalizeCapturedPayment(db, a, now))
  {
    hide MarkSucceeded, CartAfterPurchase;
    if db.attempts[a].status != Succeeded && FinalizeCapturedPayment(db, a, now).Ok? {
      var o := db.orderOfAttempt[a];
      var paid := db.orders[o].(paidAt := Some(now), paymentState := PaymentPaid, status := OrderPaid);
      var captured := db.allocations[a].(capturedAt := Some(now), status := Captured);
      MarkSucceededRows(
        db.(orders := db.orders[o := paid], allocations := db.allocations[a := captured]), a, o, now);
    }
  }

  lemma ReleaseRows(db: Db, a: AttemptId, now: Time)
    requires a < |db.attempts|
    ensures OkCardRows(db, ReleaseUnpaidPayment(db, a, CancelledUnpaid, now))
  {
    hide LinesByProduct, ProductsExist, ReturnStock, ReleaseDefinitiveOutcome;
    EndRows(db, a, now);
    if a in db.allocations && db.allocations[a].status != Released && db.allocations[a].orderId < |db.orders|
       && ProductsExist(db.products, LinesByProduct(db.attempts[a].items)) {
      var o := db.allocations[a].orderId;
      EndRows(
        db.(products := ReturnStock(db.products, LinesByProduct(db.attempts[a].items)),
            allocations := db.allocations[a := db.allocations[a].(releasedAt := Some(now), status := Released)],
            orders := db.orders[o := db.orders[o].(paymentState := PaymentFailed, status := OrderCancelled)]), a, now);
    }
  }

  lemma ApplyStateRows(db: Db, intent: IntentSnapshot, a: AttemptId, now: Time)
    ensures ApplyIntentState(db, intent, a, now).Ok? ==> CardRowsOnly(db, ApplyIntentState(db, intent, a, now).value.db)
  {
    hide CardRowsOnly, AllocateInventory, FinalizeCapturedPayment, ReleaseUnpaidPayment, MarkReconciliation;
    if a < |db.attempts| {
      if db.attempts[a].reference.Some? { AllocateRows(db, a, now); }
      FinalizeRows(db, a, now);
      ReleaseRows(db, a, now);
      EndRows(db, a, now);
    }
  }

  lemma IntentEventRows(db: Db, kind: IntentEventType, intent: IntentSnapshot, a: AttemptId, now: Time)
    requires ApplyIntentEvent(db, kind, intent, a, now).Ok?
    ensures CardRowsOnly(db, ApplyIntentEvent(db, kind, intent, a, now).value.db)
  {
    hide AllocateInventory, FinalizeCapturedPayment, ReleaseUnpaidPayment, AttachReference;
    AttachRows(db, a, intent.id, now);
    AttachGives(db, a, intent.id, now);
    var db1 := AttachReference(db, a, intent.id, now).value;
    AllocateRows(db1, a, now);
    FinalizeRows(db1, a, now);
    ReleaseRows(db1, a, now);
  }

  lemma SessionEventRows(db: Db, kind: SessionEventType, session: SessionSnapshot, a: AttemptId, now: Time)
    ensures OkCardRows(db, ApplySessionEvent(db, kind, session, a, now))
  {
    hide AttachReference, ReleaseDefinitiveOutcome, MarkReconciliation, SessionMatchesAttempt;
    if session.intentId.Some? { AttachRows(db, a, session.intentId.value, now); }
    var loaded := if session.intentId.Some? then AttachReference(db, a, session.intentId.value, now) else Ok(db);
    if loaded.Ok? { EndRows(loaded.value, a, now); }
  }

  lemma HandlingRows(db: Db, event: Event, now: Time)
    requires HandleEvent(db, event, now).Ok?
    ensures CardRowsOnly(db, HandleEvent(db, event, now).value.db)
  {
    hide ApplyIntentEvent, ApplySessionEvent;
    match event.body {
      case OtherObject =>
      case IntentObject(kind, intent) => IntentEventRows(db, kind, intent, intent.metadata.value.attemptId, now);
      case SessionObject(kind, session) => SessionEventRows(db, kind, session, session.metadata.value.attemptId, now);
    }
  }

  predicate IsCardStep(step: Step) {
    step.RecordSession? || step.RecordIntent? || step.WebhookStep? || step.ApplyStateStep? || step.RequestCaptureStep?
    || step.MarkUnresolved? || step.ReleaseExpired?
  }

  predicate IsProviderStep(step: Step) {
    step.CreateSession? || step.OpenIntent? || step.AuthorizeIntent? || step.CaptureIntent? || step.CancelIntent?
    || step.ExpireSession?
  }

  predicate IsEditStep(step: Step) { step.EditCart? || step.EditProduct? || step.SetActiveUsers? }

  lemma ProviderLeavesDb(w: World, step: Step)
    requires IsProviderStep(step)
    ensures Next(w, step).db == w.db && Next(w, step).baseline == w.baseline
  {
    hide Prepare, MarkProviderSessionCreated, MarkPending, ProcessWebhook, ApplyIntentState, RequestCapture, NextTicket,
         MarkAttemptReconciliation, ReleaseDefinitiveOutcome, CreateCashOrder, SaveDraft, GenuineEvent, HeldSnapshot,
         NewSession, ReferenceUnused, ValidCartLines, SlugUnused;
    match step {
      case CreateSession(id, session) =>
      case OpenIntent(id, reference) =>
      case AuthorizeIntent(id) =>
      case CaptureIntent(id) =>
      case CancelIntent(id) =>
      case ExpireSession(id) =>
    }
  }

  lemma EditWritesThreeTables(w: World, step: Step)
    requires IsEditStep(step)
    ensures var db' := Next(w, step).db;
            db' == w.db.(carts := db'.carts, products := db'.products, activeUsers := db'.activeUsers)
  {
    hide Prepare, MarkProviderSessionCreated, MarkPending, ProcessWebhook, ApplyIntentState, RequestCapture, NextTicket,
         MarkAttemptReconciliation, ReleaseDefinitiveOutcome, CreateCashOrder, SaveDraft, GenuineEvent, HeldSnapshot,
         NewSession, ReferenceUnused, ValidCartLines, SlugUnused;
    match step {
      case EditCart(c, cart) =>
        if ValidCartLines(w.db.products, cart.items) {
          assert Next(w, step).db == w.db.(carts := w.db.carts[c := cart]);
        } else {
          assert Next(w, step) == w;
        }
      case EditProduct(p, product) =>
        if product.stockAmount >= 0 && SlugUnused(w.db.products, p, product.slug) {
          assert Next(w, step).db == w.db.(products := w.db.products[p := product]);
        } else {
          assert Next(w, step) == w;
        }
      case SetActiveUsers(users) => assert Next(w, step).db == w.db.(activeUsers := users);
    }
  }

  /** The database after one of the three transactions that write more than card rows. */
  lemma CommittedDb(w: World, step: Step)
    ensures step.PrepareStep? ==>
      var r := Prepare(w.db, step.input, step.now);
      Next(w, step).db == if r.Ok? then r.value.db else w.db
    ensures step.CashOrderStep? ==>
      var r := CreateCashOrder(w.db, step.context, step.checkout, step.now);
      Next(w, step).db == if r.Ok? then r.value.db else w.db
    ensures step.SaveDraftStep? ==>
      var r := SaveDraft(w.db, step.access, step.raw, step.key, step.draft, step.now, step.freshId);
      Next(w, step).db == if step.freshId !in w.db.drafts && r.Ok? then r.value.db else w.db
  {
    hide Prepare, MarkProviderSessionCreated, MarkPending, ProcessWebhook, ApplyIntentState, RequestCapture, NextTicket,
         MarkAttemptReconciliation, ReleaseDefinitiveOutcome, CreateCashOrder, SaveDraft, GenuineEvent, HeldSnapshot,
         NewSession, ReferenceUnused, ValidCartLines, SlugUnused;
    match step {
      case PrepareStep(input, now) =>
      case CashOrderStep(context, checkout, now) =>
      case SaveDraftStep(access, raw, key, draft, now, freshId) =>
      case _ =>
    }
  }

  /** A card step writes card rows, and at most the receipt of its webhook. */
  lemma CardStepRows(w: World, step: Step)
    requires IsCardStep(step)
    ensures CardRowsOnly(w.db.(receipts := Next(w, step).db.receipts), Next(w, step).db)
    ensures !step.WebhookStep? ==> Next(w, step).db.receipts == w.db.receipts
  {
    hide MarkPending, MarkProviderSessionCreated, HandleEvent, ApplyIntentState, MarkAttemptReconciliation;
    hide ReleaseDefinitiveOutcome, GenuineEvent, RequestCapture, HeldSnapshot, Prepare, CreateCashOrder, SaveDraft;
    hide NewSession, ReferenceUnused, ValidCartLines, SlugUnused;
    match step {
      case RecordSession(id, now) =>
        if id in w.provider.sessions {
          RecordSessionRows(w.db, id, w.provider.sessions[id].id, w.provider.sessions[id].expiresAt, now);
        }
      case RecordIntent(id, now) =>
        if id in w.provider.intents { AttachRows(w.db, id, w.provider.intents[id].reference, now); }
      case WebhookStep(event, now) => if HandleEvent(w.db, event, now).Ok? { HandlingRows(w.db, event, now); }
      case ApplyStateStep(id, status, now) =>
        if CanShow(w.provider, id, status) { ApplyStateRows(w.db, HeldSnapshot(w.provider, id, status), id, now); }
      case RequestCaptureStep(id, now) => CaptureRows(w.db, id, now);
      case MarkUnresolved(id, now) => CaptureRows(w.db, id, now);
      case ReleaseExpired(id, now) => EndRows(w.db, id, now);
    }
  }

  lemma WebhookEvolves(db: Db, event: Event, now: Time)
    ensures ProcessWebhook(db, event, now).Ok? ==> DbEvolves(db, ProcessWebhook(db, event, now).value.db)
  {
    hide DbEvolves, ApplyIntentEvent, ApplySessionEvent;
    SameEvolves(db);
    if event.id !in db.receipts && HandleEvent(db, event, now).Ok? {
      match event.body {
        case OtherObject =>
        case IntentObject(kind, intent) => IntentEventEvolves(db, kind, intent, intent.metadata.value.attemptId, now);
        case SessionObject(kind, session) =>
          SessionEventEvolves(db, kind, session, session.metadata.value.attemptId, now);
      }
      var handled := HandleEvent(db, event, now).value.db;
      HandlingRows(db, event, now);
      ReceiptEvolves(db, handled, handled.receipts[event.id := event.payload]);
    }
  }

  lemma NewRowsEvolve(x: Db, y: Db)
    requires x.attempts <= y.attempts && x.orders <= y.orders && y.allocations == x.allocations
    requires y.receipts == x.receipts
    requires forall a :: a in x.claims ==> a in y.claims && y.claims[a] == x.claims[a]
    ensures DbEvolves(x, y)
  {
    hide AttemptEvolves, OrderEvolves;
    AttemptsStay(x.attempts, y.attempts);
    OrdersStay(x.orders, y.orders);
  }

  lemma PrepareEvolves(db: Db, input: PrepareInput, now: Time)
    requires |db.attempts| !in db.claims
    ensures Prepare(db, input, now).Ok? ==> DbEvolves(db, Prepare(db, input, now).value.db)
  {
    hide Prepare, DbEvolves;
    SameEvolves(db);
    PrepareWrites(db, input, now);
    var r := Prepare(db, input, now);
    if r.Ok? && FindAttempt(db.attempts, input.draftId, input.key).None? {
      assert db.attempts <= r.value.db.attempts;
      NewRowsEvolve(db, r.value.db);
    }
  }

  lemma PlaceEvolves(db: Db, context: OrderContext, input: CheckoutInput, now: Time)
    requires context.cartId in db.carts
    ensures PlaceOrder(db, context, input, now).Ok? ==> DbEvolves(db, PlaceOrder(db, context, input, now).value.db)
  {
    hide RequestFingerprint, AllocationOutcomes, EveryAvailable, PriceLines, AddAll, TakeStock, CheckoutPricing;
    hide CartByProduct, CartProductsExist, DbEvolves;
    if PlaceOrder(db, context, input, now).Ok? { NewRowsEvolve(db, PlaceOrder(db, context, input, now).value.db); }
  }

  lemma CashOrderEvolves(db: Db, context: OrderContext, input: CheckoutInput, now: Time)
    ensures CreateCashOrder(db, context, input, now).Ok? ==>
      DbEvolves(db, CreateCashOrder(db, context, input, now).value.db)
  {
    hide RequestFingerprint, PlaceOrder, FindByKey, FindActiveByCart, DbEvolves;
    SameEvolves(db);
    var r := CreateCashOrder(db, context, input, now);
    if r.Ok? && r.value.db != db { PlaceEvolves(db, context, input, now); }
  }

  lemma WriteEvolves(
      db: Db, access: CartAccess, key: Key, checkout: CanonicalDraft, now: Time, id: DraftId, existing: Option<Draft>,
      issuing: bool)
    requires access.cartId in db.carts
    requires issuing ==> access.GuestCart?
    requires !issuing && access.GuestCart? ==> existing.Some?
    ensures WriteDraft(db, access, key, checkout, now, id, existing, issuing).Ok? ==>
      DbEvolves(db, WriteDraft(db, access, key, checkout, now, id, existing, issuing).value.db)
  {
    hide BuildQuote, PreviewDiscount, WithoutRequests, DbEvolves;
    var r := WriteDraft(db, access, key, checkout, now, id, existing, issuing);
    if r.Ok? { OtherTablesEvolve(db, r.value.db); }
  }

  lemma UpdateEvolves(db: Db, access: CartAccess, raw: Option<Capability>, key: Key, checkout: CanonicalDraft,
                      now: Time, id: DraftId)
    requires access.cartId in db.carts && id in db.drafts
    requires UpdateExisting(db, access, raw, key, checkout, now, id).Ok?
    ensures DbEvolves(db, UpdateExisting(db, access, raw, key, checkout, now, id).value.db)
  {
    hide WriteDraft, HasHeldAttempt, HasGuestAccess, HasAccess, RecoverCapability, DbEvolves;
    var draft := Adopted(db.drafts[id], access, now);
    var adopted := db.(drafts := db.drafts[id := draft]);
    OtherTablesEvolve(db, adopted);
    if UpdateExisting(db, access, raw, key, checkout, now, id)
       == WriteDraft(adopted, access, key, checkout, now, id, Some(draft), false)
    {
      WriteEvolves(adopted, access, key, checkout, now, id, Some(draft), false);
      DbEvolvesOn(db, adopted, WriteDraft(adopted, access, key, checkout, now, id, Some(draft), false).value.db);
    }
  }

  lemma SaveDraftEvolves(db: Db, access: CartAccess, raw: Option<Capability>, key: Key, checkout: CanonicalDraft,
                         now: Time, freshId: DraftId)
    requires SaveDraft(db, access, raw, key, checkout, now, freshId).Ok?
    ensures DbEvolves(db, SaveDraft(db, access, raw, key, checkout, now, freshId).value.db)
  {
    hide WriteDraft, UpdateExisting, DbEvolves;
    match ExistingDraft(db, access.cartId) {
      case None => WriteEvolves(db, access, key, checkout, now, freshId, None, access.GuestCart?);
      case Some(id) =>
        if IsExpiredGuestDraft(db.drafts[id], access, now) {
          WriteEvolves(db, access, key, checkout, now, id, Some(db.drafts[id]), true);
        } else {
          UpdateEvolves(db, access, raw, key, checkout, now, id);
        }
    }
  }

  // ----- Steps and runs -----

  lemma SameProviderEvolves(p: Provider)
    ensures ProviderEvolves(p, p)
  {
  }

  lemma ProviderStepEvolves(w: World, step: Step)
    requires step.CreateSession? || step.OpenIntent? || step.AuthorizeIntent? || step.CaptureIntent?
          || step.CancelIntent? || step.ExpireSession?
    ensures Evolves(w, Next(w, step))
  {
    hide DbEvolves;
    SameEvolves(w.db);
  }

  lemma EditStepEvolves(w: World, step: Step)
    requires step.EditCart? || step.EditProduct? || step.SetActiveUsers?
    ensures Evolves(w, Next(w, step))
  {
    hide DbEvolves, ProviderEvolves, SlugUnused, ValidCartLines;
    SameProviderEvolves(w.provider);
    SameEvolves(w.db);
    match step {
      case EditCart(c, cart) => OtherTablesEvolve(w.db, w.db.(carts := w.db.carts[c := cart]));
      case EditProduct(p, product) => OtherTablesEvolve(w.db, w.db.(products := w.db.products[p := product]));
      case SetActiveUsers(users) => OtherTablesEvolve(w.db, w.db.(activeUsers := users));
    }
  }

  lemma TicketEvolves(w: World, a: AttemptId, now: Time)
    ensures Evolves(w, NextTicket(w, a, RequestCapture(w.db, a, now)))
  {
    hide DbEvolves, RequestCapture;
    SameEvolves(w.db);
    RequestCaptureEvolves(w.db, a, now);
  }

  lemma StepEvolves(w: World, step: Step)
    requires |w.db.attempts| !in w.db.claims
    ensures Evolves(w, Next(w, step))
  {
    hide DbEvolves, ProviderEvolves;
    hide Prepare, MarkPending, MarkProviderSessionCreated, ProcessWebhook, ApplyIntentState, RequestCapture;
    hide MarkAttemptReconciliation, ReleaseDefinitiveOutcome, CreateCashOrder, SaveDraft, GenuineEvent, NextTicket;
    SameEvolves(w.db);
    SameProviderEvolves(w.provider);
    match step {
      case PrepareStep(input, now) => PrepareEvolves(w.db, input, now);
      case RecordSession(id, now) =>
        if id in w.provider.sessions {
          RecordSessionEvolves(w.db, id, w.provider.sessions[id].id, w.provider.sessions[id].expiresAt, now);
        }
      case RecordIntent(id, now) =>
        if id in w.provider.intents { MarkPendingEvolves(w.db, id, w.provider.intents[id].reference, now); }
      case WebhookStep(event, now) => WebhookEvolves(w.db, event, now);
      case ApplyStateStep(id, status, now) =>
        if CanShow(w.provider, id, status) { ApplyStateEvolves(w.db, HeldSnapshot(w.provider, id, status), id, now); }
      case RequestCaptureStep(id, now) => TicketEvolves(w, id, now);
      case MarkUnresolved(id, now) => MarkUnresolvedEvolves(w.db, id, now);
      case ReleaseExpired(id, now) => ReleaseDefinitiveEvolves(w.db, id, CancelledUnpaid, now);
      case CashOrderStep(context, checkout, now) => CashOrderEvolves(w.db, context, checkout, now);
      case SaveDraftStep(access, raw, key, draft, now, freshId) =>
        if SaveDraft(w.db, access, raw, key, draft, now, freshId).Ok? {
          SaveDraftEvolves(w.db, access, raw, key, draft, now, freshId);
        }
      case EditCart(_, _) => EditStepEvolves(w, step);
      case EditProduct(_, _) => EditStepEvolves(w, step);
      case SetActiveUsers(_) => EditStepEvolves(w, step);
      case _ => ProviderStepEvolves(w, step);
    }
  }
}
