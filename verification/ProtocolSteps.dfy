/** Every step of the payment protocol keeps the invariant; hence it holds in every reachable world. */
module ProtocolSteps {
  import opened Basics
  import opened Money
  import opened Records
  import opened PaymentAttempts
  import opened StripePayments
  import opened Protocol
  import opened ProtocolSafety

  // ----- One row at a time -----

  lemma KeepsMarkReconciliation(w: World, a: AttemptId, now: Time)
    requires Inv(w)
    ensures Inv(w.(db := MarkReconciliation(w.db, a, now)))
  {
    hide DraftsOk, CartsOk, CatalogueOk, OrdersOk, OrderIndexOk, AttemptsOwned;
    if a < |w.db.attempts| && IsActive(w.db.attempts[a].status) {
      assert CaseHolds(w, a);
      AttemptRowChange(w, a, w.db.attempts[a].(status := ReconciliationRequired, updatedAt := now));
    }
  }

  lemma AllocationRowChange(w: World, a: AttemptId, allocation: Allocation)
    requires Inv(w) && a in w.db.allocations
    requires CaseInv(CaseOf(w, a).(allocation := Some(allocation)))
    ensures Inv(w.(db := w.db.(allocations := w.db.allocations[a := allocation])))
  {
    hide CaseInv, DraftsOk, CartsOk, CatalogueOk, OrdersOk, OrderIndexOk, AttemptsOwned;
    var w' := w.(db := w.db.(allocations := w.db.allocations[a := allocation]));
    assert OnlyTouches(w, w', a);
    assert CaseOf(w', a) == CaseOf(w, a).(allocation := Some(allocation));
    OtherCasesKept(w, w', a);
  }

  lemma CaseCaptureAsked(c: Case, status: AllocationStatus, now: Time)
    requires CaseInv(c) && c.allocation.Some? && IsLive(c.allocation.value.status)
    requires status in {CaptureRequested, CaptureUnresolved}
    ensures CaseInv(c.(allocation := Some(c.allocation.value.(
      captureRequestedAt := OrElse(c.allocation.value.captureRequestedAt, now), status := status))))
  {
  }

  lemma KeepsCaptureAsked(w: World, a: AttemptId, status: AllocationStatus, now: Time)
    requires Inv(w) && a in w.db.allocations && IsLive(w.db.allocations[a].status)
    requires status in {CaptureRequested, CaptureUnresolved}
    ensures Inv(w.(db := w.db.(allocations := w.db.allocations[a := w.db.allocations[a].(
      captureRequestedAt := OrElse(w.db.allocations[a].captureRequestedAt, now), status := status)])))
  {
    assert CaseHolds(w, a);
    CaseCaptureAsked(CaseOf(w, a), status, now);
    AllocationRowChange(w, a, w.db.allocations[a].(
      captureRequestedAt := OrElse(w.db.allocations[a].captureRequestedAt, now), status := status));
  }

  lemma KeepsMarkUnresolved(w: World, a: AttemptId, now: Time)
    requires Inv(w)
    ensures Inv(w.(db := MarkAttemptReconciliation(w.db, a, now)))
  {
    KeepsMarkReconciliation(w, a, now);
    var w1 := w.(db := MarkReconciliation(w.db, a, now));
    if a in w.db.allocations && IsLive(w.db.allocations[a].status) {
      KeepsCaptureAsked(w1, a, CaptureUnresolved, now);
    }
  }

  lemma ProviderChange(w: World, w': World, a: AttemptId)
    requires Inv(w) && a < |w.db.attempts| && w' == w.(provider := w'.provider)
    requires KeysOk(w') && CaseInv(CaseOf(w', a))
    requires forall b :: 0 <= b < |w.db.attempts| && b != a ==> SameRows(w, w', b)
    ensures Inv(w')
  {
    hide CaseInv, DraftsOk, CartsOk, CatalogueOk, OrdersOk, OrderIndexOk, AttemptsOwned;
    assert OnlyTouches(w, w', a);
    OtherCasesKept(w, w', a);
  }

  lemma IssueTicket(w: World, a: AttemptId)
    requires Inv(w) && a in w.db.allocations && w.db.allocations[a].status == CaptureRequested
    ensures Inv(w.(provider := w.provider.(tickets := w.provider.tickets + {a})))
  {
    hide DraftsOk, CartsOk, CatalogueOk, OrdersOk, OrderIndexOk, AttemptsOwned;
    var w' := w.(provider := w.provider.(tickets := w.provider.tickets + {a}));
    assert CaseHolds(w, a);
    assert CaseOf(w', a) == CaseOf(w, a).(ticket := true);
    ProviderChange(w, w', a);
  }

  lemma KeepsRequestCapture(w: World, a: AttemptId, now: Time)
    requires Inv(w)
    ensures Inv(NextTicket(w, a, RequestCapture(w.db, a, now)))
  {
    hide DraftsOk, CartsOk, CatalogueOk, OrdersOk, OrderIndexOk, AttemptsOwned;
    if a < |w.db.attempts| && a in w.db.allocations && IsLive(w.db.allocations[a].status) {
      KeepsCaptureAsked(w, a, CaptureRequested, now);
      var l := w.db.allocations[a];
      var requested := l.(captureRequestedAt := OrElse(l.captureRequestedAt, now), status := CaptureRequested);
      IssueTicket(w.(db := w.db.(allocations := w.db.allocations[a := requested])), a);
    }
  }

  lemma KeepsMarkPending(w: World, a: AttemptId, now: Time)
    requires Inv(w) && a in w.provider.intents
    ensures Inv(Commit(w, MarkPending(w.db, a, w.provider.intents[a].reference, now)))
  {
    hide DraftsOk, CartsOk, CatalogueOk, OrdersOk, OrderIndexOk, AttemptsOwned;
    assert CaseHolds(w, a);
    var reference := w.provider.intents[a].reference;
    if MarkPending(w.db, a, reference, now).Ok? && IsActive(w.db.attempts[a].status) {
      var attempt := w.db.attempts[a].(
        pendingAt := Some(now), reference := Some(reference), status := Pending, updatedAt := now);
      if MarkPending(w.db, a, reference, now) != Ok(w.db) { AttemptRowChange(w, a, attempt); }
    }
  }

  lemma KeepsRecordSession(w: World, a: AttemptId, now: Time)
    requires Inv(w) && a in w.provider.sessions
    ensures var s := w.provider.sessions[a];
            Inv(Commit(w, MarkProviderSessionCreated(w.db, a, s.id, s.expiresAt, now)))
  {
    hide DraftsOk, CartsOk, CatalogueOk, OrdersOk, OrderIndexOk, AttemptsOwned;
    assert CaseHolds(w, a);
    var s := w.provider.sessions[a];
    if MarkProviderSessionCreated(w.db, a, s.id, s.expiresAt, now).Ok? {
      var stored := w.db.attempts[a];
      AttemptRowChange(w, a, stored.(
        pendingAt := OrElse(stored.pendingAt, now), sessionExpiresAt := Some(s.expiresAt),
        sessionId := Some(s.id), status := Pending, updatedAt := now));
    }
  }

  lemma KeepsAttach(w: World, a: AttemptId, reference: PaymentReference, now: Time)
    requires Inv(w) && a in w.provider.intents && w.provider.intents[a].reference == reference
    ensures Inv(Commit(w, AttachReference(w.db, a, reference, now)))
  {
    hide DraftsOk, CartsOk, CatalogueOk, OrdersOk, OrderIndexOk, AttemptsOwned;
    assert CaseHolds(w, a);
    if AttachReference(w.db, a, reference, now).Ok? && w.db.attempts[a].reference.None? {
      var attempt := w.db.attempts[a];
      AttemptRowChange(w, a, attempt.(
        pendingAt := OrElse(attempt.pendingAt, now), reference := Some(reference), status := Pending,
        updatedAt := now));
    }
  }

  // ----- Ending an attempt without payment -----

  lemma AttemptAndClaimChange(w: World, a: AttemptId, attempt: Attempt, claims: map<AttemptId, Claim>)
    requires Inv(w) && a < |w.db.attempts|
    requires attempt.draftId == w.db.attempts[a].draftId && attempt.items == w.db.attempts[a].items
    requires claims.Keys == w.db.claims.Keys && forall b :: b in claims && b != a ==> claims[b] == w.db.claims[b]
    requires CaseInv(CaseOf(w, a).(attempt := attempt, claim := Lookup(claims, a)))
    ensures Inv(w.(db := SetAttempt(w.db, a, attempt).(claims := claims)))
  {
    hide CaseInv, DraftsOk, CartsOk, CatalogueOk, OrdersOk, OrderIndexOk, AttemptsOwned;
    var w' := w.(db := SetAttempt(w.db, a, attempt).(claims := claims));
    assert OnlyTouches(w, w', a);
    assert CaseOf(w', a) == CaseOf(w, a).(attempt := attempt, claim := Lookup(claims, a));
    OtherCasesKept(w, w', a);
    AttemptRowTables(w, a, attempt);
  }

  lemma CaseCancelled(c: Case, claim: Option<Claim>, now: Time)
    requires CaseInv(c) && Dead(c) && IsActive(c.attempt.status)
    requires c.allocation.None?
    requires claim == if c.claim.Some? then Some(c.claim.value.(status := ClaimReleased)) else None
    ensures CaseInv(c.(attempt := c.attempt.(status := Cancelled, updatedAt := now), claim := claim))
  {
  }

  lemma CancelActive(w: World, a: AttemptId, now: Time)
    requires Inv(w) && a < |w.db.attempts| && IsActive(w.db.attempts[a].status)
    requires Dead(CaseOf(w, a)) && a !in w.db.allocations
    ensures var cancelled := w.db.attempts[a].(status := Cancelled, updatedAt := now);
            Inv(w.(db := SetAttempt(w.db, a, cancelled).(claims := ReleaseClaim(w.db.claims, a))))
  {
    hide DraftsOk, CartsOk, CatalogueOk, OrdersOk, OrderIndexOk, AttemptsOwned;
    var claims := ReleaseClaim(w.db.claims, a);
    assert CaseHolds(w, a);
    CaseCancelled(CaseOf(w, a), Lookup(claims, a), now);
    AttemptAndClaimChange(w, a, w.db.attempts[a].(status := Cancelled, updatedAt := now), claims);
  }

  lemma KeepsReleaseDefinitive(w: World, a: AttemptId, now: Time)
    requires Inv(w) && a < |w.db.attempts| && Dead(CaseOf(w, a))
    requires a in w.db.allocations ==> w.db.attempts[a].status == Cancelled
    ensures Inv(Commit(w, ReleaseDefinitiveOutcome(w.db, a, CancelledUnpaid, now)))
  {
    hide Inv;
    if IsActive(w.db.attempts[a].status) { CancelActive(w, a, now); }
  }

  lemma DeadBecauseExpired(w: World, a: AttemptId)
    requires Inv(w) && a in w.provider.sessions && w.provider.sessions[a].status == SessionExpired
    ensures a < |w.db.attempts| && Dead(CaseOf(w, a))
    ensures a !in w.db.allocations
  {
    assert CaseHolds(w, a);
  }

  // ----- Provider steps -----

  lemma CaseIntentEnds(c: Case, status: IntentStatus)
    requires CaseInv(c) && c.intent.Some?
    requires
      || (status == IntentCanceled && c.intent.value.status in {Open, RequiresCapture})
      || (status == IntentSucceeded && c.intent.value.status == RequiresCapture && c.ticket)
    ensures CaseInv(c.(intent := Some(c.intent.value.(status := status, seen := c.intent.value.seen + {status}))))
  {
  }

  lemma KeepsSetIntent(w: World, a: AttemptId, status: IntentStatus)
    requires Inv(w) && a in w.provider.intents
    requires
      || (status == IntentCanceled && w.provider.intents[a].status in {Open, RequiresCapture})
      || (status == IntentSucceeded && w.provider.intents[a].status == RequiresCapture && a in w.provider.tickets)
    ensures Inv(SetIntent(w, a, status))
  {
    hide DraftsOk, CartsOk, CatalogueOk, OrdersOk, OrderIndexOk, AttemptsOwned;
    var w' := SetIntent(w, a, status);
    assert CaseHolds(w, a);
    var i := w.provider.intents[a];
    CaseIntentEnds(CaseOf(w, a), status);
    assert CaseOf(w', a) == CaseOf(w, a).(intent := Some(i.(status := status, seen := i.seen + {status})));
    ProviderChange(w, w', a);
  }

  lemma KeepsAuthorize(w: World, a: AttemptId)
    requires Inv(w) && a in w.provider.intents && a in w.provider.sessions
    requires w.provider.intents[a].status == Open && w.provider.sessions[a].status == SessionOpen
    ensures Inv(SetSession(SetIntent(w, a, RequiresCapture), a, SessionComplete))
  {
    hide DraftsOk, CartsOk, CatalogueOk, OrdersOk, OrderIndexOk, AttemptsOwned;
    var w' := SetSession(SetIntent(w, a, RequiresCapture), a, SessionComplete);
    assert CaseHolds(w, a);
    var i := w.provider.intents[a];
    assert CaseOf(w', a) == CaseOf(w, a).(
      intent := Some(i.(status := RequiresCapture, seen := i.seen + {RequiresCapture})),
      session := Some(w.provider.sessions[a].(status := SessionComplete)));
    ProviderChange(w, w', a);
  }

  lemma KeepsExpire(w: World, a: AttemptId)
    requires Inv(w) && a in w.provider.sessions && w.provider.sessions[a].status == SessionOpen
    ensures Inv(SetSession(w, a, SessionExpired))
  {
    hide DraftsOk, CartsOk, CatalogueOk, OrdersOk, OrderIndexOk, AttemptsOwned;
    var w' := SetSession(w, a, SessionExpired);
    assert CaseHolds(w, a);
    assert CaseOf(w', a) == CaseOf(w, a).(session := Some(w.provider.sessions[a].(status := SessionExpired)));
    ProviderChange(w, w', a);
  }

  lemma KeepsCreateSession(w: World, a: AttemptId, session: SessionId)
    requires Inv(w) && a < |w.db.attempts| && a !in w.provider.sessions
    ensures var created := NewSession(w.db.attempts[a], session);
            Inv(w.(provider := w.provider.(sessions := w.provider.sessions[a := created])))
  {
    hide DraftsOk, CartsOk, CatalogueOk, OrdersOk, OrderIndexOk, AttemptsOwned;
    var w' := w.(provider := w.provider.(sessions := w.provider.sessions[a := NewSession(w.db.attempts[a], session)]));
    assert CaseHolds(w, a);
    assert CaseOf(w', a) == CaseOf(w, a).(session := Some(NewSession(w.db.attempts[a], session)));
    ProviderChange(w, w', a);
  }

  lemma KeepsOpenIntent(w: World, a: AttemptId, reference: PaymentReference)
    requires Inv(w) && a in w.provider.sessions && a !in w.provider.intents && ReferenceUnused(w.provider, reference)
    ensures Inv(w.(provider := w.provider.(intents := w.provider.intents[a := Intent(reference, Open, {Open})])))
  {
    hide DraftsOk, CartsOk, CatalogueOk, OrdersOk, OrderIndexOk, AttemptsOwned;
    var w' := w.(provider := w.provider.(intents := w.provider.intents[a := Intent(reference, Open, {Open})]));
    assert CaseHolds(w, a);
    assert CaseOf(w', a) == CaseOf(w, a).(intent := Some(Intent(reference, Open, {Open})));
    ProviderChange(w, w', a);
  }

  ghost predicate SameOff<T>(m: map<nat, T>, m': map<nat, T>, a: nat) {
    forall b: nat :: b != a ==> (b in m' <==> b in m) && (b in m ==> m'[b] == m[b])
  }

  // ----- Stock moves -----

  ghost predicate OnlyStockMoved(before: map<ProductId, Product>, after: map<ProductId, Product>) {
    && after.Keys == before.Keys
    && forall p :: p in before ==>
         after[p] == before[p].(stockAmount := after[p].stockAmount) && after[p].stockAmount >= 0
  }

  lemma {:induction false} AmountOfNonNegative(lines: seq<Line>, p: ProductId)
    requires forall i :: 0 <= i < |lines| ==> 1 <= lines[i].amount
    ensures AmountOf(lines, p) >= 0
  {
    if lines != [] { AmountOfNonNegative(lines[1..], p); }
  }

  lemma PositiveByProduct(rows: seq<Line>)
    requires forall i :: 0 <= i < |rows| ==> 1 <= rows[i].amount
    ensures forall i :: 0 <= i < |LinesByProduct(rows)| ==> 1 <= LinesByProduct(rows)[i].amount
  {
    LinesByProductKeeps(rows);
    forall i | 0 <= i < |LinesByProduct(rows)| ensures 1 <= LinesByProduct(rows)[i].amount {
      assert LinesByProduct(rows)[i] in rows;
    }
  }

  lemma TakingMovesStock(products: map<ProductId, Product>, lines: seq<Line>)
    requires CatalogueOk(products) && DistinctProducts(lines) && TakeStock(products, lines).Some?
    requires forall i :: 0 <= i < |lines| ==> 1 <= lines[i].amount
    ensures OnlyStockMoved(products, TakeStock(products, lines).value)
  {
    var after := TakeStock(products, lines).value;
    TakeStockEffect(products, lines, 0);
    forall p | p in products
      ensures after[p] == products[p].(stockAmount := after[p].stockAmount) && after[p].stockAmount >= 0
    {
      TakeStockEffect(products, lines, p);
      AmountOfNonNegative(lines, p);
    }
  }

  lemma ReturningMovesStock(products: map<ProductId, Product>, lines: seq<Line>)
    requires CatalogueOk(products) && ProductsExist(products, lines)
    requires forall i :: 0 <= i < |lines| ==> 1 <= lines[i].amount
    ensures OnlyStockMoved(products, ReturnStock(products, lines))
  {
    var after := ReturnStock(products, lines);
    forall p | p in products
      ensures after[p] == products[p].(stockAmount := after[p].stockAmount) && after[p].stockAmount >= 0
    {
      ReturnStockEffect(products, lines, p);
      AmountOfNonNegative(lines, p);
    }
  }

  lemma StockMoveKeepsTables(w: World, products: map<ProductId, Product>)
    requires TablesOk(w) && OnlyStockMoved(w.db.products, products)
    ensures AttemptsOwned(w.db.attempts, w.db.drafts, products)
    ensures CartsOk(w.db.carts, products)
    ensures CatalogueOk(products)
  {
    hide DraftsOk, OrdersOk, OrderIndexOk, KeysOk;
    forall a | 0 <= a < |w.db.attempts| ensures AttemptOwned(w.db.attempts[a], w.db.drafts, products) {
      assert AttemptOwned(w.db.attempts[a], w.db.drafts, w.db.products);
    }
    forall c | c in w.db.carts ensures ValidCartLines(products, w.db.carts[c].items) {
      assert ValidCartLines(w.db.products, w.db.carts[c].items);
    }
  }

  // ----- Allocation -----

  lemma NewCardOrder(orders: seq<Order>, index: map<AttemptId, OrderId>, n: nat, a: AttemptId, order: Order)
    requires OrderIndexOk(orders, index, n) && OrdersOk(orders)
    requires a < n && a !in index && order.attemptId == Some(a) && !CartTaken(orders, order.cartId)
    ensures OrderIndexOk(orders + [order], index[a := |orders|], n)
    ensures OrdersOk(orders + [order])
  {
  }

  lemma CaseAllocated(c: Case, orderId: OrderId, order: Order, allocation: Allocation)
    requires CaseInv(c) && c.allocation.None? && c.attempt.reference.Some?
    requires c.intent.Some? && RequiresCapture in c.intent.value.seen
    requires OrderMirrors(order, c.attempt) && OrderFollows(order, Allocated)
    requires allocation.orderId == orderId && allocation.status == Allocated && allocation.captureRequestedAt.None?
    requires c.attempt.reference == Some(allocation.reference)
    ensures CaseInv(c.(allocation := Some(allocation), orderId := Some(orderId), order := Some(order)))
  {
  }

  lemma KeepsNewAllocation(w: World, a: AttemptId, products: map<ProductId, Product>, order: Order,
                           allocation: Allocation)
    requires Inv(w) && a < |w.db.attempts| && a !in w.db.allocations && w.db.attempts[a].reference.Some?
    requires a in w.provider.intents && RequiresCapture in w.provider.intents[a].seen
    requires OnlyStockMoved(w.db.products, products)
    requires order.attemptId == Some(a) && OrderMirrors(order, w.db.attempts[a]) && OrderFollows(order, Allocated)
    requires allocation.orderId == |w.db.orders| && allocation.status == Allocated
    requires allocation.captureRequestedAt.None? && w.db.attempts[a].reference == Some(allocation.reference)
    requires !CartTaken(w.db.orders, order.cartId)
    ensures Inv(w.(db := w.db.(
      products := products, orders := w.db.orders + [order], orderOfAttempt := w.db.orderOfAttempt[a := |w.db.orders|],
      allocations := w.db.allocations[a := allocation])))
  {
    hide DraftsOk, CartsOk, CatalogueOk, OrdersOk, OrderIndexOk, AttemptsOwned, OrderMirrors, OnlyStockMoved;
    var w' := w.(db := w.db.(
      products := products, orders := w.db.orders + [order], orderOfAttempt := w.db.orderOfAttempt[a := |w.db.orders|],
      allocations := w.db.allocations[a := allocation]));
    assert CaseHolds(w, a);
    StockMoveKeepsTables(w, products);
    NewCardOrder(w.db.orders, w.db.orderOfAttempt, |w.db.attempts|, a, order);
    CaseAllocated(CaseOf(w, a), |w.db.orders|, order, allocation);
    assert CaseOf(w', a)
      == CaseOf(w, a).(allocation := Some(allocation), orderId := Some(|w.db.orders|), order := Some(order));
    AppendTouchesNoOther(w, w', a);
    OtherCasesKept(w, w', a);
  }

  lemma AppendTouchesNoOther(w: World, w': World, a: AttemptId)
    requires w'.db.attempts == w.db.attempts && w'.db.claims == w.db.claims && w'.provider == w.provider
    requires w.db.orders <= w'.db.orders
    requires SameOff(w.db.allocations, w'.db.allocations, a)
    requires SameOff(w.db.orderOfAttempt, w'.db.orderOfAttempt, a)
    ensures OnlyTouches(w, w', a)
  {
  }

  lemma KeepsAllocate(w: World, a: AttemptId, now: Time)
    requires Inv(w) && a < |w.db.attempts| && w.db.attempts[a].reference.Some?
    requires a in w.provider.intents && RequiresCapture in w.provider.intents[a].seen
    ensures AllocateInventory(w.db, a, now).Ok? ==> Inv(w.(db := AllocateInventory(w.db, a, now).value.db))
  {
    hide CaseInv, DraftsOk, CartsOk, CatalogueOk, OrdersOk, OrderIndexOk, AttemptsOwned, KeysOk;
    var attempt := w.db.attempts[a];
    var lines := LinesByProduct(attempt.items);
    if AllocateInventory(w.db, a, now).Ok? && a !in w.db.allocations {
      if !AllAvailable(w.db.products, lines, now) {
        KeepsMarkReconciliation(w, a, now);
      } else {
        AttemptLines(w, a);
        TakingMovesStock(w.db.products, lines);
        var order := PendingOrder(attempt, a, w.db.drafts[attempt.draftId].cartId, now);
        KeepsNewAllocation(w, a, TakeStock(w.db.products, lines).value, order,
                           Allocation(|w.db.orders|, attempt.reference.value, Allocated, now, None, None, None));
      }
    }
  }

  lemma AttemptLines(w: World, a: AttemptId)
    requires Inv(w) && a < |w.db.attempts|
    ensures DistinctProducts(LinesByProduct(w.db.attempts[a].items))
    ensures forall i :: 0 <= i < |LinesByProduct(w.db.attempts[a].items)| ==>
      1 <= LinesByProduct(w.db.attempts[a].items)[i].amount
    ensures ProductsExist(w.db.products, LinesByProduct(w.db.attempts[a].items))
  {
    hide DraftsOk, CartsOk, CatalogueOk, OrdersOk, OrderIndexOk, KeysOk;
    var items := w.db.attempts[a].items;
    assert CaseHolds(w, a);
    LinesByProductKeeps(items);
    PositiveByProduct(items);
    assert AttemptOwned(w.db.attempts[a], w.db.drafts, w.db.products);
    forall i | 0 <= i < |LinesByProduct(items)| ensures LinesByProduct(items)[i].productId in w.db.products {
      assert LinesByProduct(items)[i] in items;
    }
  }

  // ----- Settlement -----

  ghost predicate CaseSettles(c: Case, c': Case) {
    && c.allocation.Some? && c.order.Some?
    && c'.attempt == c.attempt.(status := Succeeded, updatedAt := c'.attempt.updatedAt)
    && c'.allocation.Some?
    && c'.allocation.value
         == c.allocation.value.(status := Captured, capturedAt := c'.allocation.value.capturedAt)
    && c'.orderId == c.orderId
    && c'.order.Some? && c'.order.value.paidAt.Some?
    && c'.order.value == c.order.value.(
         status := OrderPaid, paymentState := PaymentPaid, paidAt := c'.order.value.paidAt)
    && (if c.claim.Some?
        then c'.claim == Some(c.claim.value.(status := Consumed, consumedOrderId := c.orderId))
        else c'.claim.None?)
    && c'.session == c.session && c'.intent == c.intent && c'.ticket == c.ticket
  }

  lemma CaseSettled(c: Case, c': Case)
    requires CaseInv(c) && c.attempt.status in {Pending, ReconciliationRequired}
    requires c.intent.Some? && c.intent.value.status == IntentSucceeded
    requires CaseSettles(c, c')
    ensures CaseInv(c')
  {
    assert c.ticket;
  }

  ghost predicate OneOrderChanged(orders: seq<Order>, orders': seq<Order>, o: OrderId) {
    && |orders'| == |orders|
    && o < |orders|
    && orders'[o].attemptId == orders[o].attemptId && orders[o].attemptId.Some?
    && orders'[o].cartId == orders[o].cartId
    && (orders[o].status == OrderCancelled ==> orders'[o].status == OrderCancelled)
    && forall p :: 0 <= p < |orders| && p != o ==> orders'[p] == orders[p]
  }

  lemma CardOrderChange(orders: seq<Order>, orders': seq<Order>, o: OrderId, index: map<AttemptId, OrderId>, n: nat)
    requires OrderIndexOk(orders, index, n) && OrdersOk(orders) && OneOrderChanged(orders, orders', o)
    ensures OrderIndexOk(orders', index, n)
    ensures OrdersOk(orders')
  {
  }

  /** Changing the rows that belong to one attempt, its order included. */
  lemma SettlementChange(w: World, w': World, a: AttemptId, o: OrderId)
    requires Inv(w) && a in w.db.orderOfAttempt && w.db.orderOfAttempt[a] == o
    requires w' == w.(db := w.db.(
      attempts := w'.db.attempts, allocations := w'.db.allocations, orders := w'.db.orders, claims := w'.db.claims,
      products := w'.db.products))
    requires |w'.db.attempts| == |w.db.attempts|
    requires forall b :: 0 <= b < |w.db.attempts| && b != a ==> w'.db.attempts[b] == w.db.attempts[b]
    requires w'.db.attempts[a].draftId == w.db.attempts[a].draftId && w'.db.attempts[a].items == w.db.attempts[a].items
    requires SameOff(w.db.allocations, w'.db.allocations, a)
    requires SameOff(w.db.claims, w'.db.claims, a)
    requires OneOrderChanged(w.db.orders, w'.db.orders, o)
    requires OnlyStockMoved(w.db.products, w'.db.products)
    requires CaseInv(CaseOf(w', a))
    ensures Inv(w')
  {
    hide CaseInv, DraftsOk, CartsOk, CatalogueOk, OrdersOk, OnlyStockMoved;
    CardOrderChange(w.db.orders, w'.db.orders, o, w.db.orderOfAttempt, |w.db.attempts|);
    StockMoveKeepsTables(w, w'.db.products);
    assert w.db.orders[o].attemptId == Some(a);
    assert OnlyTouches(w, w', a);
    OtherCasesKept(w, w', a);
    SettlementKeys(w, w', a);
    forall b | 0 <= b < |w'.db.attempts| ensures AttemptOwned(w'.db.attempts[b], w'.db.drafts, w'.db.products) {
      assert AttemptOwned(w.db.attempts[b], w.db.drafts, w'.db.products);
    }
  }

  lemma SettlementKeys(w: World, w': World, a: AttemptId)
    requires KeysOk(w) && a < |w.db.attempts| == |w'.db.attempts| && w'.provider == w.provider
    requires SameOff(w.db.allocations, w'.db.allocations, a)
    requires SameOff(w.db.claims, w'.db.claims, a)
    ensures KeysOk(w')
  {
  }

  // ----- Carts -----

  lemma {:induction false} WithoutBoughtLinesKeepsValid(
      products: map<ProductId, Product>, lines: seq<CartLine>, bought: seq<Line>)
    requires ValidCartLines(products, lines)
    ensures ValidCartLines(products, WithoutBoughtLines(lines, bought))
    ensures forall i :: 0 <= i < |WithoutBoughtLines(lines, bought)| ==> WithoutBoughtLines(lines, bought)[i] in lines
  {
    if lines != [] {
      assert ValidCartLines(products, lines[1..]);
      WithoutBoughtLinesKeepsValid(products, lines[1..], bought);
      var rest := WithoutBoughtLines(lines[1..], bought);
      forall j | 0 <= j < |rest| ensures rest[j].productId != lines[0].productId {
        assert rest[j] in lines[1..];
        var k :| 0 <= k < |lines[1..]| && lines[1..][k] == rest[j];
        assert lines[0].productId != lines[k + 1].productId;
      }
    }
  }

  lemma CartChange(w: World, c: CartId, cart: Cart)
    requires Inv(w) && ValidCartLines(w.db.products, cart.items)
    ensures Inv(w.(db := w.db.(carts := w.db.carts[c := cart])))
  {
    hide CaseInv, CatalogueOk, OrdersOk, OrderIndexOk, AttemptsOwned;
    var w' := w.(db := w.db.(carts := w.db.carts[c := cart]));
    forall b: nat ensures CaseHolds(w', b) {
      assert CaseHolds(w, b);
      if b < |w.db.attempts| { assert CaseOf(w', b) == CaseOf(w, b); }
    }
  }

  // ----- Settlement meets no failing guard -----

  /** Sorting the stored lines again gives the same list, so the two snapshots compare equal line by line. */
  lemma ResortedLinesAgree(rows: seq<Line>)
    requires DistinctProducts(rows)
    ensures LinesByProduct(LinesByProduct(rows)) == LinesByProduct(rows)
  {
    var once := LinesByProduct(rows);
    LinesByProductKeeps(rows);
    LinesByProductKeeps(once);
    SortByIsSortedPermutation(rows, LineKey);
    SortByIsSortedPermutation(once, LineKey);
    SortedRowsAreUnique(once, LinesByProduct(once), LineKey);
  }

  lemma CapturedIsSettleable(c: Case)
    requires CaseInv(c) && c.intent.Some? && c.intent.value.status == IntentSucceeded
    ensures c.allocation.Some? && c.allocation.value.status != Released
    ensures c.allocation.value.captureRequestedAt.Some?
    ensures c.attempt.status in {Pending, ReconciliationRequired, Succeeded}
    ensures c.order.Some? && OrderMirrors(c.order.value, c.attempt) && c.attempt.reference.Some?
    ensures c.order.value.status != OrderCancelled
    ensures c.orderId.Some? && DistinctProducts(c.attempt.items)
    ensures c.claim.Some? <==> c.attempt.pricing.discountKind == FirstPurchase
    ensures c.claim.Some? && c.attempt.status != Succeeded ==> c.claim.value.status == Claimed
  {
    assert c.ticket;
  }

  /** The rows `FinalizeCapturedPayment` writes before it touches the cart. */
  ghost function Settled(db: Db, a: AttemptId, now: Time): Db
    requires a < |db.attempts| && a in db.allocations
    requires a in db.orderOfAttempt && db.orderOfAttempt[a] < |db.orders|
  {
    var o := db.orderOfAttempt[a];
    db.(attempts := db.attempts[a := db.attempts[a].(status := Succeeded, updatedAt := now)],
        orders := db.orders[o := db.orders[o].(paidAt := Some(now), paymentState := PaymentPaid, status := OrderPaid)],
        allocations := db.allocations[a := db.allocations[a].(capturedAt := Some(now), status := Captured)],
        claims := if a in db.claims
                  then db.claims[a := db.claims[a].(status := Consumed, consumedOrderId := Some(o))] else db.claims)
  }

  lemma FinalizeResult(w: World, a: AttemptId, now: Time)
    requires Inv(w) && a in w.provider.intents && w.provider.intents[a].status == IntentSucceeded
    ensures a < |w.db.attempts| && a in w.db.allocations
    ensures a in w.db.orderOfAttempt && w.db.orderOfAttempt[a] < |w.db.orders|
    ensures w.db.attempts[a].draftId in w.db.drafts && w.db.drafts[w.db.attempts[a].draftId].cartId in w.db.carts
    ensures w.db.attempts[a].status != Succeeded ==>
      var settled := Settled(w.db, a, now);
      var c := w.db.drafts[w.db.attempts[a].draftId].cartId;
      FinalizeCapturedPayment(w.db, a, now)
        == Ok(settled.(carts := settled.carts[c := CartAfterPurchase(settled.carts[c], w.db.attempts[a])]))
  {
    hide CaseInv, CartsOk, CatalogueOk, OrdersOk, OrderMirrors;
    assert CaseHolds(w, a);
    CapturedIsSettleable(CaseOf(w, a));
    assert AttemptOwned(w.db.attempts[a], w.db.drafts, w.db.products);
    if w.db.attempts[a].status != Succeeded {
      var o := w.db.orderOfAttempt[a];
      var paid := w.db.orders[o].(paidAt := Some(now), paymentState := PaymentPaid, status := OrderPaid);
      ResortedLinesAgree(w.db.attempts[a].items);
      PaidOrderMatches(paid, w.db.orders[o], w.db.attempts[a], a);
    }
  }

  lemma PaidOrderMatches(paid: Order, order: Order, attempt: Attempt, a: AttemptId)
    requires OrderMirrors(order, attempt) && order.attemptId == Some(a) && attempt.reference.Some?
    requires LinesByProduct(LinesByProduct(attempt.items)) == LinesByProduct(attempt.items)
    requires paid == order.(paidAt := paid.paidAt, paymentState := PaymentPaid, status := OrderPaid)
    requires paid.paidAt.Some?
    ensures SuccessfulOrderMatchesAttempt(paid, attempt, a)
  {
  }

  lemma KeepsSettled(w: World, a: AttemptId, now: Time)
    requires Inv(w) && a in w.provider.intents && w.provider.intents[a].status == IntentSucceeded
    requires a < |w.db.attempts| && w.db.attempts[a].status != Succeeded
    requires a in w.db.allocations && a in w.db.orderOfAttempt && w.db.orderOfAttempt[a] < |w.db.orders|
    ensures Inv(w.(db := Settled(w.db, a, now)))
  {
    hide DraftsOk, CartsOk, OrdersOk, AttemptsOwned, CaseInv;
    var w' := w.(db := Settled(w.db, a, now));
    assert CaseHolds(w, a);
    CapturedIsSettleable(CaseOf(w, a));
    assert CaseSettles(CaseOf(w, a), CaseOf(w', a));
    CaseSettled(CaseOf(w, a), CaseOf(w', a));
    SettlementChange(w, w', a, w.db.orderOfAttempt[a]);
  }

  /** The transaction committed, the invariant still holds, and the attempt has reached `status`. */
  ghost predicate EndedAs(w: World, a: AttemptId, outcome: Outcome<Db>, status: AttemptStatus) {
    && outcome.Ok?
    && Inv(w.(db := outcome.value))
    && a < |outcome.value.attempts| && outcome.value.attempts[a].status == status
  }

  /** Once the provider has captured, settling never meets a failing guard, and keeps the invariant. */
  lemma KeepsFinalize(w: World, a: AttemptId, now: Time)
    requires Inv(w) && a in w.provider.intents && w.provider.intents[a].status == IntentSucceeded
    ensures a < |w.db.attempts| && EndedAs(w, a, FinalizeCapturedPayment(w.db, a, now), Succeeded)
  {
    hide Inv, CaseInv, ValidCartLines;
    FinalizeResult(w, a, now);
    if w.db.attempts[a].status != Succeeded {
      KeepsSettled(w, a, now);
      var w1 := w.(db := Settled(w.db, a, now));
      var c := w.db.drafts[w.db.attempts[a].draftId].cartId;
      SettledCartIsValid(w1, c, w.db.attempts[a]);
      CartChange(w1, c, CartAfterPurchase(w1.db.carts[c], w.db.attempts[a]));
    } else {
      assert FinalizeCapturedPayment(w.db, a, now) == Ok(w.db);
      assert w.(db := w.db) == w;
    }
  }

  lemma SettledCartIsValid(w: World, c: CartId, attempt: Attempt)
    requires Inv(w) && c in w.db.carts
    ensures ValidCartLines(w.db.products, CartAfterPurchase(w.db.carts[c], attempt).items)
  {
    hide CasesOk, DraftsOk, CatalogueOk, OrdersOk, OrderIndexOk, AttemptsOwned, KeysOk;
    assert ValidCartLines(w.db.products, w.db.carts[c].items);
    WithoutBoughtLinesKeepsValid(w.db.products, w.db.carts[c].items, attempt.items);
  }

  // ----- Releasing meets no failing guard -----

  ghost predicate CaseReleases(c: Case, c': Case) {
    && c.allocation.Some? && c.order.Some?
    && c'.attempt == c.attempt.(status := Cancelled, updatedAt := c'.attempt.updatedAt)
    && c'.allocation.Some?
    && c'.allocation.value
         == c.allocation.value.(status := Released, releasedAt := c'.allocation.value.releasedAt)
    && c'.orderId == c.orderId
    && c'.order == Some(c.order.value.(status := OrderCancelled, paymentState := PaymentFailed))
    && (if c.claim.Some? && c.claim.value.status == Claimed
        then c'.claim == Some(c.claim.value.(status := ClaimReleased)) else c'.claim == c.claim)
    && c'.session == c.session && c'.intent == c.intent && c'.ticket == c.ticket
  }

  lemma CaseReleased(c: Case, c': Case)
    requires CaseInv(c) && c.intent.Some? && c.intent.value.status == IntentCanceled
    requires c.allocation.Some? && IsLive(c.allocation.value.status)
    requires CaseReleases(c, c')
    ensures CaseInv(c')
  {
    hide OrderMirrors;
    assert OrderMirrors(c'.order.value, c'.attempt) by { MirrorIgnoresStatus(c, c'); }
  }

  lemma MirrorIgnoresStatus(c: Case, c': Case)
    requires c.order.Some? && c'.order.Some? && OrderMirrors(c.order.value, c.attempt)
    requires c'.attempt == c.attempt.(status := c'.attempt.status, updatedAt := c'.attempt.updatedAt)
    requires c'.order.value == c.order.value.(
      status := c'.order.value.status, paymentState := c'.order.value.paymentState, paidAt := c'.order.value.paidAt)
    ensures OrderMirrors(c'.order.value, c'.attempt)
  {
  }

  lemma CanceledIsReleasable(c: Case)
    requires CaseInv(c) && c.intent.Some? && c.intent.value.status == IntentCanceled
    ensures c.attempt.status != Succeeded && c.attempt.status != DefinitivelyFailed
    ensures Dead(c)
    ensures c.allocation.Some? ==> c.allocation.value.status != Captured && c.order.Some?
    ensures c.allocation.Some? ==> c.orderId == Some(c.allocation.value.orderId)
    ensures c.allocation.Some? && c.allocation.value.status == Released ==> c.attempt.status == Cancelled
  {
  }

  /** A finished attempt's row is not written again. */
  function CancelledRow(attempt: Attempt, now: Time): Attempt {
    if IsActive(attempt.status) then attempt.(status := Cancelled, updatedAt := now) else attempt
  }

  ghost function ReleasedRows(db: Db, a: AttemptId, now: Time): Db
    requires a < |db.attempts| && a in db.allocations && db.allocations[a].orderId < |db.orders|
    requires ProductsExist(db.products, LinesByProduct(db.attempts[a].items))
  {
    var o := db.allocations[a].orderId;
    db.(attempts := db.attempts[a := CancelledRow(db.attempts[a], now)],
        products := ReturnStock(db.products, LinesByProduct(db.attempts[a].items)),
        orders := db.orders[o := db.orders[o].(paymentState := PaymentFailed, status := OrderCancelled)],
        allocations := db.allocations[a := db.allocations[a].(releasedAt := Some(now), status := Released)],
        claims := ReleaseClaim(db.claims, a))
  }

  lemma ReleaseResult(w: World, a: AttemptId, now: Time)
    requires Inv(w) && a in w.provider.intents && w.provider.intents[a].status == IntentCanceled
    requires a in w.db.allocations && w.db.allocations[a].status != Released
    ensures a < |w.db.attempts| && IsLive(w.db.allocations[a].status)
    ensures a in w.db.orderOfAttempt && w.db.orderOfAttempt[a] == w.db.allocations[a].orderId < |w.db.orders|
    ensures ProductsExist(w.db.products, LinesByProduct(w.db.attempts[a].items))
    ensures ReleaseUnpaidPayment(w.db, a, CancelledUnpaid, now) == Ok(ReleasedRows(w.db, a, now))
  {
    hide CaseInv, CartsOk, CatalogueOk, OrdersOk, DraftsOk, AttemptsOwned;
    assert CaseHolds(w, a);
    CanceledIsReleasable(CaseOf(w, a));
    AttemptLines(w, a);
    var attempt := w.db.attempts[a];
    if attempt.status == Cancelled {
      CancelledClaimIsReleased(w, a);
      assert w.db.attempts[a := CancelledRow(attempt, now)] == w.db.attempts;
    }
  }

  lemma CancelledClaimIsReleased(w: World, a: AttemptId)
    requires Inv(w) && a < |w.db.attempts| && w.db.attempts[a].status == Cancelled
    ensures ReleaseClaim(w.db.claims, a) == w.db.claims
  {
    hide CartsOk, CatalogueOk, OrdersOk, DraftsOk, AttemptsOwned, OrderIndexOk;
    assert CaseHolds(w, a);
    assert ClaimOk(CaseOf(w, a));
  }

  lemma KeepsReleasedRows(w: World, a: AttemptId, now: Time)
    requires Inv(w) && a in w.provider.intents && w.provider.intents[a].status == IntentCanceled
    requires a in w.db.allocations && IsLive(w.db.allocations[a].status) && a < |w.db.attempts|
    requires a in w.db.orderOfAttempt && w.db.orderOfAttempt[a] == w.db.allocations[a].orderId < |w.db.orders|
    requires ProductsExist(w.db.products, LinesByProduct(w.db.attempts[a].items))
    ensures Inv(w.(db := ReleasedRows(w.db, a, now)))
  {
    hide CaseInv, CartsOk, OrdersOk, DraftsOk, AttemptsOwned, OnlyStockMoved;
    var w' := w.(db := ReleasedRows(w.db, a, now));
    assert CaseHolds(w, a);
    CanceledIsReleasable(CaseOf(w, a));
    AttemptLines(w, a);
    ReturningMovesStock(w.db.products, LinesByProduct(w.db.attempts[a].items));
    assert CaseReleases(CaseOf(w, a), CaseOf(w', a));
    CaseReleased(CaseOf(w, a), CaseOf(w', a));
    SettlementChange(w, w', a, w.db.orderOfAttempt[a]);
  }

  /** Once the provider has cancelled, releasing never meets a failing guard, and keeps the invariant. */
  lemma KeepsReleaseUnpaid(w: World, a: AttemptId, now: Time)
    requires Inv(w) && a in w.provider.intents && w.provider.intents[a].status == IntentCanceled
    ensures a < |w.db.attempts| && EndedAs(w, a, ReleaseUnpaidPayment(w.db, a, CancelledUnpaid, now), Cancelled)
  {
    hide CaseInv, CartsOk, CatalogueOk, OrdersOk, DraftsOk, AttemptsOwned, OrderIndexOk;
    assert CaseHolds(w, a);
    CanceledIsReleasable(CaseOf(w, a));
    if a in w.db.allocations && w.db.allocations[a].status != Released {
      ReleaseResult(w, a, now);
      KeepsReleasedRows(w, a, now);
    } else {
      KeepsReleaseDefinitive(w, a, now);
      assert ReleaseUnpaidPayment(w.db, a, CancelledUnpaid, now)
        == ReleaseDefinitiveOutcome(w.db, a, CancelledUnpaid, now);
    }
  }
}
