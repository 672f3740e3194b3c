/**
 * Conservation of stock: what is on the shelf, what live and captured card allocations hold, and what cash orders took
 * add up to what was ever put there, for every product in every reachable world.
 */
module StockConservation {
  import opened Basics
  import opened Records
  import opened PaymentAttempts
  import opened StripePayments
  import opened CashOrders
  import opened CheckoutDrafts
  import opened Protocol
  import opened ProtocolSafety
  import opened ProtocolSteps
  import opened ProtocolRuns
  import opened Evolution
  import opened CaptureSafety

  function StockOf(products: map<ProductId, Product>, p: ProductId): int {
    if p in products then products[p].stockAmount else 0
  }

  predicate Holds(allocations: map<AttemptId, Allocation>, a: AttemptId) {
    a in allocations && allocations[a].status != Released
  }

  /** Units of `p` that attempt `a` holds. */
  function Reserved(db: Db, p: ProductId, a: nat): int {
    if a < |db.attempts| && Holds(db.allocations, a) then AmountOf(db.attempts[a].items, p) else 0
  }

  /** Units of `p` that order `o` took, if it was paid for in cash. */
  function Sold(orders: seq<Order>, p: ProductId, o: nat): int {
    if o < |orders| && orders[o].attemptId.None? then AmountOf(orders[o].items, p) else 0
  }

  ghost function TotalReserved(db: Db, p: ProductId): int {
    Sum((a: nat) => Reserved(db, p, a), |db.attempts|)
  }

  ghost function TotalSold(orders: seq<Order>, p: ProductId): int {
    Sum((o: nat) => Sold(orders, p, o), |orders|)
  }

  ghost function Balance(db: Db, p: ProductId): int {
    StockOf(db.products, p) + TotalReserved(db, p) + TotalSold(db.orders, p)
  }

  function BaselineOf(w: World, p: ProductId): int {
    if p in w.baseline then w.baseline[p] else 0
  }

  ghost predicate Conserved(w: World) {
    forall p: ProductId :: Balance(w.db, p) == BaselineOf(w, p)
  }

  // ----- Sums -----

  lemma {:induction false} SumPadded(f: nat -> int, n: nat, m: nat)
    requires n <= m && forall j: nat :: n <= j < m ==> f(j) == 0
    ensures Sum(f, m) == Sum(f, n)
  {
    if n < m { SumPadded(f, n, m - 1); }
  }

  lemma ReservedKept(db: Db, db': Db, p: ProductId)
    requires |db.attempts| <= |db'.attempts|
    requires forall a: nat :: Reserved(db', p, a) == Reserved(db, p, a)
    ensures TotalReserved(db', p) == TotalReserved(db, p)
  {
    var f, g := (a: nat) => Reserved(db, p, a), (a: nat) => Reserved(db', p, a);
    SumAgrees(f, g, |db.attempts|);
    SumPadded(g, |db.attempts|, |db'.attempts|);
  }

  lemma ReservedChanged(db: Db, db': Db, p: ProductId, a: AttemptId)
    requires a < |db.attempts| == |db'.attempts|
    requires forall b: nat :: b != a ==> Reserved(db', p, b) == Reserved(db, p, b)
    ensures TotalReserved(db', p) == TotalReserved(db, p) - Reserved(db, p, a) + Reserved(db', p, a)
  {
    SumChangesAt((b: nat) => Reserved(db, p, b), (b: nat) => Reserved(db', p, b), |db.attempts|, a);
  }

  lemma SoldKept(orders: seq<Order>, orders': seq<Order>, p: ProductId)
    requires |orders| <= |orders'|
    requires forall o: nat :: Sold(orders', p, o) == Sold(orders, p, o)
    ensures TotalSold(orders', p) == TotalSold(orders, p)
  {
    var f, g := (o: nat) => Sold(orders, p, o), (o: nat) => Sold(orders', p, o);
    SumAgrees(f, g, |orders|);
    SumPadded(g, |orders|, |orders'|);
  }

  lemma SoldMore(orders: seq<Order>, order: Order, p: ProductId)
    requires order.attemptId.None?
    ensures TotalSold(orders + [order], p) == TotalSold(orders, p) + AmountOf(order.items, p)
  {
    SumAgrees((o: nat) => Sold(orders, p, o), (o: nat) => Sold(orders + [order], p, o), |orders|);
  }

  // ----- Transactions that move nothing -----

  ghost predicate Balanced(db: Db, db': Db) {
    forall p: ProductId :: Balance(db', p) == Balance(db, p)
  }

  ghost predicate OkBalanced(db: Db, outcome: Outcome<Db>) {
    outcome.Ok? ==> Balanced(db, outcome.value)
  }

  ghost predicate SameHolds(x: map<AttemptId, Allocation>, y: map<AttemptId, Allocation>) {
    forall a: nat :: Holds(x, a) == Holds(y, a)
  }

  ghost predicate Quiet(db: Db, db': Db) {
    && db'.products == db.products
    && SameHolds(db.allocations, db'.allocations)
    && |db'.orders| == |db.orders|
  }

  lemma OrdersKeepItems(orders: seq<Order>, orders': seq<Order>, p: ProductId)
    requires OrdersEvolve(orders, orders')
    requires forall o :: |orders| <= o < |orders'| ==> orders'[o].attemptId.Some?
    ensures TotalSold(orders', p) == TotalSold(orders, p)
  {
    forall o: nat ensures Sold(orders', p, o) == Sold(orders, p, o) {
      if o < |orders| { assert OrderEvolves(orders[o], orders'[o]); }
    }
    SoldKept(orders, orders', p);
  }

  lemma AttemptsKeepItems(db: Db, db': Db, a: nat, p: ProductId)
    requires AttemptsEvolve(db.attempts, db'.attempts)
    requires KeysBelow(db.allocations, |db.attempts|)
    requires Holds(db.allocations, a) == Holds(db'.allocations, a)
    ensures Reserved(db', p, a) == Reserved(db, p, a)
  {
    if a < |db.attempts| { assert AttemptEvolves(db.attempts[a], db'.attempts[a]); }
  }

  lemma QuietIsBalanced(db: Db, db': Db)
    requires Quiet(db, db') && DbEvolves(db, db') && KeysBelow(db.allocations, |db.attempts|)
    ensures Balanced(db, db')
  {
    hide AttemptsEvolve, OrdersEvolve, AllocationsEvolve, ClaimsEvolve, TotalReserved, TotalSold;
    hide Reserved, Holds, KeysBelow;
    forall p: ProductId ensures Balance(db', p) == Balance(db, p) {
      forall a: nat ensures Reserved(db', p, a) == Reserved(db, p, a) { AttemptsKeepItems(db, db', a, p); }
      assert |db.attempts| <= |db'.attempts| by { AttemptsGrow(db.attempts, db'.attempts); }
      ReservedKept(db, db', p);
      OrdersKeepItems(db.orders, db'.orders, p);
    }
  }

  lemma AttemptsGrow(xs: seq<Attempt>, ys: seq<Attempt>)
    requires AttemptsEvolve(xs, ys)
    ensures |xs| <= |ys|
  {
  }

  // ----- Taking, returning, selling -----

  lemma TakenStock(products: map<ProductId, Product>, lines: seq<Line>, p: ProductId)
    requires DistinctProducts(lines) && TakeStock(products, lines).Some?
    ensures StockOf(TakeStock(products, lines).value, p) == StockOf(products, p) - AmountOf(lines, p)
  {
    TakeStockEffect(products, lines, p);
    if p !in products {
      TakeStockFailsOnlyOnShortage(products, lines);
      AmountOfAbsent(lines, p);
    }
  }

  lemma ReturnedStock(products: map<ProductId, Product>, lines: seq<Line>, p: ProductId)
    requires ProductsExist(products, lines)
    ensures StockOf(ReturnStock(products, lines), p) == StockOf(products, p) + AmountOf(lines, p)
  {
    ReturnStockEffect(products, lines, p);
    if p !in products { AmountOfAbsent(lines, p); }
  }

  /** One attempt starts or stops holding its lines, and exactly those lines left or came back. */
  lemma MoveIsBalanced(db: Db, db': Db, a: AttemptId, sign: int)
    requires a < |db.attempts| == |db'.attempts| && DbEvolves(db, db')
    requires KeysBelow(db.allocations, |db.attempts|)
    requires forall b: nat :: b != a ==> Holds(db'.allocations, b) == Holds(db.allocations, b)
    requires if sign == 1 then !Holds(db.allocations, a) && Holds(db'.allocations, a)
             else sign == -1 && Holds(db.allocations, a) && !Holds(db'.allocations, a)
    requires forall o :: |db.orders| <= o < |db'.orders| ==> db'.orders[o].attemptId.Some?
    requires forall p: ProductId ::
      StockOf(db'.products, p) == StockOf(db.products, p) - sign * AmountOf(db.attempts[a].items, p)
    ensures Balanced(db, db')
  {
    hide OrdersEvolve, AllocationsEvolve, ClaimsEvolve, TotalReserved, TotalSold, StockOf, Holds, KeysBelow;
    assert AttemptEvolves(db.attempts[a], db'.attempts[a]);
    hide AttemptsEvolve;
    forall p: ProductId ensures Balance(db', p) == Balance(db, p) {
      forall b: nat | b != a ensures Reserved(db', p, b) == Reserved(db, p, b) { AttemptsKeepItems(db, db', b, p); }
      ReservedChanged(db, db', p, a);
      OrdersKeepItems(db.orders, db'.orders, p);
    }
  }

  lemma AllocateIsBalanced(w: World, a: AttemptId, now: Time)
    requires Inv(w) && a < |w.db.attempts| && w.db.attempts[a].reference.Some?
    requires AllocateInventory(w.db, a, now).Ok?
    ensures Balanced(w.db, AllocateInventory(w.db, a, now).value.db)
  {
    hide CasesOk, DraftsOk, CartsOk, CatalogueOk, OrdersOk, OrderIndexOk, AttemptsOwned;
    hide DbEvolves, AllAvailable, ProductsExist, Balanced, LinesByProduct, TakeStock, StockOf, MarkReconciliation,
         AmountOf;
    hide DistinctProducts;
    var db1 := AllocateInventory(w.db, a, now).value.db;
    AllocateEvolves(w.db, a, now);
    MarkingIsQuiet(w.db, a, now);
    if a in w.db.allocations || db1 == MarkReconciliation(w.db, a, now) {
      QuietIsBalanced(w.db, db1);
    } else {
      var items := w.db.attempts[a].items;
      LinesByProductKeeps(items);
      AttemptLines(w, a);
      forall p: ProductId ensures StockOf(db1.products, p) == StockOf(w.db.products, p) - 1 * AmountOf(items, p) {
        TakenStock(w.db.products, LinesByProduct(items), p);
      }
      MoveIsBalanced(w.db, db1, a, 1);
    }
  }

  lemma MarkingIsQuiet(db: Db, a: AttemptId, now: Time)
    ensures Quiet(db, MarkReconciliation(db, a, now)) && Quiet(db, db)
  {
    if a < |db.attempts| && IsActive(db.attempts[a].status) {
    }
  }

  lemma EndingIsQuiet(db: Db, a: AttemptId, now: Time)
    ensures ReleaseDefinitiveOutcome(db, a, CancelledUnpaid, now).Ok? ==>
      Quiet(db, ReleaseDefinitiveOutcome(db, a, CancelledUnpaid, now).value)
  {
    hide ReleaseClaim;
    if a < |db.attempts| && IsActive(db.attempts[a].status) {
    }
  }

  lemma EndingIsBalanced(w: World, a: AttemptId, now: Time)
    requires KeysOk(w)
    ensures OkBalanced(w.db, ReleaseDefinitiveOutcome(w.db, a, CancelledUnpaid, now))
  {
    hide Quiet, DbEvolves, Balanced, ReleaseDefinitiveOutcome;
    EndingIsQuiet(w.db, a, now);
    ReleaseDefinitiveEvolves(w.db, a, CancelledUnpaid, now);
    var r := ReleaseDefinitiveOutcome(w.db, a, CancelledUnpaid, now);
    if r.Ok? { QuietIsBalanced(w.db, r.value); }
  }

  lemma ReleaseIsBalanced(w: World, a: AttemptId, now: Time)
    requires Inv(w) && a in w.provider.intents && w.provider.intents[a].status == IntentCanceled
    ensures a < |w.db.attempts| && OkBalanced(w.db, ReleaseUnpaidPayment(w.db, a, CancelledUnpaid, now))
  {
    hide CasesOk, DraftsOk, CartsOk, CatalogueOk, OrdersOk, OrderIndexOk, AttemptsOwned;
    hide DbEvolves, Balanced, LinesByProduct, ReturnStock, StockOf, ReleaseDefinitiveOutcome, AmountOf;
    assert a < |w.db.attempts|;
    if a in w.db.allocations && w.db.allocations[a].status != Released {
      ReleaseResult(w, a, now);
      ReleaseUnpaidEvolves(w.db, a, CancelledUnpaid, now);
      var db1 := ReleasedRows(w.db, a, now);
      var items := w.db.attempts[a].items;
      LinesByProductKeeps(items);
      forall p: ProductId ensures StockOf(db1.products, p) == StockOf(w.db.products, p) - -1 * AmountOf(items, p) {
        ReturnedStock(w.db.products, LinesByProduct(items), p);
      }
      MoveIsBalanced(w.db, db1, a, -1);
    } else {
      EndingIsBalanced(w, a, now);
    }
  }

  lemma FinalizeIsBalanced(w: World, a: AttemptId, now: Time)
    requires Inv(w) && a in w.provider.intents && w.provider.intents[a].status == IntentSucceeded
    ensures a < |w.db.attempts| && OkBalanced(w.db, FinalizeCapturedPayment(w.db, a, now))
  {
    hide CasesOk, DraftsOk, CartsOk, CatalogueOk, OrdersOk, OrderIndexOk, AttemptsOwned;
    hide DbEvolves, Balanced;
    FinalizeResult(w, a, now);
    FinalizeEvolves(w.db, a, now);
    QuietIsBalanced(w.db, FinalizeCapturedPayment(w.db, a, now).value);
  }

  lemma CashOrderIsBalanced(w: World, context: OrderContext, input: CheckoutInput, now: Time)
    requires Inv(w) && CreateCashOrder(w.db, context, input, now).Ok?
    ensures Balanced(w.db, CreateCashOrder(w.db, context, input, now).value.db)
  {
    hide Inv, CreateCashOrder, Balance, PlacedAs;
    CashOrderWrites(w, context, input, now);
    var r := CreateCashOrder(w.db, context, input, now);
    if r.value.db != w.db {
      PlacedIsBalanced(w.db, r.value.db, context, r.value.db.orders[|w.db.orders|]);
    }
  }

  lemma PlacedIsBalanced(db: Db, db': Db, context: OrderContext, order: Order)
    requires PlacedAs(db, db', context, order)
    ensures Balanced(db, db')
  {
    hide TotalReserved, TotalSold, StockOf, TakeStock, DistinctProducts, CashOrder;
    forall p: ProductId ensures Balance(db', p) == Balance(db, p) {
      TakenStock(db.products, order.items, p);
      SoldMore(db.orders, order, p);
      ReservedKept(db, db', p);
    }
  }

  // ----- Whole transactions -----

  lemma BalancedOn(x: Db, y: Db, z: Db)
    requires Balanced(x, y) && Balanced(y, z)
    ensures Balanced(x, z)
  {
    hide Balance;
    forall p: ProductId ensures Balance(z, p) == Balance(x, p) {
      assert Balance(y, p) == Balance(x, p) && Balance(z, p) == Balance(y, p);
    }
  }

  lemma SameIsBalanced(db: Db)
    ensures Balanced(db, db)
  {
  }

  lemma QuietStep(w: World, db: Db)
    requires Inv(w) && Quiet(w.db, db) && DbEvolves(w.db, db)
    ensures Balanced(w.db, db)
  {
    hide CasesOk, DraftsOk, CartsOk, CatalogueOk, OrdersOk, OrderIndexOk, AttemptsOwned, DbEvolves, Quiet, Balanced;
    QuietIsBalanced(w.db, db);
  }

  lemma AttachIsBalanced(w: World, a: AttemptId, reference: PaymentReference, now: Time)
    requires Inv(w)
    ensures OkBalanced(w.db, AttachReference(w.db, a, reference, now))
  {
    hide Inv, DbEvolves, Balanced;
    AttachEvolves(w.db, a, reference, now);
    if a < |w.db.attempts| && AttachReference(w.db, a, reference, now).Ok? {
      if w.db.attempts[a].reference.Some? {
        QuietStep(w, w.db) by { SameEvolves(w.db); }
      } else {
        QuietStep(w, AttachReference(w.db, a, reference, now).value);
      }
    }
  }

  lemma MarkIsBalanced(w: World, a: AttemptId, now: Time)
    requires Inv(w)
    ensures Balanced(w.db, MarkReconciliation(w.db, a, now))
  {
    hide Inv, DbEvolves, Balanced, Quiet, MarkReconciliation;
    MarkingIsQuiet(w.db, a, now);
    MarkReconciliationEvolves(w.db, a, now);
    QuietStep(w, MarkReconciliation(w.db, a, now));
  }

  lemma ApplyStateIsBalanced(w: World, a: AttemptId, status: IntentStatus, now: Time)
    requires Inv(w) && CanShow(w.provider, a, status)
    ensures ApplyIntentState(w.db, HeldSnapshot(w.provider, a, status), a, now).Ok? ==>
      Balanced(w.db, ApplyIntentState(w.db, HeldSnapshot(w.provider, a, status), a, now).value.db)
  {
    hide Inv, Balanced, AllocateInventory, FinalizeCapturedPayment, ReleaseUnpaidPayment, MarkReconciliation;
    CaseOfProvider(w, a);
    if IntentMatchesAttempt(HeldSnapshot(w.provider, a, status), w.db.attempts[a], a) {
      match status {
        case RequiresCapture => if AllocateInventory(w.db, a, now).Ok? { AllocateIsBalanced(w, a, now); }
        case IntentSucceeded =>
          SeenTerminal(w, a, status);
          FinalizeIsBalanced(w, a, now);
        case IntentCanceled =>
          SeenTerminal(w, a, status);
          ReleaseIsBalanced(w, a, now);
        case Open => MarkIsBalanced(w, a, now);
      }
    }
  }

  lemma IntentEventIsBalanced(w: World, kind: IntentEventType, snapshot: IntentSnapshot, a: AttemptId, now: Time)
    requires Inv(w) && GenuineIntent(w.provider, snapshot) && snapshot.metadata.value.attemptId == a
    requires kind == PaymentCanceled ==> snapshot.status == IntentCanceled
    requires ApplyIntentEvent(w.db, kind, snapshot, a, now).Ok?
    ensures Balanced(w.db, ApplyIntentEvent(w.db, kind, snapshot, a, now).value.db)
  {
    hide Inv, Balanced, AllocateInventory, FinalizeCapturedPayment, ReleaseUnpaidPayment, AttachReference;
    KeepsAttach(w, a, snapshot.id, now);
    AttachIsBalanced(w, a, snapshot.id, now);
    AttachGives(w.db, a, snapshot.id, now);
    var attached := AttachReference(w.db, a, snapshot.id, now);
    var w1 := w.(db := attached.value);
    match kind {
      case CapturableUpdated => AllocateIsBalanced(w1, a, now);
      case PaymentSucceeded =>
        SeenTerminal(w1, a, snapshot.status);
        FinalizeIsBalanced(w1, a, now);
      case PaymentCanceled =>
        SeenTerminal(w1, a, snapshot.status);
        ReleaseIsBalanced(w1, a, now);
      case OtherIntentEvent => SameIsBalanced(w1.db);
    }
    BalancedOn(w.db, w1.db, ApplyIntentEvent(w.db, kind, snapshot, a, now).value.db);
  }

  lemma SessionEventIsBalanced(w: World, kind: SessionEventType, snapshot: SessionSnapshot, a: AttemptId, now: Time)
    requires Inv(w) && GenuineSession(w.provider, snapshot) && snapshot.metadata.value.attemptId == a
    requires ApplySessionEvent(w.db, kind, snapshot, a, now).Ok?
    ensures Balanced(w.db, ApplySessionEvent(w.db, kind, snapshot, a, now).value)
  {
    hide Inv, Balanced, ReleaseDefinitiveOutcome, MarkReconciliation, AttachReference, SessionMatchesAttempt;
    SameIsBalanced(w.db);
    if snapshot.intentId.Some? {
      KeepsAttach(w, a, snapshot.intentId.value, now);
      AttachIsBalanced(w, a, snapshot.intentId.value, now);
    }
    var attached := if snapshot.intentId.Some? then AttachReference(w.db, a, snapshot.intentId.value, now)
                    else Ok(w.db);
    var w1 := w.(db := attached.value);
    SameIsBalanced(w1.db);
    EndingIsBalanced(w1, a, now) by { assert Inv(w1); KeysOfInv(w1); }
    MarkIsBalanced(w1, a, now);
    BalancedOn(w.db, w1.db, ApplySessionEvent(w.db, kind, snapshot, a, now).value);
  }

  lemma KeysOfInv(w: World)
    requires Inv(w)
    ensures KeysOk(w)
  {
  }

  lemma ReceiptsAreBalanced(db: Db, x: Db, receipts: map<EventId, nat>)
    requires Balanced(db, x)
    ensures Balanced(db, x.(receipts := receipts))
  {
    var y := x.(receipts := receipts);
    forall p: ProductId ensures Balance(y, p) == Balance(db, p) {
      assert Balance(x, p) == Balance(db, p);
      ReservedKept(x, y, p);
    }
  }

  lemma WebhookIsBalanced(w: World, event: Event, now: Time)
    requires Inv(w) && GenuineEvent(w.provider, event) && ProcessWebhook(w.db, event, now).Ok?
    ensures Balanced(w.db, ProcessWebhook(w.db, event, now).value.db)
  {
    hide Inv, Balanced, ApplyIntentEvent, ApplySessionEvent, GenuineIntent, GenuineSession;
    SameIsBalanced(w.db);
    if event.id !in w.db.receipts {
      match event.body {
        case OtherObject =>
        case IntentObject(kind, intent) => IntentEventIsBalanced(w, kind, intent, intent.metadata.value.attemptId, now);
        case SessionObject(kind, session) =>
          SessionEventIsBalanced(w, kind, session, session.metadata.value.attemptId, now);
      }
      var handled := HandleEvent(w.db, event, now).value.db;
      ReceiptsAreBalanced(w.db, handled, handled.receipts[event.id := event.payload]);
    }
  }

  lemma PrepareIsBalanced(w: World, input: PrepareInput, now: Time)
    requires Inv(w) && Prepare(w.db, input, now).Ok?
    ensures Balanced(w.db, Prepare(w.db, input, now).value.db)
  {
    hide Inv, Prepare, Balanced, DbEvolves;
    NextAttemptHasNoClaim(w);
    PrepareEvolves(w.db, input, now);
    PrepareWrites(w.db, input, now);
    var db1 := Prepare(w.db, input, now).value.db;
    assert Quiet(w.db, db1);
    QuietStep(w, db1);
  }

  lemma RecordingIsBalanced(w: World, a: AttemptId, session: SessionId, expiresAt: Time, now: Time)
    requires Inv(w) && MarkProviderSessionCreated(w.db, a, session, expiresAt, now).Ok?
    ensures Balanced(w.db, MarkProviderSessionCreated(w.db, a, session, expiresAt, now).value)
  {
    hide Inv, Balanced, DbEvolves;
    RecordSessionEvolves(w.db, a, session, expiresAt, now);
    QuietStep(w, MarkProviderSessionCreated(w.db, a, session, expiresAt, now).value);
  }

  lemma PendingIsQuiet(db: Db, a: AttemptId, reference: PaymentReference, now: Time)
    requires MarkPending(db, a, reference, now).Ok?
    ensures Quiet(db, MarkPending(db, a, reference, now).value)
  {
    var after := MarkPending(db, a, reference, now).value;
    assert after == db.(attempts := after.attempts);
  }

  lemma PendingIsBalanced(w: World, a: AttemptId, reference: PaymentReference, now: Time)
    requires Inv(w) && MarkPending(w.db, a, reference, now).Ok?
    ensures Balanced(w.db, MarkPending(w.db, a, reference, now).value)
  {
    hide Inv, Balanced, DbEvolves, Quiet, MarkPending;
    MarkPendingEvolves(w.db, a, reference, now);
    PendingIsQuiet(w.db, a, reference, now);
    QuietStep(w, MarkPending(w.db, a, reference, now).value);
  }

  lemma CaptureAskedIsBalanced(w: World, a: AttemptId, now: Time)
    requires Inv(w)
    ensures RequestCapture(w.db, a, now).Ok? ==> Balanced(w.db, RequestCapture(w.db, a, now).value.db)
    ensures Balanced(w.db, MarkAttemptReconciliation(w.db, a, now))
  {
    hide Inv, Balanced, DbEvolves, MarkReconciliation;
    RequestCaptureEvolves(w.db, a, now);
    MarkUnresolvedEvolves(w.db, a, now);
    MarkingIsQuiet(w.db, a, now);
    MarkReconciliationKeepsAllocations(w.db, a, now);
    SameIsBalanced(w.db);
    if a in w.db.allocations && IsLive(w.db.allocations[a].status) {
      assert Quiet(w.db, MarkAttemptReconciliation(w.db, a, now));
      QuietStep(w, MarkAttemptReconciliation(w.db, a, now));
      if a < |w.db.attempts| {
        assert Quiet(w.db, RequestCapture(w.db, a, now).value.db);
        QuietStep(w, RequestCapture(w.db, a, now).value.db);
      }
    } else {
      QuietStep(w, MarkAttemptReconciliation(w.db, a, now));
    }
  }

  lemma SavedDraftIsBalanced(w: World, db: Db, cartId: CartId, id: DraftId)
    requires Inv(w) && SavedAs(w.db, db, cartId, id)
    ensures Balanced(w.db, db)
  {
    hide Inv, Balanced, DbEvolves;
    OtherTablesEvolve(w.db, db);
    QuietStep(w, db);
  }

  lemma SaveDraftIsBalanced(w: World, access: CartAccess, raw: Option<Capability>, key: Key, checkout: CanonicalDraft,
                            now: Time, freshId: DraftId)
    requires Inv(w) && freshId !in w.db.drafts
    requires SaveDraft(w.db, access, raw, key, checkout, now, freshId).Ok?
    ensures Balanced(w.db, SaveDraft(w.db, access, raw, key, checkout, now, freshId).value.db)
  {
    hide Inv, SaveDraft, SavedAs, Balanced;
    SavedDraftShape(w, access, raw, key, checkout, now, freshId);
    var existing := ExistingDraft(w.db, access.cartId);
    SavedDraftIsBalanced(w, SaveDraft(w.db, access, raw, key, checkout, now, freshId).value.db, access.cartId,
                         if existing.Some? then existing.value else freshId);
  }

  // ----- Every step, every run -----

  lemma BalancedIsConserved(w: World, w': World)
    requires Conserved(w) && Balanced(w.db, w'.db) && w'.baseline == w.baseline
    ensures Conserved(w')
  {
    hide Balance;
    forall p: ProductId ensures Balance(w'.db, p) == BaselineOf(w', p) {
      assert Balance(w'.db, p) == Balance(w.db, p) && Balance(w.db, p) == BaselineOf(w, p);
    }
  }

  lemma QuietDb(w: World, db: Db)
    requires Inv(w)
    requires db.products == w.db.products && db.attempts == w.db.attempts && db.allocations == w.db.allocations
    requires db.orders == w.db.orders && db.claims == w.db.claims && db.receipts == w.db.receipts
    ensures Balanced(w.db, db)
  {
    hide Inv, DbEvolves, Balanced;
    OtherTablesEvolve(w.db, db);
    QuietStep(w, db);
  }

  /** An administrator's stock edit moves shelf and baseline by the same amount. */
  lemma EditIsConserved(w: World, p: ProductId, product: Product)
    requires Conserved(w)
    ensures Conserved(Next(w, EditProduct(p, product)))
  {
    hide TotalReserved, TotalSold, SlugUnused;
    var w' := Next(w, EditProduct(p, product));
    forall q: ProductId ensures Balance(w'.db, q) == BaselineOf(w', q) {
      assert Balance(w.db, q) == BaselineOf(w, q);
      ReservedKept(w.db, w'.db, q);
    }
  }

  lemma StepIsBalanced(w: World, step: Step)
    requires Inv(w) && !step.EditProduct?
    ensures Balanced(w.db, Next(w, step).db) && Next(w, step).baseline == w.baseline
  {
    hide Inv, Balanced;
    hide Prepare, MarkPending, MarkProviderSessionCreated, ProcessWebhook, ApplyIntentState, RequestCapture;
    hide MarkAttemptReconciliation, ReleaseDefinitiveOutcome, CreateCashOrder, SaveDraft, GenuineEvent, ValidCartLines;
    SameIsBalanced(w.db);
    match step {
      case PrepareStep(input, now) => if Prepare(w.db, input, now).Ok? { PrepareIsBalanced(w, input, now); }
      case RecordSession(id, now) =>
        if id in w.provider.sessions {
          var s := w.provider.sessions[id];
          if MarkProviderSessionCreated(w.db, id, s.id, s.expiresAt, now).Ok? {
            RecordingIsBalanced(w, id, s.id, s.expiresAt, now);
          }
        }
      case RecordIntent(id, now) =>
        if id in w.provider.intents && MarkPending(w.db, id, w.provider.intents[id].reference, now).Ok? {
          PendingIsBalanced(w, id, w.provider.intents[id].reference, now);
        }
      case WebhookStep(event, now) =>
        if GenuineEvent(w.provider, event) && ProcessWebhook(w.db, event, now).Ok? { WebhookIsBalanced(w, event, now); }
      case ApplyStateStep(id, status, now) =>
        if CanShow(w.provider, id, status) { ApplyStateIsBalanced(w, id, status, now); }
      case RequestCaptureStep(id, now) => CaptureAskedIsBalanced(w, id, now);
      case MarkUnresolved(id, now) => CaptureAskedIsBalanced(w, id, now);
      case ReleaseExpired(id, now) => KeysOfInv(w); EndingIsBalanced(w, id, now);
      case CashOrderStep(context, checkout, now) =>
        if CreateCashOrder(w.db, context, checkout, now).Ok? { CashOrderIsBalanced(w, context, checkout, now); }
      case SaveDraftStep(access, raw, key, draft, now, freshId) =>
        if freshId !in w.db.drafts && SaveDraft(w.db, access, raw, key, draft, now, freshId).Ok? {
          SaveDraftIsBalanced(w, access, raw, key, draft, now, freshId);
        }
      case EditCart(c, cart) => QuietDb(w, w.db.(carts := w.db.carts[c := cart]));
      case SetActiveUsers(users) => QuietDb(w, w.db.(activeUsers := users));
      case _ => ProviderLeavesDb(w, step);
    }
  }

  lemma KeepsConserved(w: World, step: Step)
    requires Inv(w) && Conserved(w)
    ensures Conserved(Next(w, step))
  {
    hide Inv, Conserved, Balanced, Next;
    match step {
      case EditProduct(p, product) => EditIsConserved(w, p, product);
      case _ =>
        StepIsBalanced(w, step);
        BalancedIsConserved(w, Next(w, step));
    }
  }

  lemma {:induction false} RunConserves(w: World, steps: seq<Step>)
    requires Inv(w) && Conserved(w)
    ensures Conserved(Run(w, steps))
    decreases |steps|
  {
    hide Inv, Conserved, Next;
    if steps != [] {
      KeepsStep(w, steps[0]);
      KeepsConserved(w, steps[0]);
      RunConserves(Next(w, steps[0]), steps[1..]);
    }
  }

  /** Nothing is lost or sold twice: the sum is exact for every product, and no stock is ever negative. */
  lemma StockIsConserved(w: World, p: ProductId)
    requires Reachable(w)
    ensures StockOf(w.db.products, p) + TotalReserved(w.db, p) + TotalSold(w.db.orders, p) == BaselineOf(w, p)
    ensures StockOf(w.db.products, p) >= 0
  {
    hide Next, Run, CasesOk, KeysOk, DraftsOk, CartsOk, OrdersOk, OrderIndexOk, AttemptsOwned;
    ReachableHolds(w);
    var steps :| w == Run(INITIAL, steps);
    InitialHolds();
    InitialIsConserved();
    RunConserves(INITIAL, steps);
    assert Balance(w.db, p) == BaselineOf(w, p);
  }

  lemma InitialIsConserved()
    ensures Conserved(INITIAL)
  {
  }

  // ----- Stock only comes back when the provider can no longer capture -----

  lemma {:induction false} SmallerSumHasSmallerTerm(f: nat -> int, g: nat -> int, n: nat) returns (j: nat)
    requires Sum(g, n) < Sum(f, n)
    ensures j < n && g(j) < f(j)
  {
    if g(n - 1) < f(n - 1) { j := n - 1; } else { j := SmallerSumHasSmallerTerm(f, g, n - 1); }
  }

  lemma CashSalesAreNotNegative(w: World, p: ProductId, o: nat)
    requires Inv(w)
    ensures Sold(w.db.orders, p, o) >= 0
  {
    hide CasesOk, KeysOk, DraftsOk, CartsOk, CatalogueOk, OrderIndexOk, AttemptsOwned;
    if o < |w.db.orders| && w.db.orders[o].attemptId.None? {
      assert CashOrder(w.db.orders[o]);
      AmountOfNonNegative(w.db.orders[o].items, p);
    }
  }

  lemma SaleIsKept(w: World, w': World, p: ProductId, o: nat)
    requires Inv(w') && OrdersEvolve(w.db.orders, w'.db.orders)
    ensures Sold(w.db.orders, p, o) <= Sold(w'.db.orders, p, o)
  {
    hide Inv;
    CashSalesAreNotNegative(w', p, o);
    if o < |w.db.orders| { assert OrderEvolves(w.db.orders[o], w'.db.orders[o]); }
  }

  lemma SalesOnlyGrow(w: World, w': World, p: ProductId)
    requires Inv(w') && OrdersEvolve(w.db.orders, w'.db.orders)
    ensures TotalSold(w.db.orders, p) <= TotalSold(w'.db.orders, p)
  {
    hide Inv;
    if TotalSold(w'.db.orders, p) < TotalSold(w.db.orders, p) {
      var f, g := (o: nat) => Sold(w.db.orders, p, o), (o: nat) => Sold(w'.db.orders, p, o);
      SumPadded(f, |w.db.orders|, |w'.db.orders|);
      var o := SmallerSumHasSmallerTerm(f, g, |w'.db.orders|);
      SaleIsKept(w, w', p, o);
    }
  }

  lemma ReservedIsNotNegative(w: World, p: ProductId, a: AttemptId)
    requires Inv(w)
    ensures Reserved(w.db, p, a) >= 0
  {
    hide TablesOk;
    assert CaseHolds(w, a);
    if a < |w.db.attempts| { AmountOfNonNegative(w.db.attempts[a].items, p); }
  }

  lemma LostReservation(w: World, w': World, p: ProductId) returns (a: AttemptId)
    requires Inv(w') && AttemptsEvolve(w.db.attempts, w'.db.attempts)
    requires TotalReserved(w'.db, p) < TotalReserved(w.db, p)
    ensures a < |w.db.attempts| && Reserved(w'.db, p, a) < Reserved(w.db, p, a)
  {
    hide Inv;
    var f, g := (b: nat) => Reserved(w.db, p, b), (b: nat) => Reserved(w'.db, p, b);
    SumPadded(f, |w.db.attempts|, |w'.db.attempts|);
    a := SmallerSumHasSmallerTerm(f, g, |w'.db.attempts|);
    ReservedIsNotNegative(w', p, a);
  }

  /**
   * If a step other than an administrator's edit puts stock back, it released the allocation of an attempt that held
   * this product, and the provider has cancelled that attempt's intent: nobody can capture it any more.
   */
  lemma StockReturnsOnlyWhenCanceled(w: World, step: Step, p: ProductId) returns (a: AttemptId)
    requires Reachable(w) && !step.EditProduct?
    requires StockOf(Next(w, step).db.products, p) > StockOf(w.db.products, p)
    ensures a < |w.db.attempts| && AmountOf(w.db.attempts[a].items, p) > 0
    ensures a in w.db.allocations && w.db.allocations[a].status != Released
    ensures AllocationIs(Next(w, step), a, Released)
    ensures a in w.provider.intents && a in Next(w, step).provider.intents
    ensures Next(w, step).provider.intents[a].status == IntentCanceled
  {
    hide Inv, Next, Reachable, TotalReserved, TotalSold;
    var w' := Next(w, step);
    ReachableHolds(w);
    KeepsStep(w, step);
    StepIsBalanced(w, step);
    NextAttemptHasNoClaim(w);
    StepEvolves(w, step);
    SalesOnlyGrow(w, w', p);
    assert Balance(w'.db, p) == Balance(w.db, p);
    a := LostReservation(w, w', p);
    HeldAmountIsPositive(w, w', p, a);
    OneStep(w, step);
    ReachableOn(w, [step]);
    LockStep(w', a);
    AllocatedHasIntent(w, a);
  }

  lemma HeldAmountIsPositive(w: World, w': World, p: ProductId, a: AttemptId)
    requires Inv(w) && DbEvolves(w.db, w'.db)
    requires a < |w.db.attempts| && Reserved(w'.db, p, a) < Reserved(w.db, p, a)
    ensures Holds(w.db.allocations, a) && !Holds(w'.db.allocations, a)
    ensures a in w'.db.allocations && w'.db.allocations[a].status == Released
    ensures AmountOf(w.db.attempts[a].items, p) > 0 && a < |w'.db.attempts|
  {
    hide TablesOk;
    assert CaseHolds(w, a);
    AmountOfNonNegative(w.db.attempts[a].items, p);
    assert AttemptEvolves(w.db.attempts[a], w'.db.attempts[a]);
    assert AllocationEvolves(Lookup(w.db.allocations, a), Lookup(w'.db.allocations, a));
  }

  lemma AllocatedHasIntent(w: World, a: AttemptId)
    requires Inv(w) && a < |w.db.attempts| && a in w.db.allocations
    ensures a in w.provider.intents
  {
    hide TablesOk;
    assert CaseHolds(w, a);
  }
}
