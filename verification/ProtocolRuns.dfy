/** The invariant holds after every step, hence in every reachable world. */
module ProtocolRuns {
  import opened Basics
  import opened Money
  import opened Records
  import opened PaymentAttempts
  import opened StripePayments
  import opened CashOrders
  import opened CheckoutDrafts
  import opened Protocol
  import opened ProtocolSafety
  import opened ProtocolSteps

  // ----- Webhooks and reconciliation -----

  lemma SeenTerminal(w: World, a: AttemptId, status: IntentStatus)
    requires Inv(w) && CanShow(w.provider, a, status)
    requires status in {IntentSucceeded, IntentCanceled}
    ensures a < |w.db.attempts| && w.provider.intents[a].status == status
  {
    hide TablesOk;
    CaseOfProvider(w, a);
  }

  lemma CaseOfProvider(w: World, a: AttemptId)
    requires Inv(w) && (a in w.provider.intents || a in w.provider.sessions)
    ensures a < |w.db.attempts| && CaseInv(CaseOf(w, a))
  {
    hide CaseInv, CartsOk, CatalogueOk, OrdersOk, DraftsOk, AttemptsOwned, OrderIndexOk;
    assert CaseHolds(w, a);
  }

  lemma KeepsApplyState(w: World, a: AttemptId, status: IntentStatus, now: Time)
    requires Inv(w) && CanShow(w.provider, a, status)
    ensures Inv(CommitAction(w, ApplyIntentState(w.db, HeldSnapshot(w.provider, a, status), a, now)))
  {
    hide Inv, CaseInv;
    CaseOfProvider(w, a);
    if IntentMatchesAttempt(HeldSnapshot(w.provider, a, status), w.db.attempts[a], a) {
      match status {
        case RequiresCapture => KeepsAllocate(w, a, now);
        case IntentSucceeded =>
          SeenTerminal(w, a, status);
          KeepsFinalize(w, a, now);
        case IntentCanceled =>
          SeenTerminal(w, a, status);
          KeepsReleaseUnpaid(w, a, now);
        case Open => KeepsMarkReconciliation(w, a, now);
      }
    }
  }

  lemma KeepsIntentEvent(w: World, kind: IntentEventType, snapshot: IntentSnapshot, a: AttemptId, now: Time)
    requires Inv(w) && GenuineIntent(w.provider, snapshot) && snapshot.metadata.value.attemptId == a
    requires kind == PaymentCanceled ==> snapshot.status == IntentCanceled
    ensures Inv(CommitAction(w, ApplyIntentEvent(w.db, kind, snapshot, a, now)))
  {
    hide Inv, CaseInv;
    CaseOfProvider(w, a);
    KeepsAttach(w, a, snapshot.id, now);
    var attached := AttachReference(w.db, a, snapshot.id, now);
    if attached.Ok? && IntentMatchesAttempt(snapshot, attached.value.attempts[a], a) {
      var w1 := w.(db := attached.value);
      match kind {
        case CapturableUpdated =>
          if snapshot.status == RequiresCapture { KeepsAllocate(w1, a, now); }
        case PaymentSucceeded =>
          if snapshot.status == IntentSucceeded {
            SeenTerminal(w1, a, snapshot.status);
            KeepsFinalize(w1, a, now);
          }
        case PaymentCanceled =>
          SeenTerminal(w1, a, snapshot.status);
          KeepsReleaseUnpaid(w1, a, now);
        case OtherIntentEvent =>
      }
    }
  }

  lemma KeepsSessionEvent(w: World, kind: SessionEventType, snapshot: SessionSnapshot, a: AttemptId, now: Time)
    requires Inv(w) && GenuineSession(w.provider, snapshot) && snapshot.metadata.value.attemptId == a
    requires kind == CheckoutExpired ==> snapshot.status == SessionExpired
    ensures Inv(Commit(w, ApplySessionEvent(w.db, kind, snapshot, a, now)))
  {
    hide Inv, CaseInv;
    CaseOfProvider(w, a);
    if snapshot.intentId.Some? { KeepsAttach(w, a, snapshot.intentId.value, now); }
    var attached := if snapshot.intentId.Some? then AttachReference(w.db, a, snapshot.intentId.value, now)
                    else Ok(w.db);
    if attached.Ok? && SessionMatchesAttempt(snapshot, attached.value.attempts[a], a) && kind == CheckoutExpired {
      var w1 := w.(db := attached.value);
      DeadBecauseExpired(w1, a);
      KeepsReleaseDefinitive(w1, a, now);
      KeepsMarkReconciliation(w1, a, now);
    }
  }

  lemma ReceiptsDoNotMatter(w: World, receipts: map<EventId, nat>)
    requires Inv(w)
    ensures Inv(w.(db := w.db.(receipts := receipts)))
  {
    hide CaseInv, CartsOk, CatalogueOk, OrdersOk, DraftsOk, AttemptsOwned, OrderIndexOk;
    var w' := w.(db := w.db.(receipts := receipts));
    forall b: nat ensures CaseHolds(w', b) {
      assert CaseHolds(w, b);
      if b < |w.db.attempts| { assert CaseOf(w', b) == CaseOf(w, b); }
    }
  }

  lemma KeepsHandleEvent(w: World, event: Event, now: Time)
    requires Inv(w) && GenuineEvent(w.provider, event)
    ensures Inv(CommitAction(w, HandleEvent(w.db, event, now)))
  {
    hide Inv, ApplyIntentEvent, ApplySessionEvent;
    match event.body {
      case OtherObject =>
      case IntentObject(kind, intent) => KeepsIntentEvent(w, kind, intent, intent.metadata.value.attemptId, now);
      case SessionObject(kind, session) => KeepsSessionEvent(w, kind, session, session.metadata.value.attemptId, now);
    }
  }

  lemma KeepsWebhook(w: World, event: Event, now: Time)
    requires Inv(w) && GenuineEvent(w.provider, event)
    ensures Inv(CommitAction(w, ProcessWebhook(w.db, event, now)))
  {
    hide Inv, HandleEvent, GenuineEvent;
    KeepsHandleEvent(w, event, now);
    if event.id !in w.db.receipts && HandleEvent(w.db, event, now).Ok? {
      var w1 := w.(db := HandleEvent(w.db, event, now).value.db);
      ReceiptsDoNotMatter(w1, w1.db.receipts[event.id := event.payload]);
    }
  }

  // ----- Preparing an attempt -----

  lemma CartByProductKeeps(products: map<ProductId, Product>, items: seq<CartLine>)
    requires ValidCartLines(products, items)
    ensures ValidCartLines(products, CartByProduct(items))
    ensures multiset(CartByProduct(items)) == multiset(items)
  {
    SortByIsSortedPermutation(items, CartLineKey);
    assert DistinctBy(items, CartLineKey);
    DistinctByPermutation(items, CartByProduct(items), CartLineKey);
    var sorted := CartByProduct(items);
    forall i | 0 <= i < |sorted|
      ensures sorted[i].productId in products && 1 <= sorted[i].amount <= MAX_COMMERCE_AMOUNT
    {
      assert sorted[i] in multiset(items);
    }
    forall i, j | 0 <= i < j < |sorted| ensures sorted[i].productId != sorted[j].productId {
      assert CartLineKey(sorted[i]) != CartLineKey(sorted[j]);
    }
  }

  ghost predicate SealedFrom(lines: seq<Line>, cart: seq<CartLine>) {
    && |lines| == |cart|
    && forall i :: 0 <= i < |lines| ==> lines[i].productId == cart[i].productId && lines[i].amount == cart[i].amount
  }

  lemma {:induction false} SealedLinesMirrorCart(
      products: map<ProductId, Product>, cart: seq<CartLine>, now: Time, subtotal: int)
    requires SealLines(products, cart, now, subtotal).Ok?
    ensures SealedFrom(SealLines(products, cart, now, subtotal).value.lines, cart)
    decreases |cart|
  {
    if cart != [] {
      var first := PriceLine(products[cart[0].productId], cart[0]).value;
      var sum := AddMoneyMinor(subtotal, first.lineTotalMinor).value;
      SealedLinesMirrorCart(products, cart[1..], now, sum);
      var rest := SealLines(products, cart[1..], now, sum).value.lines;
      var lines := SealLines(products, cart, now, subtotal).value.lines;
      assert lines == [first] + rest;
      forall i | 0 <= i < |lines|
        ensures lines[i].productId == cart[i].productId && lines[i].amount == cart[i].amount
      {
        if i > 0 { assert lines[i] == rest[i - 1] && cart[i] == cart[1..][i - 1]; }
      }
    }
  }

  /** What a new attempt looks like. */
  ghost predicate FreshAttempt(attempt: Attempt) {
    && attempt.status == Prepared && attempt.currency == EUR
    && attempt.requestHash == AttemptFingerprint(attempt.draftId, attempt.draftVersion, attempt.userId)
    && attempt.reference.None? && attempt.sessionId.None? && attempt.sessionExpiresAt.None?
    && DistinctProducts(attempt.items)
    && (forall i :: 0 <= i < |attempt.items| ==> 1 <= attempt.items[i].amount)
    && attempt.pricing.totalMinor
         == attempt.pricing.itemSubtotalMinor - attempt.pricing.discountMinor + attempt.pricing.shippingMinor
  }

  lemma KeepsNewAttempt(w: World, attempt: Attempt, claims: map<AttemptId, Claim>)
    requires Inv(w) && FreshAttempt(attempt)
    requires AttemptOwned(attempt, w.db.drafts, w.db.products)
    requires SameOff(w.db.claims, claims, |w.db.attempts|)
    requires |w.db.attempts| in claims <==> attempt.pricing.discountKind == FirstPurchase
    requires |w.db.attempts| in claims ==>
      claims[|w.db.attempts|].status == Claimed && attempt.userId == Some(claims[|w.db.attempts|].userId)
    ensures Inv(w.(db := w.db.(attempts := w.db.attempts + [attempt], claims := claims)))
  {
    hide CartsOk, CatalogueOk, OrdersOk, DraftsOk, CaseInv;
    var w' := w.(db := w.db.(attempts := w.db.attempts + [attempt], claims := claims));
    var n := |w.db.attempts|;
    NewAttemptKeys(w, w', n);
    forall b: nat ensures CaseHolds(w', b) {
      if b < n {
        assert CaseHolds(w, b);
        assert CaseOf(w', b) == CaseOf(w, b);
      } else if b == n {
        FreshCase(CaseOf(w', b));
      }
    }
  }

  lemma FreshCase(c: Case)
    requires FreshAttempt(c.attempt)
    requires c.allocation.None? && c.orderId.None? && c.order.None? && c.session.None? && c.intent.None? && !c.ticket
    requires c.claim.Some? <==> c.attempt.pricing.discountKind == FirstPurchase
    requires c.claim.Some? ==> c.claim.value.status == Claimed && c.attempt.userId == Some(c.claim.value.userId)
    ensures CaseInv(c)
  {
  }

  lemma NewAttemptKeys(w: World, w': World, n: nat)
    requires KeysOk(w) && n == |w.db.attempts| && |w'.db.attempts| == n + 1 && w'.provider == w.provider
    requires w'.db.allocations == w.db.allocations && SameOff(w.db.claims, w'.db.claims, n)
    ensures KeysOk(w')
    ensures n !in w.db.allocations && n !in w.db.claims
    ensures n !in w.provider.sessions && n !in w.provider.intents && n !in w.provider.tickets
  {
  }

  lemma KeepsPrepare(w: World, input: PrepareInput, now: Time)
    requires Inv(w)
    ensures Prepare(w.db, input, now).Ok? ==> Inv(w.(db := Prepare(w.db, input, now).value.db))
  {
    hide CasesOk, KeysOk, OrderIndexOk, CatalogueOk, OrdersOk, AttemptsOwned, ValidCartLines, CanClaimFirstPurchase;
    var r := Prepare(w.db, input, now);
    if r.Ok? && FindAttempt(w.db.attempts, input.draftId, input.key).None? {
      var draft := w.db.drafts[input.draftId];
      var cart := w.db.carts[draft.cartId];
      assert ValidCartLines(w.db.products, cart.items);
      CartByProductKeeps(w.db.products, cart.items);
      var lines := CartByProduct(cart.items);
      var priced := SealLines(w.db.products, lines, now, 0).value;
      SealedLinesMirrorCart(w.db.products, lines, now, 0);
      SealedLinesAreFresh(w.db.products, lines, priced.lines);
      var apply := if input.principal.Account? then CanClaimFirstPurchase(w.db, input.principal.userId) else Ok(false);
      PricingIsExact(priced.subtotal, apply.value);
      var n := |w.db.attempts|;
      NextAttemptHasNoClaim(w);
      var attempt := r.value.db.attempts[n];
      KeepsNewAttempt(w, attempt, r.value.db.claims);
    }
  }

  lemma NextAttemptHasNoClaim(w: World)
    requires Inv(w)
    ensures |w.db.attempts| !in w.db.claims
  {
    hide CasesOk, OrderIndexOk, CatalogueOk, OrdersOk, AttemptsOwned, DraftsOk, CartsOk;
  }

  lemma SealedLinesAreFresh(products: map<ProductId, Product>, cart: seq<CartLine>, lines: seq<Line>)
    requires ValidCartLines(products, cart) && SealedFrom(lines, cart)
    ensures DistinctProducts(lines) && ProductsExist(products, lines)
    ensures forall i :: 0 <= i < |lines| ==> 1 <= lines[i].amount
  {
    forall i, j | 0 <= i < j < |lines| ensures LineKey(lines[i]) != LineKey(lines[j]) {
      assert cart[i].productId != cart[j].productId;
    }
  }

  // ----- Cash orders -----

  lemma {:induction false} PricedLinesMirrorCart(products: map<ProductId, Product>, cart: seq<CartLine>)
    requires CartProductsExist(products, cart) && PriceLines(products, cart).Ok?
    ensures SealedFrom(PriceLines(products, cart).value, cart)
  {
    if cart != [] {
      PricedLinesMirrorCart(products, cart[1..]);
      var rest := PriceLines(products, cart[1..]).value;
      var lines := PriceLines(products, cart).value;
      forall i | 0 <= i < |lines|
        ensures lines[i].productId == cart[i].productId && lines[i].amount == cart[i].amount
      {
        if i > 0 { assert lines[i] == rest[i - 1] && cart[i] == cart[1..][i - 1]; }
      }
    }
  }

  lemma NewCashOrder(orders: seq<Order>, index: map<AttemptId, OrderId>, n: nat, order: Order)
    requires OrderIndexOk(orders, index, n) && OrdersOk(orders)
    requires order.attemptId.None? && CashOrder(order)
    requires FindActiveByCart(orders, order.cartId).None?
    ensures OrderIndexOk(orders + [order], index, n)
    ensures OrdersOk(orders + [order])
  {
    forall o | 0 <= o < |orders| && orders[o].attemptId.None? ensures orders[o].cartId != order.cartId {
      assert CashOrder(orders[o]);
    }
  }

  lemma KeepsNewCashOrder(w: World, products: map<ProductId, Product>, order: Order)
    requires Inv(w) && OnlyStockMoved(w.db.products, products)
    requires order.attemptId.None? && CashOrder(order) && FindActiveByCart(w.db.orders, order.cartId).None?
    ensures Inv(w.(db := w.db.(products := products, orders := w.db.orders + [order])))
  {
    hide CaseInv, CartsOk, CatalogueOk, OrdersOk, DraftsOk, AttemptsOwned, OnlyStockMoved;
    var w' := w.(db := w.db.(products := products, orders := w.db.orders + [order]));
    StockMoveKeepsTables(w, products);
    NewCashOrder(w.db.orders, w.db.orderOfAttempt, |w.db.attempts|, order);
    forall b: nat ensures CaseHolds(w', b) {
      assert CaseHolds(w, b);
      if b < |w.db.attempts| {
        assert CaseOf(w', b) == CaseOf(w, b) by {
          if b in w.db.orderOfAttempt { assert w.db.orderOfAttempt[b] < |w.db.orders|; }
        }
      }
    }
  }

  /** What a placed cash order adds: one order, less stock, an emptied and detached cart. */
  ghost predicate PlacedAs(db: Db, db': Db, context: OrderContext, order: Order) {
    && context.cartId in db.carts
    && db' == db.(products := db'.products, orders := db.orders + [order],
                  carts := db.carts[context.cartId := db.carts[context.cartId].(items := [], userId := None)])
    && order.attemptId.None? && CashOrder(order) && order.cartId == context.cartId
    && order.userId == Some(context.userId)
    && DistinctProducts(order.items)
    && TakeStock(db.products, order.items) == Some(db'.products)
    && OnlyStockMoved(db.products, db'.products)
  }

  lemma PlacedOrderShape(w: World, context: OrderContext, input: CheckoutInput, now: Time)
    requires Inv(w) && context.cartId in w.db.carts
    requires PlaceOrder(w.db, context, input, now).Ok?
    ensures PlaceOrder(w.db, context, input, now).value.orderId == |w.db.orders|
    ensures |PlaceOrder(w.db, context, input, now).value.db.orders| == |w.db.orders| + 1
    ensures var db := PlaceOrder(w.db, context, input, now).value.db;
            PlacedAs(w.db, db, context, db.orders[|w.db.orders|])
  {
    hide CasesOk, KeysOk, OrderIndexOk, OrdersOk, AttemptsOwned, DraftsOk, CatalogueOk;
    hide AllocationOutcomes, OnlyStockMoved, ValidCartLines;
    var items := w.db.carts[context.cartId].items;
    assert ValidCartLines(w.db.products, items);
    CartByProductKeeps(w.db.products, items);
    var lines := CartByProduct(items);
    PricedLinesMirrorCart(w.db.products, lines);
    var priced := PriceLines(w.db.products, lines).value;
    SealedLinesAreFresh(w.db.products, lines, priced);
    TakingMovesStock(w.db.products, priced);
  }

  lemma KeepsPlacedOrder(w: World, db: Db, context: OrderContext, order: Order)
    requires Inv(w) && PlacedAs(w.db, db, context, order) && FindActiveByCart(w.db.orders, context.cartId).None?
    ensures Inv(w.(db := db))
  {
    hide Inv, ValidCartLines;
    KeepsNewCashOrder(w, db.products, order);
    var w1 := w.(db := w.db.(products := db.products, orders := w.db.orders + [order]));
    EmptyCartIsValid(w1.db.products);
    CartChange(w1, context.cartId, w.db.carts[context.cartId].(items := [], userId := None));
  }

  /** A request for a cash order writes nothing, or places one on a cart that no other live order has. */
  lemma CashOrderWrites(w: World, context: OrderContext, input: CheckoutInput, now: Time)
    requires Inv(w)
    ensures var r := CreateCashOrder(w.db, context, input, now);
            r.Ok? && r.value.db != w.db ==>
              && |r.value.db.orders| == |w.db.orders| + 1
              && PlacedAs(w.db, r.value.db, context, r.value.db.orders[|w.db.orders|])
              && FindActiveByCart(w.db.orders, context.cartId).None?
  {
    hide Inv, PlaceOrder, PlacedAs, RequestFingerprint;
    var r := CreateCashOrder(w.db, context, input, now);
    if r.Ok? && r.value.db != w.db { PlacedOrderShape(w, context, input, now); }
  }

  lemma KeepsCashOrder(w: World, context: OrderContext, input: CheckoutInput, now: Time)
    requires Inv(w)
    ensures CreateCashOrder(w.db, context, input, now).Ok? ==>
      Inv(w.(db := CreateCashOrder(w.db, context, input, now).value.db))
  {
    hide Inv, CreateCashOrder, PlacedAs;
    CashOrderWrites(w, context, input, now);
    var r := CreateCashOrder(w.db, context, input, now);
    if r.Ok? && r.value.db != w.db {
      KeepsPlacedOrder(w, r.value.db, context, r.value.db.orders[|w.db.orders|]);
    }
  }

  lemma EmptyCartIsValid(products: map<ProductId, Product>)
    ensures ValidCartLines(products, [])
  {
  }

  // ----- Drafts, carts, products -----

  /** What saving a draft may change: the draft of that cart, and the replay table. */
  ghost predicate SavedAs(db: Db, db': Db, cartId: CartId, id: DraftId) {
    && id in db'.drafts && db'.drafts[id].cartId == cartId
    && (id in db.drafts ==> db.drafts[id].cartId == cartId)
    && (id !in db.drafts ==> cartId !in db.draftOfCart)
    && SameOff(db.drafts, db'.drafts, id)
    && SameOff(db.draftOfCart, db'.draftOfCart, cartId)
    && cartId in db'.draftOfCart && db'.draftOfCart[cartId] == id
    && db' == db.(drafts := db'.drafts, draftOfCart := db'.draftOfCart, draftRequests := db'.draftRequests)
  }

  lemma WrittenShape(
      db: Db, access: CartAccess, key: Key, checkout: CanonicalDraft, now: Time, id: DraftId, existing: Option<Draft>,
      issuing: bool)
    requires access.cartId in db.carts
    requires issuing ==> access.GuestCart?
    requires !issuing && access.GuestCart? ==> existing.Some?
    requires id in db.drafts ==> db.drafts[id].cartId == access.cartId
    requires id !in db.drafts ==> access.cartId !in db.draftOfCart
    ensures WriteDraft(db, access, key, checkout, now, id, existing, issuing).Ok? ==>
      SavedAs(db, WriteDraft(db, access, key, checkout, now, id, existing, issuing).value.db, access.cartId, id)
  {
    hide BuildQuote, PreviewDiscount, WithoutRequests;
  }

  lemma UpdatedShape(db: Db, access: CartAccess, raw: Option<Capability>, key: Key, checkout: CanonicalDraft, now: Time,
                     id: DraftId)
    requires access.cartId in db.carts && id in db.drafts && db.drafts[id].cartId == access.cartId
    requires access.cartId in db.draftOfCart && db.draftOfCart[access.cartId] == id
    requires UpdateExisting(db, access, raw, key, checkout, now, id).Ok?
    ensures SavedAs(db, UpdateExisting(db, access, raw, key, checkout, now, id).value.db, access.cartId, id)
  {
    hide WriteDraft, HasHeldAttempt, HasGuestAccess, HasAccess;
    var draft := Adopted(db.drafts[id], access, now);
    var adopted := db.(drafts := db.drafts[id := draft]);
    if UpdateExisting(db, access, raw, key, checkout, now, id)
       == WriteDraft(adopted, access, key, checkout, now, id, Some(draft), false)
    {
      WrittenShape(adopted, access, key, checkout, now, id, Some(draft), false);
    }
  }

  lemma SavedDraftShape(w: World, access: CartAccess, raw: Option<Capability>, key: Key, checkout: CanonicalDraft,
                        now: Time, freshId: DraftId)
    requires Inv(w) && freshId !in w.db.drafts
    requires SaveDraft(w.db, access, raw, key, checkout, now, freshId).Ok?
    ensures access.cartId in w.db.carts
    ensures var db := SaveDraft(w.db, access, raw, key, checkout, now, freshId).value.db;
            SavedAs(w.db, db, access.cartId, if ExistingDraft(w.db, access.cartId).Some?
                                             then ExistingDraft(w.db, access.cartId).value else freshId)
  {
    hide CasesOk, KeysOk, OrderIndexOk, OrdersOk, AttemptsOwned, CartsOk, CatalogueOk;
    hide WriteDraft, UpdateExisting, SavedAs;
    match ExistingDraft(w.db, access.cartId) {
      case None => WrittenShape(w.db, access, key, checkout, now, freshId, None, access.GuestCart?);
      case Some(id) =>
        if IsExpiredGuestDraft(w.db.drafts[id], access, now) {
          WrittenShape(w.db, access, key, checkout, now, id, Some(w.db.drafts[id]), true);
        } else {
          UpdatedShape(w.db, access, raw, key, checkout, now, id);
        }
    }
  }

  lemma KeepsSavedDraft(w: World, db: Db, cartId: CartId, id: DraftId)
    requires Inv(w) && SavedAs(w.db, db, cartId, id) && cartId in w.db.carts
    ensures Inv(w.(db := db))
  {
    hide CaseInv, CartsOk, CatalogueOk, OrdersOk, OrderIndexOk;
    var w' := w.(db := db);
    forall b: nat ensures CaseHolds(w', b) {
      assert CaseHolds(w, b);
      if b < |w.db.attempts| { assert CaseOf(w', b) == CaseOf(w, b); }
    }
    forall a | 0 <= a < |w.db.attempts| ensures AttemptOwned(w.db.attempts[a], db.drafts, db.products) {
      assert AttemptOwned(w.db.attempts[a], w.db.drafts, w.db.products);
    }
  }

  lemma KeepsSaveDraft(w: World, access: CartAccess, raw: Option<Capability>, key: Key, checkout: CanonicalDraft,
                       now: Time, freshId: DraftId)
    requires Inv(w) && freshId !in w.db.drafts
    ensures SaveDraft(w.db, access, raw, key, checkout, now, freshId).Ok? ==>
      Inv(w.(db := SaveDraft(w.db, access, raw, key, checkout, now, freshId).value.db))
  {
    hide Inv, SaveDraft, SavedAs;
    var r := SaveDraft(w.db, access, raw, key, checkout, now, freshId);
    if r.Ok? {
      SavedDraftShape(w, access, raw, key, checkout, now, freshId);
      var existing := ExistingDraft(w.db, access.cartId);
      KeepsSavedDraft(w, r.value.db, access.cartId, if existing.Some? then existing.value else freshId);
    }
  }

  lemma EditedTables(w: World, p: ProductId, product: Product)
    requires Inv(w) && product.stockAmount >= 0 && SlugUnused(w.db.products, p, product.slug)
    ensures AttemptsOwned(w.db.attempts, w.db.drafts, w.db.products[p := product])
    ensures CartsOk(w.db.carts, w.db.products[p := product])
    ensures CatalogueOk(w.db.products[p := product])
  {
    hide CasesOk, KeysOk, OrdersOk, OrderIndexOk, DraftsOk;
    var products := w.db.products[p := product];
    forall a | 0 <= a < |w.db.attempts| ensures AttemptOwned(w.db.attempts[a], w.db.drafts, products) {
      assert AttemptOwned(w.db.attempts[a], w.db.drafts, w.db.products);
    }
    forall c | c in w.db.carts ensures ValidCartLines(products, w.db.carts[c].items) {
      assert ValidCartLines(w.db.products, w.db.carts[c].items);
    }
  }

  lemma KeepsEditProduct(w: World, p: ProductId, product: Product)
    requires Inv(w) && product.stockAmount >= 0 && SlugUnused(w.db.products, p, product.slug)
    ensures Inv(Next(w, EditProduct(p, product)))
  {
    hide CaseInv, OrdersOk, OrderIndexOk, DraftsOk, AttemptsOwned, CartsOk, CatalogueOk, SlugUnused;
    var w' := Next(w, EditProduct(p, product));
    EditedTables(w, p, product);
    forall b: nat ensures CaseHolds(w', b) {
      assert CaseHolds(w, b);
      if b < |w.db.attempts| { assert CaseOf(w', b) == CaseOf(w, b); }
    }
  }

  lemma KeepsSetActiveUsers(w: World, users: set<UserId>)
    requires Inv(w)
    ensures Inv(w.(db := w.db.(activeUsers := users)))
  {
    hide CaseInv, CartsOk, CatalogueOk, OrdersOk, DraftsOk, AttemptsOwned, OrderIndexOk;
    var w' := w.(db := w.db.(activeUsers := users));
    forall b: nat ensures CaseHolds(w', b) {
      assert CaseHolds(w, b);
      if b < |w.db.attempts| { assert CaseOf(w', b) == CaseOf(w, b); }
    }
  }

  // ----- Every step, every run -----

  lemma KeepsProviderStep(w: World, step: Step)
    requires Inv(w)
    requires step.CreateSession? || step.OpenIntent? || step.AuthorizeIntent? || step.CaptureIntent?
          || step.CancelIntent? || step.ExpireSession?
    ensures Inv(Next(w, step))
  {
    hide Inv, SetIntent, SetSession;
    match step {
      case CreateSession(id, session) =>
        if id < |w.db.attempts| && id !in w.provider.sessions { KeepsCreateSession(w, id, session); }
      case OpenIntent(id, reference) =>
        if id in w.provider.sessions && id !in w.provider.intents && ReferenceUnused(w.provider, reference) {
          KeepsOpenIntent(w, id, reference);
        }
      case AuthorizeIntent(id) =>
        if id in w.provider.sessions && w.provider.sessions[id].status == SessionOpen
           && id in w.provider.intents && w.provider.intents[id].status == Open { KeepsAuthorize(w, id); }
      case CaptureIntent(id) =>
        if id in w.provider.tickets && id in w.provider.intents && w.provider.intents[id].status == RequiresCapture {
          KeepsSetIntent(w, id, IntentSucceeded);
        }
      case CancelIntent(id) =>
        if id in w.provider.intents && w.provider.intents[id].status in {Open, RequiresCapture} {
          KeepsSetIntent(w, id, IntentCanceled);
        }
      case ExpireSession(id) =>
        if id in w.provider.sessions && w.provider.sessions[id].status == SessionOpen { KeepsExpire(w, id); }
    }
  }

  lemma KeepsStep(w: World, step: Step)
    requires Inv(w)
    ensures Inv(Next(w, step))
  {
    hide Inv;
    hide Prepare, MarkPending, MarkProviderSessionCreated, ProcessWebhook, ApplyIntentState, RequestCapture;
    hide MarkAttemptReconciliation, ReleaseDefinitiveOutcome, CreateCashOrder, SaveDraft, GenuineEvent, ValidCartLines;
    match step {
      case PrepareStep(input, now) => KeepsPrepare(w, input, now);
      case RecordSession(id, now) => if id in w.provider.sessions { KeepsRecordSession(w, id, now); }
      case RecordIntent(id, now) => if id in w.provider.intents { KeepsMarkPending(w, id, now); }
      case WebhookStep(event, now) => if GenuineEvent(w.provider, event) { KeepsWebhook(w, event, now); }
      case ApplyStateStep(id, status, now) =>
        if CanShow(w.provider, id, status) { KeepsApplyState(w, id, status, now); }
      case RequestCaptureStep(id, now) => KeepsRequestCapture(w, id, now);
      case MarkUnresolved(id, now) => KeepsMarkUnresolved(w, id, now);
      case ReleaseExpired(id, now) =>
        if id in w.provider.sessions && w.provider.sessions[id].status == SessionExpired {
          DeadBecauseExpired(w, id);
          KeepsReleaseDefinitive(w, id, now);
        }
      case CashOrderStep(context, checkout, now) => KeepsCashOrder(w, context, checkout, now);
      case SaveDraftStep(access, raw, key, draft, now, freshId) =>
        if freshId !in w.db.drafts { KeepsSaveDraft(w, access, raw, key, draft, now, freshId); }
      case EditCart(cartId, cart) => if ValidCartLines(w.db.products, cart.items) { CartChange(w, cartId, cart); }
      case EditProduct(p, product) =>
        if product.stockAmount >= 0 && SlugUnused(w.db.products, p, product.slug) { KeepsEditProduct(w, p, product); }
      case SetActiveUsers(users) => KeepsSetActiveUsers(w, users);
      case _ => KeepsProviderStep(w, step);
    }
  }

  lemma InitialHolds()
    ensures Inv(INITIAL)
  {
  }

  lemma {:induction false} KeepsRun(w: World, steps: seq<Step>)
    requires Inv(w)
    ensures Inv(Run(w, steps))
    decreases |steps|
  {
    hide Inv, Next;
    if steps != [] {
      KeepsStep(w, steps[0]);
      KeepsRun(Next(w, steps[0]), steps[1..]);
    }
  }

  /** The invariant of the whole protocol, over every interleaving. */
  lemma ReachableHolds(w: World)
    requires Reachable(w)
    ensures Inv(w)
  {
    hide Inv, Next;
    var steps :| w == Run(INITIAL, steps);
    InitialHolds();
    KeepsRun(INITIAL, steps);
  }
}
