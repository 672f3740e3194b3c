/**
 * What every step of the payment protocol keeps. The invariant of one attempt is stated on its own rows and its own
 * provider objects (a Case); a step works on one attempt, and the cases of all others stay literally the same.
 */
module ProtocolSafety {
  import opened Basics
  import opened Money
  import opened Records
  import opened PaymentAttempts
  import opened StripePayments
  import opened Protocol

  // ----- One attempt and everything attached to it -----

  datatype Case = Case(
    attempt: Attempt,
    allocation: Option<Allocation>,
    orderId: Option<OrderId>,
    order: Option<Order>,
    claim: Option<Claim>,
    session: Option<Session>,
    intent: Option<Intent>,
    ticket: bool)

  ghost function CaseOf(w: World, a: AttemptId): Case
    requires a < |w.db.attempts|
  {
    var orderId := Lookup(w.db.orderOfAttempt, a);
    Case(w.db.attempts[a], Lookup(w.db.allocations, a), orderId,
         if orderId.Some? && orderId.value < |w.db.orders| then Some(w.db.orders[orderId.value]) else None,
         Lookup(w.db.claims, a), Lookup(w.provider.sessions, a), Lookup(w.provider.intents, a),
         a in w.provider.tickets)
  }

  ghost predicate LinesOk(c: Case) {
    && DistinctProducts(c.attempt.items)
    && (forall i :: 0 <= i < |c.attempt.items| ==> 1 <= c.attempt.items[i].amount)
    && c.attempt.currency == EUR
    && c.attempt.requestHash == AttemptFingerprint(c.attempt.draftId, c.attempt.draftVersion, c.attempt.userId)
    && c.attempt.pricing.totalMinor
         == c.attempt.pricing.itemSubtotalMinor - c.attempt.pricing.discountMinor + c.attempt.pricing.shippingMinor
  }

  ghost predicate ReferenceOk(c: Case) {
    && (c.attempt.reference.Some? ==>
          c.attempt.status != Prepared && c.intent.Some? && c.attempt.reference == Some(c.intent.value.reference))
    && (c.attempt.status == Pending ==>
          (c.attempt.sessionId.Some? || c.attempt.reference.Some?) && c.attempt.pendingAt.Some?)
  }

  ghost predicate SessionOk(c: Case) {
    && (c.intent.Some? ==> c.session.Some?)
    && (c.session.Some? ==>
          && c.session.value.owner == OwnerReferenceOf(c.attempt)
          && c.session.value.currency == c.attempt.currency
          && c.session.value.amount == c.attempt.pricing.totalMinor)
    && (c.attempt.sessionId.Some? ==>
          && c.session.Some?
          && c.attempt.sessionId == Some(c.session.value.id)
          && c.attempt.sessionExpiresAt == Some(c.session.value.expiresAt))
    && (c.attempt.sessionId.None? ==> c.attempt.sessionExpiresAt.None?)
  }

  ghost predicate IntentOk(c: Case) {
    c.intent.Some? ==>
      var i := c.intent.value;
      && i.status in i.seen
      && (IntentSucceeded in i.seen <==> i.status == IntentSucceeded)
      && (IntentCanceled in i.seen <==> i.status == IntentCanceled)
      && (i.status == IntentSucceeded ==> c.ticket)
      && (c.session.Some? && RequiresCapture in i.seen ==> c.session.value.status == SessionComplete)
  }

  /** The provider can never capture this attempt's money any more. */
  ghost predicate Dead(c: Case) {
    || (c.intent.Some? && c.intent.value.status == IntentCanceled)
    || (c.session.Some? && c.session.value.status == SessionExpired)
  }

  ghost predicate OutcomeOk(c: Case) {
    && c.attempt.status != DefinitivelyFailed
    && (c.attempt.status == Succeeded <==> c.allocation.Some? && c.allocation.value.status == Captured)
    && (c.attempt.status == Succeeded ==> c.intent.Some? && c.intent.value.status == IntentSucceeded)
    && (c.attempt.status == Cancelled ==> Dead(c))
    && (c.allocation.Some? && c.allocation.value.status == Released ==>
          c.attempt.status == Cancelled && c.intent.Some? && c.intent.value.status == IntentCanceled)
  }

  ghost predicate OrderMirrors(order: Order, attempt: Attempt) {
    && order.paymentMethod == StripeDebitCard
    && order.currency == attempt.currency
    && order.pricing == attempt.pricing
    && order.userId == attempt.userId
    && order.requestHash == CardRequest(attempt.requestHash)
    && order.reference == attempt.reference
    && order.items == LinesByProduct(attempt.items)
  }

  ghost predicate OrderFollows(order: Order, status: AllocationStatus) {
    match status
    case Captured => order.status == OrderPaid && order.paymentState == PaymentPaid && order.paidAt.Some?
    case Released => order.status == OrderCancelled && order.paymentState == PaymentFailed && order.paidAt.None?
    case _ => order.status == OrderPlaced && order.paymentState == PaymentPending && order.paidAt.None?
  }

  ghost predicate AllocationOk(c: Case) {
    && (c.allocation.None? <==> c.orderId.None?)
    && (c.allocation.Some? ==>
          var l := c.allocation.value;
          && c.attempt.reference == Some(l.reference)
          && c.intent.Some? && RequiresCapture in c.intent.value.seen
          && c.orderId == Some(l.orderId) && c.order.Some?
          && OrderMirrors(c.order.value, c.attempt)
          && OrderFollows(c.order.value, l.status)
          && (l.status == Allocated ==> l.captureRequestedAt.None?)
          && (l.status in {CaptureRequested, CaptureUnresolved, Captured} ==> l.captureRequestedAt.Some?))
    && (c.ticket ==> c.allocation.Some? && c.allocation.value.captureRequestedAt.Some?)
  }

  function ClaimStatusFor(status: AttemptStatus): ClaimStatus {
    match status
    case Succeeded => Consumed
    case Cancelled => ClaimReleased
    case DefinitivelyFailed => ClaimReleased
    case _ => Claimed
  }

  ghost predicate ClaimOk(c: Case) {
    && (c.claim.Some? <==> c.attempt.pricing.discountKind == FirstPurchase)
    && (c.claim.Some? ==>
          && c.attempt.userId == Some(c.claim.value.userId)
          && c.claim.value.status == ClaimStatusFor(c.attempt.status)
          && (c.claim.value.status == Consumed ==> c.claim.value.consumedOrderId == c.orderId))
  }

  ghost predicate CaseInv(c: Case) {
    && LinesOk(c) && ReferenceOk(c) && SessionOk(c) && IntentOk(c) && OutcomeOk(c) && AllocationOk(c) && ClaimOk(c)
  }

  ghost predicate CaseHolds(w: World, a: AttemptId) {
    a < |w.db.attempts| ==> CaseInv(CaseOf(w, a))
  }

  // ----- Tables and their keys -----

  ghost predicate KeysBelow<T>(m: map<nat, T>, n: nat) {
    forall a :: a in m ==> a < n
  }

  ghost predicate ReferencesDistinct(intents: map<AttemptId, Intent>) {
    forall a, b :: a in intents && b in intents && a != b ==> intents[a].reference != intents[b].reference
  }

  ghost predicate KeysOk(w: World) {
    && KeysBelow(w.db.allocations, |w.db.attempts|)
    && KeysBelow(w.db.claims, |w.db.attempts|)
    && KeysBelow(w.provider.sessions, |w.db.attempts|)
    && KeysBelow(w.provider.intents, |w.db.attempts|)
    && (forall a :: a in w.provider.tickets ==> a < |w.db.attempts|)
    && ReferencesDistinct(w.provider.intents)
  }

  ghost predicate OrderIndexOk(orders: seq<Order>, orderOfAttempt: map<AttemptId, OrderId>, n: nat) {
    && (forall a :: a in orderOfAttempt ==>
          a < n && orderOfAttempt[a] < |orders| && orders[orderOfAttempt[a]].attemptId == Some(a))
    && (forall o :: 0 <= o < |orders| && orders[o].attemptId.Some? ==>
          orders[o].attemptId.value in orderOfAttempt && orderOfAttempt[orders[o].attemptId.value] == o)
  }

  ghost predicate AttemptOwned(attempt: Attempt, drafts: map<DraftId, Draft>, products: map<ProductId, Product>) {
    attempt.draftId in drafts && ProductsExist(products, attempt.items)
  }

  ghost predicate AttemptsOwned(
      attempts: seq<Attempt>, drafts: map<DraftId, Draft>, products: map<ProductId, Product>)
  {
    forall a :: 0 <= a < |attempts| ==> AttemptOwned(attempts[a], drafts, products)
  }

  ghost predicate DraftsOk(drafts: map<DraftId, Draft>, draftOfCart: map<CartId, DraftId>, carts: map<CartId, Cart>) {
    && (forall d :: d in drafts ==>
          drafts[d].cartId in carts && drafts[d].cartId in draftOfCart && draftOfCart[drafts[d].cartId] == d)
    && (forall c :: c in draftOfCart ==> draftOfCart[c] in drafts && drafts[draftOfCart[c]].cartId == c)
  }

  ghost predicate CartsOk(carts: map<CartId, Cart>, products: map<ProductId, Product>) {
    forall c :: c in carts ==> ValidCartLines(products, carts[c].items)
  }

  ghost predicate CatalogueOk(products: map<ProductId, Product>) {
    && (forall p :: p in products ==> products[p].stockAmount >= 0)
    && (forall p, q :: p in products && q in products && p != q ==> products[p].slug != products[q].slug)
  }

  ghost predicate CashOrder(order: Order) {
    && order.status == OrderPlaced && order.paymentState == DueOnDelivery && order.paymentMethod == CashOnDelivery
    && order.userId.Some? && order.requestHash.CashRequest? && order.paidAt.None?
    && order.requestHash.cartId == order.cartId
    && forall i :: 0 <= i < |order.items| ==> 1 <= order.items[i].amount
  }

  /** What the unique index on `Order.cartId` promises. */
  ghost predicate OneLiveOrderACart(orders: seq<Order>) {
    forall o, p :: 0 <= o < p < |orders| && orders[o].status != OrderCancelled && orders[p].status != OrderCancelled ==>
      orders[o].cartId != orders[p].cartId
  }

  /** Cash orders are never cancelled, and a cart has at most one order that is not. */
  ghost predicate OrdersOk(orders: seq<Order>) {
    && (forall o :: 0 <= o < |orders| && orders[o].attemptId.None? ==> CashOrder(orders[o]))
    && OneLiveOrderACart(orders)
  }

  ghost predicate TablesOk(w: World) {
    && KeysOk(w)
    && OrderIndexOk(w.db.orders, w.db.orderOfAttempt, |w.db.attempts|)
    && AttemptsOwned(w.db.attempts, w.db.drafts, w.db.products)
    && DraftsOk(w.db.drafts, w.db.draftOfCart, w.db.carts)
    && CartsOk(w.db.carts, w.db.products)
    && CatalogueOk(w.db.products)
    && OrdersOk(w.db.orders)
  }

  ghost predicate CasesOk(w: World) {
    forall a: nat :: CaseHolds(w, a)
  }

  ghost predicate Inv(w: World) {
    TablesOk(w) && CasesOk(w)
  }

  // ----- Framing: a step on attempt `a` leaves every other case alone -----

  ghost predicate SameRows(w: World, w': World, b: AttemptId)
    requires b < |w.db.attempts| && b < |w'.db.attempts|
  {
    && w'.db.attempts[b] == w.db.attempts[b]
    && Lookup(w'.db.allocations, b) == Lookup(w.db.allocations, b)
    && Lookup(w'.db.orderOfAttempt, b) == Lookup(w.db.orderOfAttempt, b)
    && Lookup(w'.db.claims, b) == Lookup(w.db.claims, b)
    && Lookup(w'.provider.sessions, b) == Lookup(w.provider.sessions, b)
    && Lookup(w'.provider.intents, b) == Lookup(w.provider.intents, b)
    && (b in w'.provider.tickets <==> b in w.provider.tickets)
  }

  ghost predicate OrdersKept(w: World, w': World, a: AttemptId) {
    && |w.db.orders| <= |w'.db.orders|
    && forall o :: 0 <= o < |w.db.orders| && w.db.orders[o].attemptId != Some(a) ==> w'.db.orders[o] == w.db.orders[o]
  }

  ghost predicate OnlyTouches(w: World, w': World, a: AttemptId) {
    && |w'.db.attempts| == |w.db.attempts|
    && OrdersKept(w, w', a)
    && forall b :: 0 <= b < |w.db.attempts| && b != a ==> SameRows(w, w', b)
  }

  lemma OtherCaseKept(w: World, w': World, a: AttemptId, b: AttemptId)
    requires OrderIndexOk(w.db.orders, w.db.orderOfAttempt, |w.db.attempts|) && OnlyTouches(w, w', a)
    requires b < |w.db.attempts| && b != a
    ensures CaseOf(w', b) == CaseOf(w, b)
  {
    assert SameRows(w, w', b);
    var orderId := Lookup(w.db.orderOfAttempt, b);
    if orderId.Some? {
      assert b in w.db.orderOfAttempt;
      assert w.db.orders[orderId.value].attemptId == Some(b);
    }
  }

  lemma OtherCasesKept(w: World, w': World, a: AttemptId)
    requires OrderIndexOk(w.db.orders, w.db.orderOfAttempt, |w.db.attempts|) && CasesOk(w) && OnlyTouches(w, w', a)
    requires CaseHolds(w', a)
    ensures CasesOk(w')
  {
    forall b: nat ensures CaseHolds(w', b) {
      if b < |w.db.attempts| && b != a {
        assert CaseHolds(w, b);
        OtherCaseKept(w, w', a, b);
      }
    }
  }

  /** Replacing one attempt row, and nothing else. */
  lemma AttemptRowChange(w: World, a: AttemptId, attempt: Attempt)
    requires Inv(w) && a < |w.db.attempts|
    requires attempt.draftId == w.db.attempts[a].draftId && attempt.items == w.db.attempts[a].items
    requires CaseInv(CaseOf(w, a).(attempt := attempt))
    ensures Inv(w.(db := SetAttempt(w.db, a, attempt)))
  {
    hide CaseInv, DraftsOk, CartsOk, CatalogueOk, OrdersOk, OrderIndexOk, AttemptsOwned;
    var w' := w.(db := SetAttempt(w.db, a, attempt));
    assert OnlyTouches(w, w', a);
    assert CaseOf(w', a) == CaseOf(w, a).(attempt := attempt);
    OtherCasesKept(w, w', a);
    AttemptRowTables(w, a, attempt);
  }

  lemma AttemptRowTables(w: World, a: AttemptId, attempt: Attempt)
    requires TablesOk(w) && a < |w.db.attempts|
    requires attempt.draftId == w.db.attempts[a].draftId && attempt.items == w.db.attempts[a].items
    ensures TablesOk(w.(db := SetAttempt(w.db, a, attempt)))
  {
    assert AttemptOwned(w.db.attempts[a], w.db.drafts, w.db.products);
  }
}
