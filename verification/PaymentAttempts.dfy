/** apps/api/src/payments/payment-attempt.service.ts, each transaction as a function of the database. */
module PaymentAttempts {
  import opened Basics
  import opened Money
  import opened Records

  datatype Principal = Account(userId: UserId) | Guest

  function Owner(principal: Principal): Option<UserId> {
    match principal case Account(u) => Some(u) case Guest => None
  }

  datatype PrepareInput = PrepareInput(
    cartId: CartId, draftId: DraftId, capability: Option<Capability>, key: Key, principal: Principal)

  datatype WithId = WithId(db: Db, attemptId: AttemptId)

  /** The attempt stored under (draft, key), looked up by its unique index. */
  function FindAttempt(attempts: seq<Attempt>, draftId: DraftId, key: Key): (r: Option<AttemptId>)
    ensures r.Some? ==> r.value < |attempts| && attempts[r.value].draftId == draftId && attempts[r.value].key == key
    ensures r.None? ==> forall a :: 0 <= a < |attempts| ==> attempts[a].draftId != draftId || attempts[a].key != key
  {
    if attempts == [] then None
    else
      var last := |attempts| - 1;
      if attempts[last].draftId == draftId && attempts[last].key == key then Some(last)
      else FindAttempt(attempts[..last], draftId, key)
  }

  predicate HasPaidOrder(orders: seq<Order>, userId: UserId) {
    exists o :: 0 <= o < |orders| && orders[o].paymentState == PaymentPaid && orders[o].userId == Some(userId)
  }

  predicate HasClaim(claims: map<AttemptId, Claim>, userId: UserId, status: ClaimStatus) {
    exists a :: a in claims && claims[a].userId == userId && claims[a].status == status
  }

  function CanClaimFirstPurchase(db: Db, userId: UserId): Outcome<bool> {
    if HasPaidOrder(db.orders, userId) || HasClaim(db.claims, userId, Consumed) then Ok(false)
    else if HasClaim(db.claims, userId, Claimed) then Rejected(DiscountClaimHeld)
    else Ok(true)
  }

  datatype PricedLines = PricedLines(lines: seq<Line>, subtotal: int)

  function PriceLine(product: Product, line: CartLine): Outcome<Line> {
    match LineTotalMinor(product.priceMinor, line.amount, product.priceBasisAmount)
    case Rejected(e) => Rejected(e)
    case Ok(total) =>
      Ok(Line(line.productId, product.slug, product.labels, product.rules.saleKind, product.priceMinor,
              product.priceBasisAmount, line.amount, total))
  }

  /** One pass over the cart: snapshot each line and carry the subtotal. */
  function SealLines(products: map<ProductId, Product>, lines: seq<CartLine>, now: Time, subtotal: int)
    : (r: Outcome<PricedLines>)
    decreases |lines|
  {
    if lines == [] then Ok(PricedLines([], subtotal))
    else if CheckoutLineOutcome(Lookup(products, lines[0].productId), lines[0].amount, now) != Available
    then Rejected(AttemptUnavailable)
    else match PriceLine(products[lines[0].productId], lines[0])
      case Rejected(e) => Rejected(e)
      case Ok(first) =>
        match AddMoneyMinor(subtotal, first.lineTotalMinor)
        case Rejected(e) => Rejected(e)
        case Ok(sum) =>
          match SealLines(products, lines[1..], now, sum)
          case Rejected(e) => Rejected(e)
          case Ok(rest) => Ok(PricedLines([first] + rest.lines, rest.subtotal))
  }

  predicate CartProductsExist(products: map<ProductId, Product>, lines: seq<CartLine>) {
    forall i :: 0 <= i < |lines| ==> lines[i].productId in products
  }

  function SealAttempt(db: Db, input: PrepareInput, draft: Draft, requestHash: AttemptFingerprint, now: Time)
    : Outcome<WithId>
    requires draft.cartId in db.carts
  {
    var lines := CartByProduct(db.carts[draft.cartId].items);
    if lines == [] || !CartProductsExist(db.products, lines) then Rejected(AttemptUnavailable)
    else match SealLines(db.products, lines, now, 0)
      case Rejected(e) => Rejected(e)
      case Ok(priced) =>
        match if input.principal.Account? then CanClaimFirstPurchase(db, input.principal.userId) else Ok(false)
        case Rejected(e) => Rejected(e)
        case Ok(applyDiscount) =>
          match CheckoutPricing(priced.subtotal, applyDiscount)
          case Rejected(e) => Rejected(e)
          case Ok(pricing) =>
            var id := |db.attempts|;
            var attempt := Attempt(
              input.draftId, draft.version, Owner(input.principal), input.key, requestHash, draft.checkout.contact,
              EUR, pricing, priced.lines, now, Prepared, None, None, None, None, now);
            var claims := if applyDiscount && input.principal.Account?
                          then db.claims[id := Claim(input.principal.userId, now, Claimed, None)] else db.claims;
            Ok(WithId(db.(attempts := db.attempts + [attempt], claims := claims), id))
  }

  function Prepare(db: Db, input: PrepareInput, now: Time): Outcome<WithId> {
    if input.draftId !in db.drafts || db.drafts[input.draftId].cartId != input.cartId then Rejected(Unauthorized)
    else if input.principal.Account? && input.principal.userId !in db.activeUsers then Rejected(Unauthorized)
    else if input.cartId !in db.carts then Rejected(Unauthorized)
    else
      var draft := db.drafts[input.draftId];
      if draft.userId != Owner(input.principal) || db.carts[input.cartId].userId != Owner(input.principal)
      then Rejected(Unauthorized)
      else if input.principal.Guest? && !VerifyCapability(input.capability, draft.capability, now)
      then Rejected(Unauthorized)
      else if draft.checkout.paymentMethod != StripeDebitCard then Rejected(AttemptUnavailable)
      else
        var requestHash := AttemptFingerprint(input.draftId, draft.version, Owner(input.principal));
        match FindAttempt(db.attempts, input.draftId, input.key)
        case Some(id) =>
          if db.attempts[id].requestHash == requestHash then Ok(WithId(db, id)) else Rejected(IdempotencyConflict)
        case None => SealAttempt(db, input, draft, requestHash, now)
  }

  /** What preparing under a new key writes: one attempt, and its claim if it takes the discount. */
  ghost predicate SealedAs(db: Db, db': Db, input: PrepareInput, now: Time) {
    var n := |db.attempts|;
    && |db'.attempts| == n + 1 && db'.attempts[..n] == db.attempts
    && db' == db.(attempts := db'.attempts, claims := db'.claims)
    && db'.attempts[n].draftId == input.draftId && db'.attempts[n].key == input.key
    && db'.attempts[n].status == Prepared && db'.attempts[n].userId == Owner(input.principal)
    && (input.principal.Guest? ==> db'.claims == db.claims)
    && (input.principal.Account? ==>
          var apply := CanClaimFirstPurchase(db, input.principal.userId);
          && apply.Ok?
          && db'.attempts[n].pricing.discountKind == (if apply.value then FirstPurchase else NoDiscount)
          && db'.claims == (if apply.value then db.claims[n := Claim(input.principal.userId, now, Claimed, None)]
                            else db.claims))
  }

  lemma SealWrites(db: Db, input: PrepareInput, draft: Draft, requestHash: AttemptFingerprint, now: Time)
    requires draft.cartId in db.carts
    ensures SealAttempt(db, input, draft, requestHash, now).Ok? ==>
      SealedAs(db, SealAttempt(db, input, draft, requestHash, now).value.db, input, now)
  {
    hide SealLines, CartByProduct, CartProductsExist, CanClaimFirstPurchase;
  }

  lemma PrepareWrites(db: Db, input: PrepareInput, now: Time)
    ensures var r := Prepare(db, input, now);
            r.Ok? ==>
              if FindAttempt(db.attempts, input.draftId, input.key).Some?
              then r.value.db == db else SealedAs(db, r.value.db, input, now)
  {
    hide SealAttempt, VerifyCapability, SealedAs;
    if Prepare(db, input, now).Ok? {
      var draft := db.drafts[input.draftId];
      SealWrites(db, input, draft, AttemptFingerprint(input.draftId, draft.version, Owner(input.principal)), now);
    }
  }

  // ----- Status changes of one attempt -----

  predicate IsActive(status: AttemptStatus) {
    status == Prepared || status == Pending || status == ReconciliationRequired
  }

  function SetAttempt(db: Db, id: AttemptId, attempt: Attempt): Db
    requires id < |db.attempts|
  {
    db.(attempts := db.attempts[id := attempt])
  }

  function MarkPending(db: Db, id: AttemptId, reference: PaymentReference, now: Time): Outcome<Db> {
    if id >= |db.attempts| then Rejected(AttemptUnavailable)
    else
      var attempt := db.attempts[id];
      if attempt.reference.Some? && attempt.reference != Some(reference) then Rejected(AttemptUnavailable)
      else if attempt.reference == Some(reference) && attempt.status == Pending then Ok(db)
      else if !IsActive(attempt.status) then Rejected(AttemptUnavailable)
      else Ok(SetAttempt(db, id, attempt.(
        pendingAt := Some(now), reference := Some(reference), status := Pending, updatedAt := now)))
  }

  function OrElse<T>(a: Option<T>, b: T): Option<T> {
    if a.Some? then a else Some(b)
  }

  function MarkProviderSessionCreated(db: Db, id: AttemptId, session: SessionId, expiresAt: Time, now: Time)
    : Outcome<Db>
  {
    if id >= |db.attempts| then Rejected(AttemptUnavailable)
    else
      var stored := db.attempts[id];
      if stored.sessionId.Some? && !(stored.sessionId == Some(session) && stored.sessionExpiresAt == Some(expiresAt))
      then Rejected(AttemptUnavailable)
      else if stored.sessionId.None? && stored.sessionExpiresAt.Some? then Rejected(AttemptUnavailable)
      else if !IsActive(stored.status) then Rejected(AttemptUnavailable)
      else Ok(SetAttempt(db, id, stored.(
        pendingAt := OrElse(stored.pendingAt, now), sessionExpiresAt := Some(expiresAt),
        sessionId := Some(session), status := Pending, updatedAt := now)))
  }

  /** `updateMany` guarded by an active status: a finished attempt is left alone. */
  function MarkReconciliation(db: Db, id: AttemptId, now: Time): Db {
    if id < |db.attempts| && IsActive(db.attempts[id].status)
    then SetAttempt(db, id, db.attempts[id].(status := ReconciliationRequired, updatedAt := now))
    else db
  }

  datatype DefinitiveOutcome = FailedOutcome | CancelledUnpaid

  function ReleaseClaim(claims: map<AttemptId, Claim>, id: AttemptId): map<AttemptId, Claim> {
    if id in claims && claims[id].status == Claimed
    then claims[id := claims[id].(status := ClaimReleased)] else claims
  }

  function ReleaseDefinitiveOutcome(db: Db, id: AttemptId, outcome: DefinitiveOutcome, now: Time): Outcome<Db> {
    if id >= |db.attempts| then Rejected(AttemptUnavailable)
    else
      var attempt := db.attempts[id];
      if !IsActive(attempt.status) then
        if (outcome.FailedOutcome? && attempt.status == DefinitivelyFailed)
           || (outcome.CancelledUnpaid? && attempt.status == Cancelled)
        then Ok(db) else Rejected(AttemptUnavailable)
      else
        var status := if outcome.FailedOutcome? then DefinitivelyFailed else Cancelled;
        Ok(SetAttempt(db, id, attempt.(status := status, updatedAt := now)).(claims := ReleaseClaim(db.claims, id)))
  }

  predicate SameLines(orderItems: seq<Line>, attemptItems: seq<Line>) {
    && |orderItems| == |attemptItems|
    && forall i :: 0 <= i < |orderItems| ==> orderItems[i] == attemptItems[i]
  }

  predicate SuccessfulOrderMatchesAttempt(order: Order, attempt: Attempt, id: AttemptId) {
    && order.attemptId == Some(id)
    && order.paymentMethod == StripeDebitCard
    && order.paymentState == PaymentPaid
    && order.status == OrderPaid
    && order.paidAt.Some?
    && order.reference.Some? && order.reference == attempt.reference
    && order.userId == attempt.userId
    && order.currency == attempt.currency
    && order.pricing == attempt.pricing
    && SameLines(LinesByProduct(order.items), LinesByProduct(attempt.items))
  }

  function MarkSucceeded(db: Db, id: AttemptId, orderId: OrderId, now: Time): Outcome<Db> {
    if id >= |db.attempts| || orderId >= |db.orders| then Rejected(AttemptUnavailable)
    else
      var attempt := db.attempts[id];
      if !SuccessfulOrderMatchesAttempt(db.orders[orderId], attempt, id) then Rejected(AttemptUnavailable)
      else if attempt.status == Succeeded then
        if attempt.pricing.discountKind == NoDiscount
           || (id in db.claims && db.claims[id].status == Consumed && db.claims[id].consumedOrderId == Some(orderId))
        then Ok(db) else Rejected(AttemptUnavailable)
      else if attempt.status != Pending && attempt.status != ReconciliationRequired then Rejected(AttemptUnavailable)
      else
        var done := SetAttempt(db, id, attempt.(status := Succeeded, updatedAt := now));
        if attempt.pricing.discountKind == NoDiscount then Ok(done)
        else if id in db.claims && db.claims[id].status == Claimed
        then Ok(done.(claims := db.claims[id := db.claims[id].(status := Consumed, consumedOrderId := Some(orderId))]))
        else Rejected(AttemptUnavailable)
  }
}
