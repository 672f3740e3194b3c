/** apps/api/src/payments/stripe-payment.service.ts, each transaction as a function of the database. */
module StripePayments {
  import opened Basics
  import opened Records
  import opened PaymentAttempts

  // ----- What the provider sends -----

  datatype OwnerReference = UserOwner(userId: UserId) | DraftOwner(draftId: DraftId)

  function OwnerReferenceOf(attempt: Attempt): OwnerReference {
    if attempt.userId.Some? then UserOwner(attempt.userId.value) else DraftOwner(attempt.draftId)
  }

  datatype IntentStatus = Open | RequiresCapture | IntentSucceeded | IntentCanceled

  datatype Metadata = Metadata(sandbox: bool, attemptId: AttemptId, owner: OwnerReference)

  datatype IntentSnapshot = IntentSnapshot(
    liveMode: bool,
    id: PaymentReference,
    metadata: Option<Metadata>,
    currency: Currency,
    amount: int,
    status: IntentStatus,
    manualCapture: bool,
    amountCapturable: int,
    amountReceived: int)

  datatype SessionStatus = SessionOpen | SessionComplete | SessionExpired

  datatype SessionSnapshot = SessionSnapshot(
    liveMode: bool,
    id: SessionId,
    clientReference: AttemptId,
    metadata: Option<Metadata>,
    currency: Currency,
    amountTotal: int,
    intentId: Option<PaymentReference>,
    unpaid: bool,
    status: SessionStatus,
    expiresAt: Time)

  datatype IntentEventType = CapturableUpdated | PaymentSucceeded | PaymentCanceled | OtherIntentEvent

  datatype SessionEventType = CheckoutExpired | OtherSessionEvent

  datatype EventBody =
    | IntentObject(intentEvent: IntentEventType, intent: IntentSnapshot)
    | SessionObject(sessionEvent: SessionEventType, session: SessionSnapshot)
    | OtherObject

  datatype Event = Event(id: EventId, payload: nat, body: EventBody)

  datatype ActionKind = Capture | Cancel

  datatype ProviderAction = ProviderAction(attemptId: AttemptId, kind: ActionKind)

  datatype WithAction = WithAction(db: Db, action: Option<ProviderAction>)

  // ----- Guards -----

  predicate IntentMatchesAttempt(intent: IntentSnapshot, attempt: Attempt, id: AttemptId) {
    && !intent.liveMode
    && attempt.reference == Some(intent.id)
    && intent.metadata == Some(Metadata(true, id, OwnerReferenceOf(attempt)))
    && intent.currency == attempt.currency
    && intent.amount == attempt.pricing.totalMinor
  }

  function AttachReference(db: Db, id: AttemptId, reference: PaymentReference, now: Time): Outcome<Db> {
    if id >= |db.attempts| then Rejected(PaymentUnavailable)
    else
      var attempt := db.attempts[id];
      if attempt.reference.Some? then
        if attempt.reference == Some(reference) then Ok(db) else Rejected(PaymentUnavailable)
      else if attempt.status != Pending && attempt.status != ReconciliationRequired then Rejected(PaymentUnavailable)
      else Ok(SetAttempt(db, id, attempt.(
        pendingAt := OrElse(attempt.pendingAt, now), reference := Some(reference), status := Pending,
        updatedAt := now)))
  }

  lemma AttachGives(db: Db, a: AttemptId, reference: PaymentReference, now: Time)
    requires AttachReference(db, a, reference, now).Ok?
    ensures a < |db.attempts| == |AttachReference(db, a, reference, now).value.attempts|
    ensures AttachReference(db, a, reference, now).value.attempts[a].reference == Some(reference)
  {
    if db.attempts[a].reference.Some? {
    }
  }

  // ----- Allocation, capture, release -----

  predicate IsLive(status: AllocationStatus) {
    status != Captured && status != Released
  }

  datatype WithKind = WithKind(db: Db, kind: Option<ActionKind>)

  function PendingOrder(attempt: Attempt, id: AttemptId, cartId: CartId, now: Time): Order {
    Order(cartId, attempt.userId, CardKey(id), CardRequest(attempt.requestHash), attempt.contact, Some(id),
          StripeDebitCard, attempt.currency, attempt.pricing, LinesByProduct(attempt.items), now, OrderPlaced,
          PaymentPending, None, attempt.reference)
  }

  function AllocateInventory(db: Db, id: AttemptId, now: Time): Outcome<WithKind>
    requires id < |db.attempts| && db.attempts[id].reference.Some?
  {
    var attempt := db.attempts[id];
    if id in db.allocations then
      Ok(WithKind(db, if IsLive(db.allocations[id].status) then Some(Capture) else None))
    else if attempt.draftId !in db.drafts || db.drafts[attempt.draftId].cartId !in db.carts
    then Rejected(AttemptUnavailable)
    else if !ProductsExist(db.products, attempt.items) then Rejected(AttemptUnavailable)
    else if !AllAvailable(db.products, LinesByProduct(attempt.items), now)
    then Ok(WithKind(MarkReconciliation(db, id, now), Some(Cancel)))
    else match TakeStock(db.products, LinesByProduct(attempt.items))
      case None => Rejected(AttemptUnavailable)
      case Some(products) =>
        if CartTaken(db.orders, db.drafts[attempt.draftId].cartId) then Rejected(UniqueViolation)
        else
          var orderId := |db.orders|;
          var order := PendingOrder(attempt, id, db.drafts[attempt.draftId].cartId, now);
          var allocation := Allocation(orderId, attempt.reference.value, Allocated, now, None, None, None);
          Ok(WithKind(db.(products := products, orders := db.orders + [order],
                          orderOfAttempt := db.orderOfAttempt[id := orderId],
                          allocations := db.allocations[id := allocation]), Some(Capture)))
  }

  datatype CaptureTicket = CaptureTicket(db: Db, reference: Option<PaymentReference>)

  /** The transaction that opens `requestCapture`; the provider call follows only if it returns a reference. */
  function RequestCapture(db: Db, id: AttemptId, now: Time): Outcome<CaptureTicket> {
    if id >= |db.attempts| then Rejected(PaymentUnavailable)
    else if id !in db.allocations || !IsLive(db.allocations[id].status) then Ok(CaptureTicket(db, None))
    else
      var allocation := db.allocations[id];
      var requested := allocation.(
        captureRequestedAt := OrElse(allocation.captureRequestedAt, now), status := CaptureRequested);
      Ok(CaptureTicket(db.(allocations := db.allocations[id := requested]), db.attempts[id].reference))
  }

  function WithoutBoughtLines(lines: seq<CartLine>, bought: seq<Line>): seq<CartLine> {
    if lines == [] then []
    else
      var rest := WithoutBoughtLines(lines[1..], bought);
      if exists i ::
           0 <= i < |bought| && bought[i].productId == lines[0].productId && bought[i].amount == lines[0].amount
      then rest else [lines[0]] + rest
  }

  function CartAfterPurchase(cart: Cart, attempt: Attempt): Cart {
    cart.(items := WithoutBoughtLines(cart.items, attempt.items),
          userId := if attempt.userId.Some? then None else cart.userId)
  }

  function FinalizeCapturedPayment(db: Db, id: AttemptId, now: Time): Outcome<Db>
    requires id < |db.attempts|
  {
    var attempt := db.attempts[id];
    if attempt.status == Succeeded then Ok(db)
    else if id !in db.allocations || db.allocations[id].status == Released
            || db.allocations[id].captureRequestedAt.None?
    then Rejected(AttemptUnavailable)
    else if id !in db.orderOfAttempt || db.orderOfAttempt[id] >= |db.orders| then Rejected(AttemptUnavailable)
    else
      var orderId := db.orderOfAttempt[id];
      var paid := db.orders[orderId].(paidAt := Some(now), paymentState := PaymentPaid, status := OrderPaid);
      var captured := db.allocations[id].(capturedAt := Some(now), status := Captured);
      match MarkSucceeded(
          db.(orders := db.orders[orderId := paid], allocations := db.allocations[id := captured]), id, orderId, now)
      case Rejected(e) => Rejected(e)
      case Ok(done) =>
        if attempt.draftId !in done.drafts || done.drafts[attempt.draftId].cartId !in done.carts
        then Rejected(AttemptUnavailable)
        else
          var cartId := done.drafts[attempt.draftId].cartId;
          Ok(done.(carts := done.carts[cartId := CartAfterPurchase(done.carts[cartId], attempt)]))
  }

  function ReleaseUnpaidPayment(db: Db, id: AttemptId, outcome: DefinitiveOutcome, now: Time): Outcome<Db>
    requires id < |db.attempts|
  {
    var attempt := db.attempts[id];
    if id in db.allocations && db.allocations[id].status == Captured then Rejected(AttemptUnavailable)
    else if id in db.allocations && db.allocations[id].status != Released then
      var allocation := db.allocations[id];
      if !ProductsExist(db.products, LinesByProduct(attempt.items)) || allocation.orderId >= |db.orders|
      then Rejected(AttemptUnavailable)
      else
        var products := ReturnStock(db.products, LinesByProduct(attempt.items));
        var released := allocation.(releasedAt := Some(now), status := Released);
        var order := db.orders[allocation.orderId].(paymentState := PaymentFailed, status := OrderCancelled);
        ReleaseDefinitiveOutcome(
          db.(products := products, allocations := db.allocations[id := released],
              orders := db.orders[allocation.orderId := order]), id, outcome, now)
    else ReleaseDefinitiveOutcome(db, id, outcome, now)
  }

  function MarkAttemptReconciliation(db: Db, id: AttemptId, now: Time): Db {
    var marked := MarkReconciliation(db, id, now);
    if id in db.allocations && IsLive(db.allocations[id].status) then
      var allocation := db.allocations[id];
      var unresolved := allocation.(
        captureRequestedAt := OrElse(allocation.captureRequestedAt, now), status := CaptureUnresolved);
      marked.(allocations := db.allocations[id := unresolved])
    else marked
  }

  // ----- Webhooks and reconciliation -----

  function ActionFor(id: AttemptId, outcome: Outcome<WithKind>): Outcome<WithAction> {
    match outcome
    case Rejected(e) => Rejected(e)
    case Ok(r) => Ok(WithAction(r.db, if r.kind.Some? then Some(ProviderAction(id, r.kind.value)) else None))
  }

  function NoAction(outcome: Outcome<Db>): Outcome<WithAction> {
    match outcome
    case Rejected(e) => Rejected(e)
    case Ok(db) => Ok(WithAction(db, None))
  }

  function ApplyIntentEvent(db: Db, kind: IntentEventType, intent: IntentSnapshot, id: AttemptId, now: Time)
    : Outcome<WithAction>
  {
    match AttachReference(db, id, intent.id, now)
    case Rejected(e) => Rejected(e)
    case Ok(attached) =>
      var attempt := attached.attempts[id];
      if !IntentMatchesAttempt(intent, attempt, id) then Rejected(PaymentUnavailable)
      else match kind
        case CapturableUpdated =>
          if intent.status != RequiresCapture || !intent.manualCapture
             || intent.amountCapturable != attempt.pricing.totalMinor
          then Rejected(PaymentUnavailable)
          else ActionFor(id, AllocateInventory(attached, id, now))
        case PaymentSucceeded =>
          if intent.status != IntentSucceeded || intent.amountReceived != attempt.pricing.totalMinor
          then Rejected(PaymentUnavailable)
          else NoAction(FinalizeCapturedPayment(attached, id, now))
        case PaymentCanceled => NoAction(ReleaseUnpaidPayment(attached, id, CancelledUnpaid, now))
        case OtherIntentEvent => Ok(WithAction(attached, None))
  }

  predicate SessionMatchesAttempt(session: SessionSnapshot, attempt: Attempt, id: AttemptId) {
    && !session.liveMode
    && attempt.sessionId == Some(session.id)
    && session.clientReference == id
    && session.metadata.Some? && session.metadata.value.owner == OwnerReferenceOf(attempt)
    && session.currency == attempt.currency
    && session.amountTotal == attempt.pricing.totalMinor
    && (attempt.reference.Some? ==> session.intentId == attempt.reference)
  }

  function ApplySessionEvent(db: Db, kind: SessionEventType, session: SessionSnapshot, id: AttemptId, now: Time)
    : Outcome<Db>
  {
    var loaded := if session.intentId.Some? then AttachReference(db, id, session.intentId.value, now)
                  else if id < |db.attempts| then Ok(db) else Rejected(PaymentUnavailable);
    match loaded
    case Rejected(e) => Rejected(e)
    case Ok(attached) =>
      var attempt := attached.attempts[id];
      if !SessionMatchesAttempt(session, attempt, id) then Rejected(PaymentUnavailable)
      else if kind == CheckoutExpired then
        if id !in attached.allocations && session.unpaid
        then ReleaseDefinitiveOutcome(attached, id, CancelledUnpaid, now)
        else if attempt.status != Succeeded then Ok(MarkReconciliation(attached, id, now))
        else Ok(attached)
      else Ok(attached)
  }

  function WithReceipt(db: Db, event: Event): Db {
    db.(receipts := db.receipts[event.id := event.payload])
  }

  function HandleEvent(db: Db, event: Event, now: Time): Outcome<WithAction> {
    match event.body
    case OtherObject => Ok(WithAction(db, None))
    case IntentObject(kind, intent) =>
      if intent.metadata.None? || !intent.metadata.value.sandbox then Rejected(PaymentUnavailable)
      else ApplyIntentEvent(db, kind, intent, intent.metadata.value.attemptId, now)
    case SessionObject(kind, session) =>
      if session.metadata.None? || !session.metadata.value.sandbox then Rejected(PaymentUnavailable)
      else NoAction(ApplySessionEvent(db, kind, session, session.metadata.value.attemptId, now))
  }

  function ProcessWebhook(db: Db, event: Event, now: Time): Outcome<WithAction> {
    if event.id in db.receipts then
      if db.receipts[event.id] == event.payload then Ok(WithAction(db, None)) else Rejected(PaymentUnavailable)
    else match HandleEvent(db, event, now)
      case Rejected(e) => Rejected(e)
      case Ok(r) => Ok(WithAction(WithReceipt(r.db, event), r.action))
  }

  function ApplyIntentState(db: Db, intent: IntentSnapshot, id: AttemptId, now: Time): Outcome<WithAction> {
    if id >= |db.attempts| then Rejected(PaymentUnavailable)
    else
      var attempt := db.attempts[id];
      if !IntentMatchesAttempt(intent, attempt, id) then Rejected(PaymentUnavailable)
      else match intent.status
        case RequiresCapture =>
          if !intent.manualCapture || intent.amountCapturable != attempt.pricing.totalMinor
          then Rejected(AttemptUnavailable)
          else ActionFor(id, AllocateInventory(db, id, now))
        case IntentSucceeded =>
          if intent.amountReceived != attempt.pricing.totalMinor then Rejected(AttemptUnavailable)
          else NoAction(FinalizeCapturedPayment(db, id, now))
        case IntentCanceled => NoAction(ReleaseUnpaidPayment(db, id, CancelledUnpaid, now))
        case Open => Ok(WithAction(MarkReconciliation(db, id, now), None))
  }
}
