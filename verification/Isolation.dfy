/**
 * A card step works on one attempt: the rows of every other attempt are literally the same afterwards. Nothing here
 * needs the invariant.
 */
module Isolation {
  import opened Basics
  import opened Records
  import opened PaymentAttempts
  import opened StripePayments
  import opened Protocol
  import opened Evolution

  /** The attempt's own row and its allocation. */
  ghost predicate SameRow(x: Db, y: Db, a: AttemptId)
    requires a < |x.attempts| && a < |y.attempts|
  {
    y.attempts[a] == x.attempts[a] && Lookup(y.allocations, a) == Lookup(x.allocations, a)
  }

  ghost predicate OthersKept(x: Db, y: Db, b: AttemptId) {
    && |y.attempts| == |x.attempts|
    && forall a :: 0 <= a < |x.attempts| && a != b ==> SameRow(x, y, a)
  }

  ghost predicate OkOthersKept(x: Db, outcome: Outcome<Db>, b: AttemptId) {
    outcome.Ok? ==> OthersKept(x, outcome.value, b)
  }

  ghost predicate OkActionOthersKept(x: Db, outcome: Outcome<WithAction>, b: AttemptId) {
    outcome.Ok? ==> OthersKept(x, outcome.value.db, b)
  }

  lemma SameOthers(x: Db, b: AttemptId)
    ensures OthersKept(x, x, b)
  {
  }

  lemma OthersKeptOn(x: Db, y: Db, z: Db, b: AttemptId)
    requires OthersKept(x, y, b) && OthersKept(y, z, b)
    ensures OthersKept(x, z, b)
  {
    forall a | 0 <= a < |x.attempts| && a != b ensures SameRow(x, z, a) {
      assert SameRow(x, y, a) && SameRow(y, z, a);
    }
  }

  /** Writing one attempt row, one allocation row and any table of another kind. */
  lemma OwnRowsWritten(x: Db, y: Db, b: AttemptId, attempt: Attempt, allocation: Allocation)
    requires b < |x.attempts|
    requires y.attempts == x.attempts || y.attempts == x.attempts[b := attempt]
    requires y.allocations == x.allocations || y.allocations == x.allocations[b := allocation]
    ensures OthersKept(x, y, b)
  {
  }

  /** Writing one attempt row only. */
  lemma OwnAttemptWritten(x: Db, y: Db, b: AttemptId, attempt: Attempt)
    requires b < |x.attempts| && y.allocations == x.allocations
    requires y.attempts == x.attempts || y.attempts == x.attempts[b := attempt]
    ensures OthersKept(x, y, b)
  {
  }

  // ----- The transactions -----

  lemma MarkingLeavesOthers(db: Db, b: AttemptId, now: Time)
    ensures OthersKept(db, MarkReconciliation(db, b, now), b)
  {
    hide OthersKept;
    SameOthers(db, b);
    if b < |db.attempts| && IsActive(db.attempts[b].status) {
      OwnAttemptWritten(db, MarkReconciliation(db, b, now), b,
                        db.attempts[b].(status := ReconciliationRequired, updatedAt := now));
    }
  }

  lemma AttachingLeavesOthers(db: Db, b: AttemptId, reference: PaymentReference, now: Time)
    ensures OkOthersKept(db, AttachReference(db, b, reference, now), b)
  {
    hide OthersKept, OrElse;
    SameOthers(db, b);
    var r := AttachReference(db, b, reference, now);
    if r.Ok? && db.attempts[b].reference.None? { OwnAttemptWritten(db, r.value, b, r.value.attempts[b]); }
  }

  lemma PendingLeavesOthers(db: Db, b: AttemptId, reference: PaymentReference, now: Time)
    ensures OkOthersKept(db, MarkPending(db, b, reference, now), b)
  {
    hide OthersKept;
    SameOthers(db, b);
    var r := MarkPending(db, b, reference, now);
    if r.Ok? && r.value != db { OwnAttemptWritten(db, r.value, b, r.value.attempts[b]); }
  }

  lemma EndingLeavesOthers(db: Db, b: AttemptId, outcome: DefinitiveOutcome, now: Time)
    ensures OkOthersKept(db, ReleaseDefinitiveOutcome(db, b, outcome, now), b)
  {
    hide OthersKept, ReleaseClaim;
    SameOthers(db, b);
    var r := ReleaseDefinitiveOutcome(db, b, outcome, now);
    if r.Ok? && IsActive(db.attempts[b].status) { OwnAttemptWritten(db, r.value, b, r.value.attempts[b]); }
  }

  lemma AllocatingLeavesOthers(db: Db, b: AttemptId, now: Time)
    requires b < |db.attempts| && db.attempts[b].reference.Some?
    ensures AllocateInventory(db, b, now).Ok? ==> OthersKept(db, AllocateInventory(db, b, now).value.db, b)
  {
    hide OthersKept, AllAvailable, TakeStock, ProductsExist, LinesByProduct, MarkReconciliation, PendingOrder;
    SameOthers(db, b);
    MarkingLeavesOthers(db, b, now);
    var r := AllocateInventory(db, b, now);
    if r.Ok? && b !in db.allocations && AllAvailable(db.products, LinesByProduct(db.attempts[b].items), now) {
      OwnRowsWritten(db, r.value.db, b, db.attempts[b], r.value.db.allocations[b]);
    }
  }

  lemma CaptureLeavesOthers(db: Db, b: AttemptId, now: Time)
    ensures RequestCapture(db, b, now).Ok? ==> OthersKept(db, RequestCapture(db, b, now).value.db, b)
  {
    hide OthersKept, OrElse;
    SameOthers(db, b);
    var r := RequestCapture(db, b, now);
    if r.Ok? && b in db.allocations && IsLive(db.allocations[b].status) {
      OwnRowsWritten(db, r.value.db, b, db.attempts[b], r.value.db.allocations[b]);
    }
  }

  lemma UnresolvedLeavesOthers(db: Db, b: AttemptId, now: Time)
    ensures OthersKept(db, MarkAttemptReconciliation(db, b, now), b)
  {
    hide OrElse, MarkReconciliation;
    MarkingLeavesOthers(db, b, now);
    MarkingKeepsAllocations(db, b, now);
    var marked, unresolved := MarkReconciliation(db, b, now), MarkAttemptReconciliation(db, b, now);
    assert unresolved.attempts == marked.attempts;
    forall a | 0 <= a < |db.attempts| && a != b ensures SameRow(db, unresolved, a) {
      assert SameRow(db, marked, a);
    }
  }

  lemma MarkingKeepsAllocations(db: Db, b: AttemptId, now: Time)
    ensures MarkReconciliation(db, b, now).allocations == db.allocations
  {
  }

  lemma SucceedingLeavesOthers(db: Db, b: AttemptId, o: OrderId, now: Time)
    ensures OkOthersKept(db, MarkSucceeded(db, b, o, now), b)
  {
    hide OthersKept, SuccessfulOrderMatchesAttempt, SetAttempt;
    SameOthers(db, b);
    if b < |db.attempts| {
      var paid := db.attempts[b].(status := Succeeded, updatedAt := now);
      SuccessWritten(db, b, paid, db.claims);
      if b in db.claims {
        SuccessWritten(db, b, paid, db.claims[b := db.claims[b].(status := Consumed, consumedOrderId := Some(o))]);
      }
    }
  }

  lemma SuccessWritten(db: Db, b: AttemptId, paid: Attempt, claims: map<AttemptId, Claim>)
    requires b < |db.attempts|
    ensures OthersKept(db, SetAttempt(db, b, paid), b)
    ensures OthersKept(db, SetAttempt(db, b, paid).(claims := claims), b)
  {
  }

  lemma SettlingLeavesOthers(db: Db, b: AttemptId, now: Time)
    requires b < |db.attempts|
    ensures OkOthersKept(db, FinalizeCapturedPayment(db, b, now), b)
  {
    hide OthersKept, MarkSucceeded, CartAfterPurchase;
    SameOthers(db, b);
    var r := FinalizeCapturedPayment(db, b, now);
    if r.Ok? && db.attempts[b].status != Succeeded {
      var o := db.orderOfAttempt[b];
      var paid := db.orders[o].(paidAt := Some(now), paymentState := PaymentPaid, status := OrderPaid);
      var captured := db.allocations[b].(capturedAt := Some(now), status := Captured);
      var db1 := db.(orders := db.orders[o := paid], allocations := db.allocations[b := captured]);
      OwnRowsWritten(db, db1, b, db.attempts[b], captured);
      SucceedingLeavesOthers(db1, b, o, now);
      var done := MarkSucceeded(db1, b, o, now).value;
      OthersKeptOn(db, db1, done, b);
      CartsAreNoRows(db, done, done.(carts := r.value.carts), b);
    }
  }

  lemma CartsAreNoRows(x: Db, y: Db, z: Db, b: AttemptId)
    requires OthersKept(x, y, b) && z.attempts == y.attempts && z.allocations == y.allocations
    ensures OthersKept(x, z, b)
  {
    forall a | 0 <= a < |x.attempts| && a != b ensures SameRow(x, z, a) { assert SameRow(x, y, a); }
  }

  lemma ReleasingLeavesOthers(db: Db, b: AttemptId, outcome: DefinitiveOutcome, now: Time)
    requires b < |db.attempts|
    ensures OkOthersKept(db, ReleaseUnpaidPayment(db, b, outcome, now), b)
  {
    hide OthersKept, ReleaseDefinitiveOutcome, LinesByProduct, ProductsExist, ReturnStock;
    EndingLeavesOthers(db, b, outcome, now);
    var r := ReleaseUnpaidPayment(db, b, outcome, now);
    if r.Ok? && b in db.allocations && db.allocations[b].status != Released {
      var released := db.allocations[b].(releasedAt := Some(now), status := Released);
      var o := db.allocations[b].orderId;
      var order := db.orders[o].(paymentState := PaymentFailed, status := OrderCancelled);
      var db1 := db.(products := ReturnStock(db.products, LinesByProduct(db.attempts[b].items)),
                     allocations := db.allocations[b := released], orders := db.orders[o := order]);
      OwnRowsWritten(db, db1, b, db.attempts[b], released);
      EndingLeavesOthers(db1, b, outcome, now);
      OthersKeptOn(db, db1, ReleaseDefinitiveOutcome(db1, b, outcome, now).value, b);
    }
  }

  lemma StateLeavesOthers(db: Db, intent: IntentSnapshot, b: AttemptId, now: Time)
    ensures OkActionOthersKept(db, ApplyIntentState(db, intent, b, now), b)
  {
    hide OthersKept, AllocateInventory, FinalizeCapturedPayment, ReleaseUnpaidPayment, MarkReconciliation;
    if b < |db.attempts| && IntentMatchesAttempt(intent, db.attempts[b], b) {
      match intent.status {
        case RequiresCapture => AllocatingLeavesOthers(db, b, now);
        case IntentSucceeded => SettlingLeavesOthers(db, b, now);
        case IntentCanceled => ReleasingLeavesOthers(db, b, CancelledUnpaid, now);
        case Open => MarkingLeavesOthers(db, b, now);
      }
    }
  }

  lemma IntentEventLeavesOthers(db: Db, kind: IntentEventType, intent: IntentSnapshot, b: AttemptId, now: Time)
    ensures OkActionOthersKept(db, ApplyIntentEvent(db, kind, intent, b, now), b)
  {
    hide OthersKept, AttachReference, AllocateInventory, FinalizeCapturedPayment, ReleaseUnpaidPayment;
    AttachingLeavesOthers(db, b, intent.id, now);
    var r := ApplyIntentEvent(db, kind, intent, b, now);
    if r.Ok? {
      AttachGives(db, b, intent.id, now);
      var attached := AttachReference(db, b, intent.id, now).value;
      match kind {
        case CapturableUpdated => AllocatingLeavesOthers(attached, b, now);
        case PaymentSucceeded => SettlingLeavesOthers(attached, b, now);
        case PaymentCanceled => ReleasingLeavesOthers(attached, b, CancelledUnpaid, now);
        case OtherIntentEvent => SameOthers(attached, b);
      }
      OthersKeptOn(db, attached, r.value.db, b);
    }
  }

  lemma SessionEventLeavesOthers(db: Db, kind: SessionEventType, session: SessionSnapshot, b: AttemptId, now: Time)
    ensures OkOthersKept(db, ApplySessionEvent(db, kind, session, b, now), b)
  {
    hide OthersKept, AttachReference, ReleaseDefinitiveOutcome, MarkReconciliation;
    SameOthers(db, b);
    if session.intentId.Some? { AttachingLeavesOthers(db, b, session.intentId.value, now); }
    var r := ApplySessionEvent(db, kind, session, b, now);
    if r.Ok? {
      var attached := if session.intentId.Some? then AttachReference(db, b, session.intentId.value, now).value else db;
      SameOthers(attached, b);
      EndingLeavesOthers(attached, b, CancelledUnpaid, now);
      MarkingLeavesOthers(attached, b, now);
      OthersKeptOn(db, attached, r.value, b);
    }
  }

  /** The attempt an event speaks about. */
  function EventAttempt(event: Event): AttemptId {
    match event.body
    case IntentObject(_, intent) => if intent.metadata.Some? then intent.metadata.value.attemptId else 0
    case SessionObject(_, session) => if session.metadata.Some? then session.metadata.value.attemptId else 0
    case OtherObject => 0
  }

  lemma WebhookLeavesOthers(db: Db, event: Event, now: Time)
    ensures OkActionOthersKept(db, ProcessWebhook(db, event, now), EventAttempt(event))
  {
    hide OthersKept, ApplyIntentEvent, ApplySessionEvent;
    var b := EventAttempt(event);
    SameOthers(db, b);
    match event.body {
      case OtherObject =>
      case IntentObject(kind, intent) => IntentEventLeavesOthers(db, kind, intent, b, now);
      case SessionObject(kind, session) => SessionEventLeavesOthers(db, kind, session, b, now);
    }
    var r := HandleEvent(db, event, now);
    if r.Ok? { CartsAreNoRows(db, r.value.db, WithReceipt(r.value.db, event), b); }
  }

  lemma RecordingLeavesOthers(db: Db, b: AttemptId, session: SessionId, expiresAt: Time, now: Time)
    ensures OkOthersKept(db, MarkProviderSessionCreated(db, b, session, expiresAt, now), b)
  {
    hide OthersKept, OrElse;
    var r := MarkProviderSessionCreated(db, b, session, expiresAt, now);
    if r.Ok? { OwnAttemptWritten(db, r.value, b, r.value.attempts[b]); }
  }

  // ----- The steps -----

  function CardAttempt(step: Step): AttemptId
    requires IsCardStep(step)
  {
    if step.WebhookStep? then EventAttempt(step.event) else step.id
  }

  lemma CardStepLeavesOthers(w: World, step: Step)
    requires IsCardStep(step)
    ensures OthersKept(w.db, Next(w, step).db, CardAttempt(step))
    ensures Next(w, step).provider.sessions == w.provider.sessions
  {
    hide OthersKept, MarkPending, MarkProviderSessionCreated, ProcessWebhook, ApplyIntentState, RequestCapture;
    hide MarkAttemptReconciliation, ReleaseDefinitiveOutcome, GenuineEvent, HeldSnapshot;
    var b := CardAttempt(step);
    SameOthers(w.db, b);
    match step {
      case RecordSession(id, now) =>
        if b in w.provider.sessions {
          RecordingLeavesOthers(w.db, b, w.provider.sessions[b].id, w.provider.sessions[b].expiresAt, now);
        }
      case RecordIntent(id, now) =>
        if b in w.provider.intents { PendingLeavesOthers(w.db, b, w.provider.intents[b].reference, now); }
      case WebhookStep(event, now) => WebhookLeavesOthers(w.db, event, now);
      case ApplyStateStep(id, status, now) =>
        if CanShow(w.provider, b, status) { StateLeavesOthers(w.db, HeldSnapshot(w.provider, b, status), b, now); }
      case RequestCaptureStep(id, now) => CaptureLeavesOthers(w.db, b, now);
      case MarkUnresolved(id, now) => UnresolvedLeavesOthers(w.db, b, now);
      case ReleaseExpired(id, now) => EndingLeavesOthers(w.db, b, CancelledUnpaid, now);
    }
  }
}
