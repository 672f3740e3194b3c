/**
 * The card payment service as an object over the shared tables: webhooks, reconciliation, allocation, capture and
 * release write row after row, and a transaction that throws puts the tables back.
 */
module StripePaymentService {
  import opened Basics
  import opened Records
  import opened PaymentAttempts
  import opened StripePayments
  import opened Database
  import opened PaymentAttemptService

  /** Deleting the bought lines one product at a time is deleting them all. */
  lemma {:induction false} BoughtOneByOne(lines: seq<CartLine>, bought: seq<Line>, line: Line)
    ensures WithoutBoughtLines(WithoutBoughtLines(lines, bought), [line]) == WithoutBoughtLines(lines, bought + [line])
  {
    if lines != [] {
      BoughtOneByOne(lines[1..], bought, line);
      var l := lines[0];
      assert (exists i :: 0 <= i < |bought + [line]| && (bought + [line])[i].productId == l.productId
                          && (bought + [line])[i].amount == l.amount)
        <==> (exists i :: 0 <= i < |bought| && bought[i].productId == l.productId && bought[i].amount == l.amount)
             || (line.productId == l.productId && line.amount == l.amount) by { BoughtOrLast(bought, line, l); }
      var rest := WithoutBoughtLines(lines[1..], bought);
      assert ([l] + rest)[1..] == rest;
      assert [line][0] == line;
    }
  }

  lemma BoughtOrLast(bought: seq<Line>, line: Line, l: CartLine)
    ensures (exists i :: 0 <= i < |bought + [line]| && (bought + [line])[i].productId == l.productId
                         && (bought + [line])[i].amount == l.amount)
      <==> (exists i :: 0 <= i < |bought| && bought[i].productId == l.productId && bought[i].amount == l.amount)
           || (line.productId == l.productId && line.amount == l.amount)
  {
    var all := bought + [line];
    if exists i :: 0 <= i < |bought| && bought[i].productId == l.productId && bought[i].amount == l.amount {
      var i :| 0 <= i < |bought| && bought[i].productId == l.productId && bought[i].amount == l.amount;
      assert all[i] == bought[i];
    }
    assert all[|bought|] == line;
  }

  lemma {:induction false} NothingBought(lines: seq<CartLine>)
    ensures WithoutBoughtLines(lines, []) == lines
  {
    if lines != [] { NothingBought(lines[1..]); }
  }

  class Payments {
    const db: Tables
    const attempts: Attempts

    ghost predicate Valid() {
      attempts.db == db
    }

    constructor (db: Tables, attempts: Attempts)
      requires attempts.db == db
      ensures this.db == db && this.attempts == attempts && Valid()
    {
      this.db := db;
      this.attempts := attempts;
    }

    /** `lockAndAttachPaymentReference` */
    method AttachReference(id: AttemptId, reference: PaymentReference, now: Time) returns (r: Outcome<()>)
      modifies db`attempts
      ensures var spec := StripePayments.AttachReference(old(db.View()), id, reference, now);
              if r.Ok? then spec == Ok(db.View()) else spec == Rejected(r.reason) && db.View() == old(db.View())
    {
      if id >= |db.attempts| { return Rejected(PaymentUnavailable); }
      var attempt := db.attempts[id];
      if attempt.reference.Some? {
        return if attempt.reference == Some(reference) then Ok(()) else Rejected(PaymentUnavailable);
      }
      if attempt.status != Pending && attempt.status != ReconciliationRequired { return Rejected(PaymentUnavailable); }
      db.attempts := db.attempts[id := attempt.(
        pendingAt := OrElse(attempt.pendingAt, now), reference := Some(reference), status := Pending,
        updatedAt := now)];
      r := Ok(());
    }

    /** `attempt.items.some(outcome !== 'available')`, negated. */
    method EveryLineAvailable(lines: seq<Line>, now: Time) returns (ok: bool)
      ensures ok <==> AllAvailable(db.products, lines, now)
    {
      hide CheckoutLineOutcome;
      var i := 0;
      while i < |lines|
        invariant 0 <= i <= |lines|
        invariant AllAvailable(db.products, lines[..i], now)
      {
        if CheckoutLineOutcome(Lookup(db.products, lines[i].productId), lines[i].amount, now) != Available {
          return false;
        }
        assert lines[..i + 1] == lines[..i] + [lines[i]];
        i := i + 1;
      }
      assert lines[..i] == lines;
      ok := true;
    }

    /** Take the stock and write order and allocation; a product short half-way throws, and so does a taken cart. */
    method TakeAndOrder(id: AttemptId, lines: seq<Line>, now: Time) returns (r: Outcome<()>)
      requires id < |db.attempts| && db.attempts[id].reference.Some? && lines == LinesByProduct(db.attempts[id].items)
      requires db.attempts[id].draftId in db.drafts
      modifies db`products, db`orders, db`orderOfAttempt, db`allocations
      ensures TakeStock(old(db.products), lines).None? ==> r == Rejected(AttemptUnavailable)
      ensures TakeStock(old(db.products), lines).Some? ==>
        r == if CartTaken(old(db.orders), old(db.drafts)[old(db.attempts)[id].draftId].cartId)
             then Rejected(UniqueViolation) else Ok(())
      ensures r.Ok? ==>
        var was := old(db.View());
        var attempt := was.attempts[id];
        db.View() == was.(
          products := TakeStock(was.products, lines).value,
          orders := was.orders + [PendingOrder(attempt, id, was.drafts[attempt.draftId].cartId, now)],
          orderOfAttempt := was.orderOfAttempt[id := |was.orders|],
          allocations := was.allocations[id := Allocation(
            |was.orders|, attempt.reference.value, Allocated, now, None, None, None)])
    {
      hide TakeStock, CartTaken, LinesByProduct;
      var ok := db.DecrementStock(lines);
      if !ok { return Rejected(AttemptUnavailable); }
      var attempt, orderId := db.attempts[id], |db.orders|;
      ok := db.InsertOrder(PendingOrder(attempt, id, db.drafts[attempt.draftId].cartId, now));
      if !ok { return Rejected(UniqueViolation); }
      db.orderOfAttempt := db.orderOfAttempt[id := orderId];
      db.allocations := db.allocations[
        id := Allocation(orderId, attempt.reference.value, Allocated, now, None, None, None)];
      r := Ok(());
    }

    /** `allocateInventory` */
    method AllocateInventory(id: AttemptId, now: Time) returns (r: Outcome<Option<ActionKind>>)
      requires Valid() && id < |db.attempts| && db.attempts[id].reference.Some?
      modifies db`attempts, db`products, db`orders, db`orderOfAttempt, db`allocations
      ensures var spec := StripePayments.AllocateInventory(old(db.View()), id, now);
              match r
              case Ok(kind) => spec == Ok(WithKind(db.View(), kind))
              case Rejected(e) => spec == Rejected(e)
    {
      hide TakeStock, CartTaken, PendingOrder, AllAvailable, ProductsExist, LinesByProduct;
      hide PaymentAttempts.MarkReconciliation;
      if id in db.allocations {
        return Ok(if IsLive(db.allocations[id].status) then Some(Capture) else None);
      }
      var attempt := db.attempts[id];
      if attempt.draftId !in db.drafts || db.drafts[attempt.draftId].cartId !in db.carts {
        return Rejected(AttemptUnavailable);
      }
      if !ProductsExist(db.products, attempt.items) { return Rejected(AttemptUnavailable); }
      var lines := LinesByProduct(attempt.items);
      var available := EveryLineAvailable(lines, now);
      if !available {
        attempts.MarkReconciliation(id, now);
        return Ok(Some(Cancel));
      }
      var taken := TakeAndOrder(id, lines, now);
      match taken {
        case Ok(_) => r := Ok(Some(Capture));
        case Rejected(e) => r := Rejected(e);
      }
    }

    /** The transaction that opens `requestCapture`. */
    method RequestCapture(id: AttemptId, now: Time) returns (r: Outcome<Option<PaymentReference>>)
      modifies db`allocations
      ensures var spec := StripePayments.RequestCapture(old(db.View()), id, now);
              match r
              case Ok(reference) => spec == Ok(CaptureTicket(db.View(), reference))
              case Rejected(e) => spec == Rejected(e) && db.View() == old(db.View())
    {
      if id >= |db.attempts| { return Rejected(PaymentUnavailable); }
      if id !in db.allocations || !IsLive(db.allocations[id].status) { return Ok(None); }
      var allocation := db.allocations[id];
      db.allocations := db.allocations[id := allocation.(
        captureRequestedAt := OrElse(allocation.captureRequestedAt, now), status := CaptureRequested)];
      r := Ok(db.attempts[id].reference);
    }

    /** Delete the bought lines from the cart and detach it from the account. */
    method EmptyCart(cartId: CartId, attempt: Attempt)
      requires cartId in db.carts
      modifies db`carts
      ensures db.carts == old(db.carts)[cartId := CartAfterPurchase(old(db.carts)[cartId], attempt)]
    {
      hide WithoutBoughtLines;
      var cart := db.carts[cartId];
      var lines := cart.items;
      NothingBought(cart.items);
      var i := 0;
      while i < |attempt.items|
        invariant 0 <= i <= |attempt.items|
        invariant lines == WithoutBoughtLines(cart.items, attempt.items[..i])
        invariant db.carts == old(db.carts)
      {
        BoughtOneByOne(cart.items, attempt.items[..i], attempt.items[i]);
        assert attempt.items[..i + 1] == attempt.items[..i] + [attempt.items[i]];
        lines := WithoutBoughtLines(lines, [attempt.items[i]]);
        i := i + 1;
      }
      assert attempt.items[..i] == attempt.items;
      db.carts := db.carts[cartId := cart.(
        items := lines, userId := if attempt.userId.Some? then None else cart.userId)];
    }

    /** `finalizeCapturedPayment` */
    method FinalizeCapturedPayment(id: AttemptId, now: Time) returns (r: Outcome<()>)
      requires Valid() && id < |db.attempts|
      modifies db`orders, db`allocations, db`attempts, db`claims, db`carts
      ensures var spec := StripePayments.FinalizeCapturedPayment(old(db.View()), id, now);
              if r.Ok? then spec == Ok(db.View()) else spec == Rejected(r.reason)
    {
      hide PaymentAttempts.MarkSucceeded, CartAfterPurchase;
      var attempt := db.attempts[id];
      if attempt.status == Succeeded { return Ok(()); }
      if id !in db.allocations || db.allocations[id].status == Released || db.allocations[id].captureRequestedAt.None? {
        return Rejected(AttemptUnavailable);
      }
      if id !in db.orderOfAttempt || db.orderOfAttempt[id] >= |db.orders| { return Rejected(AttemptUnavailable); }
      var orderId := db.orderOfAttempt[id];
      db.orders :=
        db.orders[orderId := db.orders[orderId].(
          paidAt := Some(now), paymentState := PaymentPaid, status := OrderPaid)];
      db.allocations := db.allocations[id := db.allocations[id].(capturedAt := Some(now), status := Captured)];
      ghost var paid := db.View();
      r := attempts.MarkSucceeded(id, orderId, now);
      if r.Rejected? { return; }
      if attempt.draftId !in db.drafts || db.drafts[attempt.draftId].cartId !in db.carts {
        return Rejected(AttemptUnavailable);
      }
      EmptyCart(db.drafts[attempt.draftId].cartId, attempt);
    }

    /** `releaseUnpaidPayment` */
    method ReleaseUnpaidPayment(id: AttemptId, outcome: DefinitiveOutcome, now: Time) returns (r: Outcome<()>)
      requires Valid() && id < |db.attempts|
      modifies db`products, db`allocations, db`orders, db`attempts, db`claims
      ensures var spec := StripePayments.ReleaseUnpaidPayment(old(db.View()), id, outcome, now);
              if r.Ok? then spec == Ok(db.View()) else spec == Rejected(r.reason)
    {
      hide PaymentAttempts.ReleaseDefinitiveOutcome, LinesByProduct, ProductsExist, ReturnStock;
      if id in db.allocations && db.allocations[id].status != Released {
        if db.allocations[id].status == Captured { return Rejected(AttemptUnavailable); }
        var lines, allocation := LinesByProduct(db.attempts[id].items), db.allocations[id];
        if !ProductsExist(db.products, lines) || allocation.orderId >= |db.orders| {
          return Rejected(AttemptUnavailable);
        }
        db.IncrementStock(lines);
        db.allocations := db.allocations[id := allocation.(releasedAt := Some(now), status := Released)];
        db.orders := db.orders[
          allocation.orderId := db.orders[allocation.orderId].(
            paymentState := PaymentFailed, status := OrderCancelled)];
      }
      r := attempts.ReleaseDefinitiveOutcome(id, outcome, now);
    }

    /** `markAttemptReconciliation` */
    method MarkAttemptReconciliation(id: AttemptId, now: Time)
      requires Valid()
      modifies db`attempts, db`allocations
      ensures db.View() == StripePayments.MarkAttemptReconciliation(old(db.View()), id, now)
    {
      attempts.MarkReconciliation(id, now);
      if id in db.allocations && IsLive(db.allocations[id].status) {
        var allocation := db.allocations[id];
        db.allocations := db.allocations[id := allocation.(
          captureRequestedAt := OrElse(allocation.captureRequestedAt, now), status := CaptureUnresolved)];
      }
    }

    // ----- Webhooks and reconciliation -----

    method ActOnIntent(id: AttemptId, kind: IntentEventType, intent: IntentSnapshot, now: Time)
      returns (r: Outcome<Option<ProviderAction>>)
      requires Valid() && id < |db.attempts| && db.attempts[id].reference.Some?
      requires IntentMatchesAttempt(intent, db.attempts[id], id)
      modifies db
      ensures var was := old(db.View());
              var spec := match kind
                          case CapturableUpdated =>
                            if intent.status != RequiresCapture || !intent.manualCapture
                               || intent.amountCapturable != was.attempts[id].pricing.totalMinor
                            then Rejected(PaymentUnavailable)
                            else ActionFor(id, StripePayments.AllocateInventory(was, id, now))
                          case PaymentSucceeded =>
                            if intent.status != IntentSucceeded
                               || intent.amountReceived != was.attempts[id].pricing.totalMinor
                            then Rejected(PaymentUnavailable)
                            else NoAction(StripePayments.FinalizeCapturedPayment(was, id, now))
                          case PaymentCanceled =>
                            NoAction(StripePayments.ReleaseUnpaidPayment(was, id, CancelledUnpaid, now))
                          case OtherIntentEvent => Ok(WithAction(was, None));
              if r.Ok? then spec == Ok(WithAction(db.View(), r.value)) else spec == Rejected(r.reason)
    {
      hide StripePayments.AllocateInventory, StripePayments.FinalizeCapturedPayment,
           StripePayments.ReleaseUnpaidPayment;
      var total := db.attempts[id].pricing.totalMinor;
      match kind {
        case CapturableUpdated =>
          if intent.status != RequiresCapture || !intent.manualCapture || intent.amountCapturable != total {
            return Rejected(PaymentUnavailable);
          }
          var allocation := AllocateInventory(id, now);
          if allocation.Rejected? { return Rejected(allocation.reason); }
          r := Ok(if allocation.value.Some? then Some(ProviderAction(id, allocation.value.value)) else None);
        case PaymentSucceeded =>
          if intent.status != IntentSucceeded || intent.amountReceived != total { return Rejected(PaymentUnavailable); }
          var settled := FinalizeCapturedPayment(id, now);
          r := if settled.Ok? then Ok(None) else Rejected(settled.reason);
        case PaymentCanceled =>
          var released := ReleaseUnpaidPayment(id, CancelledUnpaid, now);
          r := if released.Ok? then Ok(None) else Rejected(released.reason);
        case OtherIntentEvent => r := Ok(None);
      }
    }

    /** `applyPaymentIntentEvent` */
    method ApplyIntentEvent(kind: IntentEventType, intent: IntentSnapshot, id: AttemptId, now: Time)
      returns (r: Outcome<Option<ProviderAction>>)
      requires Valid()
      modifies db
      ensures var spec := StripePayments.ApplyIntentEvent(old(db.View()), kind, intent, id, now);
              if r.Ok? then spec == Ok(WithAction(db.View(), r.value)) else spec == Rejected(r.reason)
    {
      hide StripePayments.AllocateInventory, StripePayments.FinalizeCapturedPayment,
           StripePayments.ReleaseUnpaidPayment;
      hide ActionFor, NoAction;
      var attached := AttachReference(id, intent.id, now);
      if attached.Rejected? { return Rejected(attached.reason); }
      if !IntentMatchesAttempt(intent, db.attempts[id], id) { return Rejected(PaymentUnavailable); }
      r := ActOnIntent(id, kind, intent, now);
    }

    /** `applyCheckoutSessionEvent` */
    method ApplySessionEvent(kind: SessionEventType, session: SessionSnapshot, id: AttemptId, now: Time)
      returns (r: Outcome<()>)
      requires Valid()
      modifies db`attempts, db`claims
      ensures var spec := StripePayments.ApplySessionEvent(old(db.View()), kind, session, id, now);
              if r.Ok? then spec == Ok(db.View()) else spec == Rejected(r.reason)
    {
      hide StripePayments.AttachReference, PaymentAttempts.ReleaseDefinitiveOutcome, PaymentAttempts.MarkReconciliation;
      hide SessionMatchesAttempt;
      if session.intentId.Some? {
        var attached := AttachReference(id, session.intentId.value, now);
        if attached.Rejected? { return Rejected(attached.reason); }
        AttachGives(old(db.View()), id, session.intentId.value, now);
      } else if id >= |db.attempts| {
        return Rejected(PaymentUnavailable);
      }
      var attempt := db.attempts[id];
      if !SessionMatchesAttempt(session, attempt, id) { return Rejected(PaymentUnavailable); }
      if kind == CheckoutExpired {
        if id !in db.allocations && session.unpaid {
          r := attempts.ReleaseDefinitiveOutcome(id, CancelledUnpaid, now);
          return;
        } else if attempt.status != Succeeded {
          attempts.MarkReconciliation(id, now);
        }
      }
      r := Ok(());
    }

    /** The part of `processWebhookEvent` that a first delivery runs. */
    method HandleEvent(event: Event, now: Time) returns (r: Outcome<Option<ProviderAction>>)
      requires Valid()
      modifies db
      ensures var spec := StripePayments.HandleEvent(old(db.View()), event, now);
              if r.Ok? then spec == Ok(WithAction(db.View(), r.value)) else spec == Rejected(r.reason)
    {
      hide StripePayments.ApplyIntentEvent, StripePayments.ApplySessionEvent;
      match event.body {
        case OtherObject => r := Ok(None);
        case IntentObject(kind, intent) =>
          if intent.metadata.None? || !intent.metadata.value.sandbox { return Rejected(PaymentUnavailable); }
          r := ApplyIntentEvent(kind, intent, intent.metadata.value.attemptId, now);
        case SessionObject(kind, session) =>
          if session.metadata.None? || !session.metadata.value.sandbox { return Rejected(PaymentUnavailable); }
          var applied := ApplySessionEvent(kind, session, session.metadata.value.attemptId, now);
          r := if applied.Ok? then Ok(None) else Rejected(applied.reason);
      }
    }

    /** `processWebhookEvent`: a replay is answered from its receipt; a failure leaves the tables as they were. */
    method ProcessWebhook(event: Event, now: Time) returns (r: Outcome<Option<ProviderAction>>)
      requires Valid()
      modifies db
      ensures var spec := StripePayments.ProcessWebhook(old(db.View()), event, now);
              if r.Ok? then spec == Ok(WithAction(db.View(), r.value))
              else spec == Rejected(r.reason) && db.View() == old(db.View())
    {
      hide StripePayments.HandleEvent;
      if event.id in db.receipts {
        return if db.receipts[event.id] == event.payload then Ok(None) else Rejected(PaymentUnavailable);
      }
      var saved := db.View();
      r := HandleEvent(event, now);
      if r.Rejected? {
        db.Rollback(saved);
        return;
      }
      db.receipts := db.receipts[event.id := event.payload];
    }

    method ActOnState(id: AttemptId, intent: IntentSnapshot, now: Time) returns (r: Outcome<Option<ProviderAction>>)
      requires Valid()
      modifies db
      ensures var spec := StripePayments.ApplyIntentState(old(db.View()), intent, id, now);
              if r.Ok? then spec == Ok(WithAction(db.View(), r.value)) else spec == Rejected(r.reason)
    {
      hide StripePayments.AllocateInventory, StripePayments.FinalizeCapturedPayment,
           StripePayments.ReleaseUnpaidPayment;
      hide PaymentAttempts.MarkReconciliation;
      if id >= |db.attempts| { return Rejected(PaymentUnavailable); }
      if !IntentMatchesAttempt(intent, db.attempts[id], id) { return Rejected(PaymentUnavailable); }
      var total := db.attempts[id].pricing.totalMinor;
      match intent.status {
        case RequiresCapture =>
          if !intent.manualCapture || intent.amountCapturable != total { return Rejected(AttemptUnavailable); }
          var allocation := AllocateInventory(id, now);
          if allocation.Rejected? { return Rejected(allocation.reason); }
          r := Ok(if allocation.value.Some? then Some(ProviderAction(id, allocation.value.value)) else None);
        case IntentSucceeded =>
          if intent.amountReceived != total { return Rejected(AttemptUnavailable); }
          var settled := FinalizeCapturedPayment(id, now);
          r := if settled.Ok? then Ok(None) else Rejected(settled.reason);
        case IntentCanceled =>
          var released := ReleaseUnpaidPayment(id, CancelledUnpaid, now);
          r := if released.Ok? then Ok(None) else Rejected(released.reason);
        case Open =>
          attempts.MarkReconciliation(id, now);
          r := Ok(None);
      }
    }

    /** `applyPaymentIntentState`, one transaction. */
    method ApplyIntentState(intent: IntentSnapshot, id: AttemptId, now: Time)
      returns (r: Outcome<Option<ProviderAction>>)
      requires Valid()
      modifies db
      ensures var spec := StripePayments.ApplyIntentState(old(db.View()), intent, id, now);
              if r.Ok? then spec == Ok(WithAction(db.View(), r.value))
              else spec == Rejected(r.reason) && db.View() == old(db.View())
    {
      hide StripePayments.ApplyIntentState;
      var saved := db.View();
      r := ActOnState(id, intent, now);
      if r.Rejected? { db.Rollback(saved); }
    }
  }
}
