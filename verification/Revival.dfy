/**
 * "A cancelled attempt has no live allocation" does not hold of the services. Here is exactly when a step makes it
 * fail, and how it comes right again.
 */
module Revival {
  import opened Basics
  import opened Records
  import opened PaymentAttempts
  import opened StripePayments
  import opened CashOrders
  import opened CheckoutDrafts
  import opened Protocol
  import opened ProtocolSafety
  import opened ProtocolSteps
  import opened ProtocolRuns
  import opened Evolution
  import opened Isolation
  import opened CaptureSafety
  import opened Reconciliation
  import opened StorageChecks

  /**
   * What `allocateInventory` would have to look at: a cancelled attempt that has a reference but no allocation yet,
   * with every line available and its cart free for an order.
   */
  predicate OpenToRevival(db: Db, a: AttemptId, now: Time) {
    && a < |db.attempts|
    && var attempt := db.attempts[a];
       && attempt.status == Cancelled && attempt.reference.Some? && a !in db.allocations
       && AllAvailable(db.products, LinesByProduct(attempt.items), now)
       && attempt.draftId in db.drafts && !CartTaken(db.orders, db.drafts[attempt.draftId].cartId)
  }

  /** An authorisation, current or stale, that is delivered or retrieved for such an attempt. */
  predicate RevivingStep(w: World, step: Step, a: AttemptId) {
    match step
    case ApplyStateStep(id, status, now) =>
      id == a && CanShow(w.provider, a, status) && status == RequiresCapture && OpenToRevival(w.db, a, now)
    case WebhookStep(event, now) =>
      && GenuineEvent(w.provider, event) && event.id !in w.db.receipts
      && event.body.IntentObject? && event.body.intentEvent == CapturableUpdated
      && event.body.intent.status == RequiresCapture && EventAttempt(event) == a
      && OpenToRevival(w.db, a, now)
    case _ => false
  }

  // ----- The transactions that can end or allocate -----

  lemma AllocationRevives(w: World, a: AttemptId, now: Time)
    requires Inv(w) && a < |w.db.attempts| && w.db.attempts[a].reference.Some? && !Revived(w.db, a)
    ensures var r := AllocateInventory(w.db, a, now);
            if r.Ok?
            then a < |r.value.db.attempts| && (Revived(r.value.db, a) <==> OpenToRevival(w.db, a, now))
            else !OpenToRevival(w.db, a, now)
  {
    hide Inv, AllAvailable, TakeStock, ProductsExist, LinesByProduct, PendingOrder, MarkReconciliation, CartTaken;
    AllocationRejectsExactlyWhenBlocked(w, a, now);
    MarkingRevivesNothing(w.db, a, now);
  }

  lemma MarkingRevivesNothing(db: Db, a: AttemptId, now: Time)
    requires a < |db.attempts|
    ensures var db' := MarkReconciliation(db, a, now);
            a < |db'.attempts| && (Revived(db', a) <==> Revived(db, a))
  {
    if IsActive(db.attempts[a].status) {
      var marked := db.attempts[a].(status := ReconciliationRequired, updatedAt := now);
      assert MarkReconciliation(db, a, now) == db.(attempts := db.attempts[a := marked]);
    }
  }

  lemma ReleaseRevivesNothing(db: Db, a: AttemptId, now: Time)
    requires a < |db.attempts| && ReleaseUnpaidPayment(db, a, CancelledUnpaid, now).Ok?
    ensures var db' := ReleaseUnpaidPayment(db, a, CancelledUnpaid, now).value;
            a < |db'.attempts| && !Revived(db', a)
  {
    hide ReleaseUnpaidPayment, OthersKept;
    ReleaseLeavesNothingLive(db, a, now);
    ReleasingLeavesOthers(db, a, CancelledUnpaid, now);
    KeptSize(db, ReleaseUnpaidPayment(db, a, CancelledUnpaid, now).value, a);
  }

  lemma KeptSize(x: Db, y: Db, b: AttemptId)
    requires OthersKept(x, y, b)
    ensures |y.attempts| == |x.attempts|
  {
  }

  lemma SettlementRevivesNothing(w: World, a: AttemptId, now: Time)
    requires Inv(w) && a < |w.db.attempts| && !Revived(w.db, a)
    requires a in w.provider.intents && w.provider.intents[a].status == IntentSucceeded
    ensures var r := FinalizeCapturedPayment(w.db, a, now);
            r.Ok? && a < |r.value.attempts| && !Revived(r.value, a)
  {
    hide Inv, FinalizeCapturedPayment;
    KeepsFinalize(w, a, now);
  }

  lemma EndingRevivesNothing(db: Db, a: AttemptId, now: Time)
    requires a < |db.attempts| && !Revived(db, a) && (a in db.allocations ==> !IsLive(db.allocations[a].status))
    requires ReleaseDefinitiveOutcome(db, a, CancelledUnpaid, now).Ok?
    ensures var db' := ReleaseDefinitiveOutcome(db, a, CancelledUnpaid, now).value;
            a < |db'.attempts| && !Revived(db', a)
  {
    hide ReleaseDefinitiveOutcome, OthersKept;
    EndingKeepsAllocations(db, a, now);
    EndingLeavesOthers(db, a, CancelledUnpaid, now);
    KeptSize(db, ReleaseDefinitiveOutcome(db, a, CancelledUnpaid, now).value, a);
  }

  lemma AttachRevivesNothing(db: Db, a: AttemptId, reference: PaymentReference, now: Time)
    requires a < |db.attempts| && !Revived(db, a) && AttachReference(db, a, reference, now).Ok?
    ensures var db' := AttachReference(db, a, reference, now).value;
            && a < |db'.attempts| && !Revived(db', a) && db'.receipts == db.receipts
            && (OpenToRevival(db', a, now) <==> OpenToRevival(db, a, now))
  {
    hide AllAvailable, LinesByProduct, OrElse;
    if db.attempts[a].reference.Some? {
      assert AttachReference(db, a, reference, now) == Ok(db);
    } else {
      var attempt := db.attempts[a];
      var attached := attempt.(
        pendingAt := OrElse(attempt.pendingAt, now), reference := Some(reference), status := Pending, updatedAt := now);
      assert AttachReference(db, a, reference, now) == Ok(db.(attempts := db.attempts[a := attached]));
    }
  }

  lemma OtherRowNotRevived(x: Db, y: Db, b: AttemptId, a: AttemptId)
    requires OthersKept(x, y, b) && a < |x.attempts| && a != b
    ensures a < |y.attempts| && (Revived(y, a) <==> Revived(x, a))
  {
    assert SameRow(x, y, a);
  }

  // ----- Applying a retrieved state -----

  lemma StateRevives(w: World, a: AttemptId, status: IntentStatus, now: Time)
    requires Inv(w) && a < |w.db.attempts| && !Revived(w.db, a)
    ensures var db' := Next(w, ApplyStateStep(a, status, now)).db;
            a < |db'.attempts| && (Revived(db', a) <==> RevivingStep(w, ApplyStateStep(a, status, now), a))
  {
    hide Inv, Next, AllocateInventory, FinalizeCapturedPayment, ReleaseUnpaidPayment, MarkReconciliation;
    hide IntentMatchesAttempt, HeldSnapshot, Revived, OpenToRevival;
    if !CanShow(w.provider, a, status) {
      NothingShown(w, a, status, now);
    } else if w.db.attempts[a].reference.None? {
      UnattachedIsLeft(w, a, status, now);
    } else {
      var snapshot := HeldSnapshot(w.provider, a, status);
      HeldMatches(w, a, status);
      AppliedStep(w, a, status, now);
      if ApplyIntentState(w.db, snapshot, a, now).Rejected? { AppliedOrNot(w, a, status, now); }
      SnapshotSays(w.provider, a, status);
      match status {
        case RequiresCapture => AllocationRevives(w, a, now);
        case IntentSucceeded =>
          SeenTerminal(w, a, status);
          SettlementRevivesNothing(w, a, now);
        case IntentCanceled =>
          if ReleaseUnpaidPayment(w.db, a, CancelledUnpaid, now).Ok? {
            ReleaseRevivesNothing(w.db, a, now);
          }
        case Open => MarkingRevivesNothing(w.db, a, now);
      }
    }
  }

  lemma SnapshotSays(provider: Provider, a: AttemptId, status: IntentStatus)
    requires a in provider.intents && a in provider.sessions
    ensures HeldSnapshot(provider, a, status).status == status && HeldSnapshot(provider, a, status).manualCapture
    ensures status == RequiresCapture ==>
      HeldSnapshot(provider, a, status).amountCapturable == HeldSnapshot(provider, a, status).amount
    ensures status == IntentSucceeded ==>
      HeldSnapshot(provider, a, status).amountReceived == HeldSnapshot(provider, a, status).amount
  {
  }

  lemma NothingShown(w: World, a: AttemptId, status: IntentStatus, now: Time)
    requires !CanShow(w.provider, a, status)
    ensures Next(w, ApplyStateStep(a, status, now)) == w
  {
    hide ApplyIntentState, HeldSnapshot;
  }

  lemma AppliedOrNot(w: World, a: AttemptId, status: IntentStatus, now: Time)
    requires CanShow(w.provider, a, status)
    requires ApplyIntentState(w.db, HeldSnapshot(w.provider, a, status), a, now).Rejected?
    ensures Next(w, ApplyStateStep(a, status, now)) == w
  {
    hide ApplyIntentState, HeldSnapshot;
  }

  lemma UnattachedIsLeft(w: World, a: AttemptId, status: IntentStatus, now: Time)
    requires a < |w.db.attempts| && !HasReference(w.db, a) && CanShow(w.provider, a, status)
    ensures Next(w, ApplyStateStep(a, status, now)) == w
    ensures !OpenToRevival(w.db, a, now)
  {
    hide AllAvailable, LinesByProduct;
  }

  // ----- Webhooks -----

  lemma AttachMatches(w: World, a: AttemptId, intent: IntentSnapshot, now: Time)
    requires Inv(w) && a < |w.db.attempts| && !Revived(w.db, a)
    requires GenuineIntent(w.provider, intent) && intent.metadata.value.attemptId == a
    requires AttachReference(w.db, a, intent.id, now).Ok?
    ensures var w1 := w.(db := AttachReference(w.db, a, intent.id, now).value);
            && Inv(w1) && a < |w1.db.attempts| && w1.db.attempts[a].reference.Some? && !Revived(w1.db, a)
            && IntentMatchesAttempt(intent, w1.db.attempts[a], a)
            && intent.amount == w1.db.attempts[a].pricing.totalMinor
            && (OpenToRevival(w1.db, a, now) <==> OpenToRevival(w.db, a, now))
  {
    hide Inv, AttachReference, HeldSnapshot, IntentMatchesAttempt, OpenToRevival, Revived;
    KeepsAttach(w, a, intent.id, now);
    AttachGives(w.db, a, intent.id, now);
    AttachRevivesNothing(w.db, a, intent.id, now);
    var w1 := w.(db := AttachReference(w.db, a, intent.id, now).value);
    HeldMatches(w1, a, intent.status);
    EchoIsHeld(w.provider, intent, a);
  }

  lemma EchoIsHeld(provider: Provider, intent: IntentSnapshot, a: AttemptId)
    requires GenuineIntent(provider, intent) && intent.metadata.value.attemptId == a
    ensures a in provider.intents && a in provider.sessions && CanShow(provider, a, intent.status)
    ensures intent == HeldSnapshot(provider, a, intent.status)
    ensures intent.id == provider.intents[a].reference
  {
  }

  lemma OpenMeansAttached(w: World, a: AttemptId, intent: IntentSnapshot, now: Time)
    requires Inv(w) && a < |w.db.attempts| && OpenToRevival(w.db, a, now)
    requires GenuineIntent(w.provider, intent) && intent.metadata.value.attemptId == a
    ensures AttachReference(w.db, a, intent.id, now) == Ok(w.db)
  {
    hide AllAvailable, LinesByProduct, DraftsOk, CartsOk, CatalogueOk, OrdersOk, AttemptsOwned, OrderIndexOk;
    EchoIsHeld(w.provider, intent, a);
    assert CaseHolds(w, a);
    assert ReferenceOk(CaseOf(w, a));
  }

  predicate RevivingEvent(db: Db, kind: IntentEventType, intent: IntentSnapshot, a: AttemptId, now: Time) {
    kind == CapturableUpdated && intent.status == RequiresCapture && OpenToRevival(db, a, now)
  }

  lemma IntentEventRevives(w: World, kind: IntentEventType, intent: IntentSnapshot, a: AttemptId, now: Time)
    requires Inv(w) && a < |w.db.attempts| && !Revived(w.db, a)
    requires GenuineIntent(w.provider, intent) && intent.metadata.value.attemptId == a
    ensures var r := ApplyIntentEvent(w.db, kind, intent, a, now);
            if r.Ok?
            then a < |r.value.db.attempts| && (Revived(r.value.db, a) <==> RevivingEvent(w.db, kind, intent, a, now))
            else !RevivingEvent(w.db, kind, intent, a, now)
  {
    hide Inv, AttachReference, AllocateInventory, FinalizeCapturedPayment, ReleaseUnpaidPayment, IntentMatchesAttempt;
    hide GenuineIntent, OpenToRevival, Revived;
    EchoIsHeld(w.provider, intent, a);
    SnapshotSays(w.provider, a, intent.status);
    if OpenToRevival(w.db, a, now) { OpenMeansAttached(w, a, intent, now); }
    if AttachReference(w.db, a, intent.id, now).Ok? {
      AttachMatches(w, a, intent, now);
      var w1 := w.(db := AttachReference(w.db, a, intent.id, now).value);
      match kind {
        case CapturableUpdated => AllocationRevives(w1, a, now);
        case PaymentSucceeded =>
          if intent.status == IntentSucceeded {
            SeenTerminal(w1, a, intent.status);
            SettlementRevivesNothing(w1, a, now);
          }
        case PaymentCanceled =>
          if ReleaseUnpaidPayment(w1.db, a, CancelledUnpaid, now).Ok? { ReleaseRevivesNothing(w1.db, a, now); }
        case OtherIntentEvent =>
      }
    }
  }

  lemma SessionEventRevivesNothing(db: Db, kind: SessionEventType, session: SessionSnapshot, a: AttemptId, now: Time)
    requires a < |db.attempts| && !Revived(db, a) && ApplySessionEvent(db, kind, session, a, now).Ok?
    ensures var db' := ApplySessionEvent(db, kind, session, a, now).value;
            a < |db'.attempts| && !Revived(db', a)
  {
    hide AttachReference, ReleaseDefinitiveOutcome, MarkReconciliation, Revived;
    if session.intentId.Some? { AttachRevivesNothing(db, a, session.intentId.value, now); }
    var attached := if session.intentId.Some? then AttachReference(db, a, session.intentId.value, now).value else db;
    MarkingRevivesNothing(attached, a, now);
    if kind == CheckoutExpired && a !in attached.allocations && session.unpaid {
      EndingRevivesNothing(attached, a, now);
    }
  }

  lemma ReceiptRevivesNothing(db: Db, event: Event, a: AttemptId)
    requires a < |db.attempts|
    ensures Revived(WithReceipt(db, event), a) <==> Revived(db, a)
  {
  }

  /** An event's own attempt. */
  lemma WebhookRevives(w: World, event: Event, now: Time)
    requires Inv(w) && EventAttempt(event) < |w.db.attempts| && !Revived(w.db, EventAttempt(event))
    ensures var a, db' := EventAttempt(event), Next(w, WebhookStep(event, now)).db;
            a < |db'.attempts| && (Revived(db', a) <==> RevivingStep(w, WebhookStep(event, now), a))
  {
    hide Inv, ApplyIntentEvent, ApplySessionEvent, GenuineIntent, GenuineSession, Revived, OpenToRevival;
    WebhookDb(w, event, now);
    hide Next;
    var a := EventAttempt(event);
    if GenuineEvent(w.provider, event) && event.id !in w.db.receipts {
      match event.body {
        case OtherObject => ReceiptRevivesNothing(w.db, event, a);
        case IntentObject(kind, intent) =>
          HasMetadata(w.provider, event);
          IntentEventRevives(w, kind, intent, a, now);
          var r := ApplyIntentEvent(w.db, kind, intent, a, now);
          if r.Ok? { ReceiptRevivesNothing(r.value.db, event, a); }
        case SessionObject(kind, session) =>
          HasMetadata(w.provider, event);
          var r := ApplySessionEvent(w.db, kind, session, a, now);
          if r.Ok? {
            SessionEventRevivesNothing(w.db, kind, session, a, now);
            ReceiptRevivesNothing(r.value, event, a);
          }
      }
    }
  }

  lemma HasMetadata(provider: Provider, event: Event)
    requires GenuineEvent(provider, event)
    ensures event.body.IntentObject? ==> event.body.intent.metadata.Some? && event.body.intent.metadata.value.sandbox
    ensures event.body.SessionObject? ==> event.body.session.metadata.Some? && event.body.session.metadata.value.sandbox
  {
  }

  lemma WebhookDb(w: World, event: Event, now: Time)
    ensures Next(w, WebhookStep(event, now))
         == if GenuineEvent(w.provider, event) then CommitAction(w, ProcessWebhook(w.db, event, now)) else w
  {
    hide ProcessWebhook, GenuineEvent;
  }

  // ----- All other steps -----

  lemma PendingRevivesNothing(w: World, a: AttemptId, step: Step, now: Time)
    requires a < |w.db.attempts| && !Revived(w.db, a)
    requires step == RecordSession(a, now) || step == RecordIntent(a, now)
    ensures a < |Next(w, step).db.attempts| && !Revived(Next(w, step).db, a)
  {
  }

  lemma CaptureRevivesNothing(w: World, a: AttemptId, step: Step, now: Time)
    requires a < |w.db.attempts| && !Revived(w.db, a)
    requires step == RequestCaptureStep(a, now) || step == MarkUnresolved(a, now)
    ensures a < |Next(w, step).db.attempts| && !Revived(Next(w, step).db, a)
  {
    hide MarkReconciliation;
    match step {
      case RequestCaptureStep(_, _) =>
      case MarkUnresolved(_, _) =>
        MarkingRevivesNothing(w.db, a, now);
        MarkingKeepsAllocations(w.db, a, now);
    }
  }

  lemma ExpiryRevivesNothing(w: World, a: AttemptId, now: Time)
    requires Inv(w) && a < |w.db.attempts| && !Revived(w.db, a)
    ensures var db' := Next(w, ReleaseExpired(a, now)).db; a < |db'.attempts| && !Revived(db', a)
  {
    hide Inv, ReleaseDefinitiveOutcome, Revived;
    if a in w.provider.sessions && w.provider.sessions[a].status == SessionExpired {
      DeadBecauseExpired(w, a);
      if ReleaseDefinitiveOutcome(w.db, a, CancelledUnpaid, now).Ok? { EndingRevivesNothing(w.db, a, now); }
    }
  }

  /** A step on one attempt revives no other, and a webhook or a retrieved state only as said above. */
  lemma CardStepRevives(w: World, step: Step, a: AttemptId)
    requires Inv(w) && a < |w.db.attempts| && !Revived(w.db, a) && IsCardStep(step)
    ensures a < |Next(w, step).db.attempts|
    ensures Revived(Next(w, step).db, a) <==> RevivingStep(w, step, a)
  {
    hide Inv, Next, Revived, OpenToRevival, OthersKept, GenuineEvent;
    var b := CardAttempt(step);
    if b != a {
      CardStepLeavesOthers(w, step);
      OtherRowNotRevived(w.db, Next(w, step).db, b, a);
    } else {
      match step {
        case RecordSession(_, now) => PendingRevivesNothing(w, a, step, now);
        case RecordIntent(_, now) => PendingRevivesNothing(w, a, step, now);
        case WebhookStep(event, now) => WebhookRevives(w, event, now);
        case ApplyStateStep(_, status, now) => StateRevives(w, a, status, now);
        case RequestCaptureStep(_, now) => CaptureRevivesNothing(w, a, step, now);
        case MarkUnresolved(_, now) => CaptureRevivesNothing(w, a, step, now);
        case ReleaseExpired(_, now) => ExpiryRevivesNothing(w, a, now);
      }
    }
  }

  ghost predicate RowsKept(x: Db, y: Db) {
    && |x.attempts| <= |y.attempts| && y.allocations == x.allocations
    && (forall a :: 0 <= a < |x.attempts| ==> y.attempts[a] == x.attempts[a])
    && (forall a :: |x.attempts| <= a < |y.attempts| ==> y.attempts[a].status == Prepared)
  }

  lemma OtherStepKeepsRows(w: World, step: Step)
    requires Inv(w) && !IsCardStep(step)
    ensures RowsKept(w.db, Next(w, step).db)
  {
    hide Inv, Next, RowsKept, Prepare, CreateCashOrder, SaveDraft;
    assert RowsKept(w.db, w.db) by { SameRowsKept(w.db, w.db); }
    CommittedDb(w, step);
    match step {
      case PrepareStep(input, now) =>
        PrepareWrites(w.db, input, now);
        if Prepare(w.db, input, now).Ok? { AddedRowsKept(w.db, Prepare(w.db, input, now).value.db, input, now); }
      case CashOrderStep(context, checkout, now) =>
        CashOrderWrites(w, context, checkout, now);
        if CreateCashOrder(w.db, context, checkout, now).Ok? { SameRowsKept(w.db, Next(w, step).db); }
      case SaveDraftStep(access, raw, key, draft, now, freshId) =>
        if freshId !in w.db.drafts && SaveDraft(w.db, access, raw, key, draft, now, freshId).Ok? {
          SavedDraftShape(w, access, raw, key, draft, now, freshId);
          SameRowsKept(w.db, Next(w, step).db);
        }
      case _ =>
        if IsProviderStep(step) {
          ProviderLeavesDb(w, step);
        } else {
          EditWritesThreeTables(w, step);
          SameRowsKept(w.db, Next(w, step).db);
        }
    }
  }

  lemma AddedRowsKept(x: Db, y: Db, input: PrepareInput, now: Time)
    requires y == x || SealedAs(x, y, input, now)
    ensures RowsKept(x, y)
  {
    hide CanClaimFirstPurchase;
    if y != x {
      forall a | 0 <= a < |x.attempts| ensures y.attempts[a] == x.attempts[a] {
        assert y.attempts[..|x.attempts|][a] == y.attempts[a];
      }
    }
  }

  lemma SameRowsKept(x: Db, y: Db)
    requires y.attempts == x.attempts && y.allocations == x.allocations
    ensures RowsKept(x, y)
  {
  }

  lemma KeptRowsReviveNothing(x: Db, y: Db, a: AttemptId)
    requires RowsKept(x, y) && a < |y.attempts| && (a < |x.attempts| ==> !Revived(x, a))
    ensures !Revived(y, a)
  {
  }

  // ----- The theorem -----

  /**
   * A step revives an attempt exactly if it delivers or applies an authorisation of that attempt while the attempt is
   * cancelled with a reference, holds no allocation, every one of its lines is still available, and no order that is
   * not cancelled has its cart.
   */
  lemma RevivesExactlyWhen(w: World, step: Step, a: AttemptId)
    requires Reachable(w) && a < |w.db.attempts| && !Revived(w.db, a)
    ensures a < |Next(w, step).db.attempts|
    ensures Revived(Next(w, step).db, a) <==> RevivingStep(w, step, a)
  {
    hide Inv, Reachable, Next, Revived, OpenToRevival, RowsKept, GenuineEvent;
    ReachableHolds(w);
    if IsCardStep(step) {
      CardStepRevives(w, step, a);
    } else {
      OtherStepKeepsRows(w, step);
      KeptRowsAreThere(w.db, Next(w, step).db, a);
      KeptRowsReviveNothing(w.db, Next(w, step).db, a);
    }
  }

  lemma KeptRowsAreThere(x: Db, y: Db, a: AttemptId)
    requires RowsKept(x, y) && a < |x.attempts|
    ensures a < |y.attempts|
  {
  }

  /** A new attempt is never born revived. */
  lemma NewAttemptsAreNotRevived(w: World, step: Step, a: AttemptId)
    requires Reachable(w) && |w.db.attempts| <= a < |Next(w, step).db.attempts|
    ensures !Revived(Next(w, step).db, a)
  {
    hide Inv, Reachable, Next, Revived, RowsKept, OthersKept;
    ReachableHolds(w);
    if IsCardStep(step) {
      CardStepLeavesOthers(w, step);
      KeptSize(w.db, Next(w, step).db, CardAttempt(step));
      assert false;
    } else {
      OtherStepKeepsRows(w, step);
      KeptRowsReviveNothing(w.db, Next(w, step).db, a);
    }
  }

  /** A run that ends with an attempt revived contains a reviving step of that attempt, if it did not begin so. */
  lemma {:induction false} RunRevivesByAStep(w: World, steps: seq<Step>, a: AttemptId) returns (i: nat)
    requires Reachable(w) && a < |w.db.attempts| && !Revived(w.db, a)
    requires a < |Run(w, steps).db.attempts| && Revived(Run(w, steps).db, a)
    ensures i < |steps| && a < |Run(w, steps[..i]).db.attempts| && RevivingStep(Run(w, steps[..i]), steps[i], a)
    decreases |steps|
  {
    hide Reachable, Next, Revived, RevivingStep;
    i := 0;
    if steps != [] {
      RevivesExactlyWhen(w, steps[0], a);
      var w1 := Next(w, steps[0]);
      if Revived(w1.db, a) {
        assert steps[..0] == [];
      } else {
        OneStep(w, steps[0]);
        ReachableOn(w, [steps[0]]);
        var j := RunRevivesByAStep(w1, steps[1..], a);
        assert steps[..j + 1][1..] == steps[1..][..j];
        i := j + 1;
      }
    }
  }

  // ----- How it comes right again -----

  lemma RevivedIsCanceled(c: Case)
    requires CaseInv(c) && c.attempt.status == Cancelled && c.allocation.Some? && IsLive(c.allocation.value.status)
    ensures c.attempt.reference.Some? && c.session.Some?
    ensures c.intent.Some? && c.intent.value.status == IntentCanceled
  {
    hide OrderMirrors, OrderFollows, ClaimOk, LinesOk;
  }

  /** A revived attempt's money can never be captured; the job selects it, and one pass takes its stock back. */
  lemma RevivalEndsInOnePass(w: World, a: AttemptId, now: Time)
    requires Reachable(w) && a < |w.db.attempts| && Revived(w.db, a)
    ensures IntentIs(w, a, IntentCanceled)
    ensures IsCandidate(w.db, a, now) && Retrievable(w, a)
    ensures var w' := Run(w, ReconcileSteps(w, a, now)); Agrees(w', a) && !Revived(w'.db, a)
  {
    hide CaseInv, CartsOk, CatalogueOk, OrdersOk, DraftsOk, AttemptsOwned, OrderIndexOk, Reachable, Run,
         ReconcileSteps;
    ReachableHolds(w);
    assert CaseHolds(w, a);
    RevivedIsCanceled(CaseOf(w, a));
    ReconcilePassConverges(w, a, now, now);
  }
}
