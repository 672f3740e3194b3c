/** Reconciliation: when one pass over a provider that answers leaves database and provider in agreement. */
module Reconciliation {
  import opened Basics
  import opened Money
  import opened Records
  import opened PaymentAttempts
  import opened StripePayments
  import opened Protocol
  import opened ProtocolSafety
  import opened ProtocolSteps
  import opened ProtocolRuns
  import opened CaptureSafety

  /** What the provider decided is what every row of the attempt says. */
  ghost predicate Agrees(w: World, a: AttemptId) {
    && a < |w.db.attempts| && a in w.provider.intents
    && match w.provider.intents[a].status
       case IntentSucceeded =>
         && w.db.attempts[a].status == Succeeded
         && AllocationIs(w, a, Captured)
         && OrderIs(w, a, OrderPaid, PaymentPaid)
         && (a in w.db.claims ==>
               w.db.claims[a].status == Consumed && w.db.claims[a].consumedOrderId == Lookup(w.db.orderOfAttempt, a))
       case IntentCanceled =>
         && w.db.attempts[a].status == Cancelled
         && (a in w.db.allocations ==> AllocationIs(w, a, Released) && OrderIs(w, a, OrderCancelled, PaymentFailed))
         && (a in w.db.claims ==> w.db.claims[a].status == ClaimReleased)
       case _ => false
  }

  // ----- Authorised money: when its allocation is rejected -----

  /** Once every line is available the decrement loop cannot fail half-way. */
  lemma AvailableLinesCanBeTaken(products: map<ProductId, Product>, lines: seq<Line>, now: Time)
    requires DistinctProducts(lines) && AllAvailable(products, lines, now)
    ensures TakeStock(products, lines).Some?
  {
    hide LineTotalMinor, IsValidOrderAmount, IsPublicProductEligible;
    TakeStockFailsOnlyOnShortage(products, lines);
    forall i | 0 <= i < |lines|
      ensures lines[i].productId in products && products[lines[i].productId].stockAmount >= lines[i].amount
    {
      assert CheckoutLineOutcome(Lookup(products, lines[i].productId), lines[i].amount, now) == Available;
    }
  }

  /** Every line is there, and yet the order cannot be written: one that is not cancelled has the cart already. */
  predicate CartBlocks(db: Db, a: AttemptId, now: Time) {
    && a < |db.attempts|
    && var attempt := db.attempts[a];
       && a !in db.allocations && attempt.draftId in db.drafts
       && AllAvailable(db.products, LinesByProduct(attempt.items), now)
       && CartTaken(db.orders, db.drafts[attempt.draftId].cartId)
  }

  lemma AllocationRejectsExactlyWhenBlocked(w: World, a: AttemptId, now: Time)
    requires Inv(w) && a < |w.db.attempts| && w.db.attempts[a].reference.Some?
    ensures AllocateInventory(w.db, a, now).Rejected? <==> CartBlocks(w.db, a, now)
  {
    hide CaseInv, CartsOk, CatalogueOk, OrdersOk, OrderIndexOk, KeysOk, TakeStock, AllAvailable, CartTaken;
    AttemptLines(w, a);
    assert AttemptOwned(w.db.attempts[a], w.db.drafts, w.db.products);
    var lines := LinesByProduct(w.db.attempts[a].items);
    if AllAvailable(w.db.products, lines, now) { AvailableLinesCanBeTaken(w.db.products, lines, now); }
  }

  // ----- The snapshot a pass retrieves always matches the attempt -----

  lemma HeldMatches(w: World, a: AttemptId, status: IntentStatus)
    requires Inv(w) && a in w.provider.intents && a < |w.db.attempts| && w.db.attempts[a].reference.Some?
    ensures a in w.provider.sessions
    ensures IntentMatchesAttempt(HeldSnapshot(w.provider, a, status), w.db.attempts[a], a)
    ensures HeldSnapshot(w.provider, a, status).amount == w.db.attempts[a].pricing.totalMinor
  {
    hide DraftsOk, CartsOk, CatalogueOk, OrdersOk, OrderIndexOk, AttemptsOwned;
    assert CaseHolds(w, a);
  }

  lemma CurrentStatusCanShow(w: World, a: AttemptId)
    requires Inv(w) && a in w.provider.intents
    ensures CanShow(w.provider, a, w.provider.intents[a].status)
  {
    hide DraftsOk, CartsOk, CatalogueOk, OrdersOk, OrderIndexOk, AttemptsOwned;
    assert CaseHolds(w, a);
  }

  // ----- A terminal intent -----

  lemma SettledAgrees(w: World, a: AttemptId)
    requires Inv(w) && a < |w.db.attempts| && w.db.attempts[a].status == Succeeded
    ensures Agrees(w, a)
  {
    hide DraftsOk, CartsOk, CatalogueOk, OrdersOk, AttemptsOwned, OrderMirrors;
    assert CaseHolds(w, a);
    CaseLockStep(CaseOf(w, a));
  }

  lemma ReleaseLeavesNothingLive(db: Db, a: AttemptId, now: Time)
    requires a < |db.attempts| && ReleaseUnpaidPayment(db, a, CancelledUnpaid, now).Ok?
    ensures var after := ReleaseUnpaidPayment(db, a, CancelledUnpaid, now).value;
            a in after.allocations ==> after.allocations[a].status == Released
  {
    hide LinesByProduct, ProductsExist, ReturnStock, ReleaseDefinitiveOutcome;
    EndingKeepsAllocations(db, a, now);
    if a in db.allocations && db.allocations[a].status != Released {
      var o := db.allocations[a].orderId;
      var released := db.allocations[a := db.allocations[a].(releasedAt := Some(now), status := Released)];
      EndingKeepsAllocations(
        db.(products := ReturnStock(db.products, LinesByProduct(db.attempts[a].items)), allocations := released,
            orders := db.orders[o := db.orders[o].(paymentState := PaymentFailed, status := OrderCancelled)]), a, now);
    }
  }

  lemma EndingKeepsAllocations(db: Db, a: AttemptId, now: Time)
    ensures ReleaseDefinitiveOutcome(db, a, CancelledUnpaid, now).Ok? ==>
      ReleaseDefinitiveOutcome(db, a, CancelledUnpaid, now).value.allocations == db.allocations
  {
    hide ReleaseClaim;
    if a < |db.attempts| && IsActive(db.attempts[a].status) {
    }
  }

  lemma ReleasedAgrees(w: World, a: AttemptId)
    requires Inv(w) && a < |w.db.attempts| && w.db.attempts[a].status == Cancelled
    requires a in w.provider.intents && w.provider.intents[a].status == IntentCanceled
    requires a in w.db.allocations ==> AllocationIs(w, a, Released)
    ensures Agrees(w, a)
  {
    hide DraftsOk, CartsOk, CatalogueOk, OrdersOk, AttemptsOwned, OrderMirrors;
    assert CaseHolds(w, a);
    CaseLockStep(CaseOf(w, a));
  }

  /**
   * From any reachable world where the attempt has its reference and the provider has decided, applying what the
   * provider says meets no failing guard and leaves attempt, allocation, order and claim in agreement with it.
   */
  lemma TerminalIntentConverges(w: World, a: AttemptId, now: Time)
    requires Inv(w) && a in w.provider.intents && a < |w.db.attempts| && w.db.attempts[a].reference.Some?
    requires w.provider.intents[a].status in {IntentSucceeded, IntentCanceled}
    ensures CanShow(w.provider, a, w.provider.intents[a].status)
    ensures ApplyIntentState(w.db, HeldSnapshot(w.provider, a, w.provider.intents[a].status), a, now).Ok?
    ensures Inv(Next(w, ApplyStateStep(a, w.provider.intents[a].status, now)))
    ensures Agrees(Next(w, ApplyStateStep(a, w.provider.intents[a].status, now)), a)
  {
    hide Inv, Agrees, CanShow, IntentMatchesAttempt, FinalizeCapturedPayment, ReleaseUnpaidPayment;
    var status := w.provider.intents[a].status;
    CurrentStatusCanShow(w, a);
    HeldMatches(w, a, status);
    KeepsStep(w, ApplyStateStep(a, status, now));
    var w' := Next(w, ApplyStateStep(a, status, now));
    if status == IntentSucceeded {
      KeepsFinalize(w, a, now);
      assert w'.db == FinalizeCapturedPayment(w.db, a, now).value;
      SettledAgrees(w', a);
    } else {
      KeepsReleaseUnpaid(w, a, now);
      ReleaseLeavesNothingLive(w.db, a, now);
      assert w'.db == ReleaseUnpaidPayment(w.db, a, CancelledUnpaid, now).value;
      ReleasedAgrees(w', a);
    }
  }

  // ----- A whole pass -----

  predicate HasReference(db: Db, a: AttemptId) {
    a < |db.attempts| && db.attempts[a].reference.Some?
  }

  predicate HasLiveAllocation(db: Db, a: AttemptId) {
    a in db.allocations && IsLive(db.allocations[a].status)
  }

  /** The provider call a committed transaction asks for, and the transaction that records its answer. */
  function ActionSteps(a: AttemptId, kind: ActionKind, now: Time): seq<Step> {
    match kind
    case Capture => [RequestCaptureStep(a, now), CaptureIntent(a), ApplyStateStep(a, IntentSucceeded, now)]
    case Cancel => [CancelIntent(a), ApplyStateStep(a, IntentCanceled, now)]
  }

  predicate Retrievable(w: World, a: AttemptId) {
    a < |w.db.attempts| && a in w.provider.intents && a in w.provider.sessions
  }

  function AttachSteps(w: World, a: AttemptId, now: Time): seq<Step> {
    if HasReference(w.db, a) then [] else [RecordIntent(a, now)]
  }

  /** What comes of applying the state the provider answers with; a rejection ends the pass with an exception. */
  function AppliedInPass(w: World, a: AttemptId, now: Time): Outcome<WithAction> {
    if !Retrievable(w, a) then Rejected(PaymentUnavailable)
    else
      var w1 := Run(w, AttachSteps(w, a, now));
      ApplyIntentState(w1.db, HeldSnapshot(w.provider, a, w.provider.intents[a].status), a, now)
  }

  /** `reconcileAttempt`, when the session it retrieves already names its intent and the provider answers every call. */
  function ReconcileSteps(w: World, a: AttemptId, now: Time): seq<Step> {
    if !Retrievable(w, a) then []
    else
      var applied := AppliedInPass(w, a, now);
      AttachSteps(w, a, now) + [ApplyStateStep(a, w.provider.intents[a].status, now)]
        + if applied.Ok? && applied.value.action.Some? then ActionSteps(a, applied.value.action.value.kind, now) else []
  }

  /** Attempts the pass can work on: already matched with their intent, or still able to be. */
  predicate CanAttach(attempt: Attempt) {
    attempt.reference.Some? || (attempt.sessionId.Some? && IsActive(attempt.status))
  }

  predicate Workable(w: World, a: AttemptId) {
    Retrievable(w, a) && CanAttach(w.db.attempts[a])
  }

  lemma AuthorizedIsUndecided(w: World, a: AttemptId)
    requires Inv(w) && a < |w.db.attempts| && a in w.provider.intents && w.provider.intents[a].status == RequiresCapture
    ensures IsActive(w.db.attempts[a].status)
    ensures a in w.db.allocations ==> IsLive(w.db.allocations[a].status)
  {
    hide DraftsOk, CartsOk, CatalogueOk, OrdersOk, OrderIndexOk, AttemptsOwned;
    assert CaseHolds(w, a);
  }

  lemma AllocateGivesWork(w: World, a: AttemptId, now: Time)
    requires Inv(w) && a < |w.db.attempts| && w.db.attempts[a].reference.Some?
    requires a in w.provider.intents && w.provider.intents[a].status == RequiresCapture && !CartBlocks(w.db, a, now)
    ensures AllocateInventory(w.db, a, now).Ok? && AllocateInventory(w.db, a, now).value.kind.Some?
    ensures AllocateInventory(w.db, a, now).value.kind == Some(Capture) ==>
      a in AllocateInventory(w.db, a, now).value.db.allocations
      && IsLive(AllocateInventory(w.db, a, now).value.db.allocations[a].status)
    ensures |AllocateInventory(w.db, a, now).value.db.attempts| == |w.db.attempts|
    ensures AllocateInventory(w.db, a, now).value.db.attempts[a].reference == w.db.attempts[a].reference
  {
    hide Inv, AllAvailable, TakeStock, ProductsExist, LinesByProduct, MarkReconciliation, PendingOrder;
    AllocationRejectsExactlyWhenBlocked(w, a, now);
    AuthorizedIsUndecided(w, a);
    MarkingKeepsReferences(w.db, a, now);
    var db := w.db;
    if a !in db.allocations && AllAvailable(db.products, LinesByProduct(db.attempts[a].items), now) {
      assert AllocateInventory(db, a, now).value.db.attempts == db.attempts;
    }
  }

  lemma MarkingKeepsReferences(db: Db, a: AttemptId, now: Time)
    requires a < |db.attempts|
    ensures |MarkReconciliation(db, a, now).attempts| == |db.attempts|
    ensures MarkReconciliation(db, a, now).attempts[a].reference == db.attempts[a].reference
  {
    if IsActive(db.attempts[a].status) {
      assert MarkReconciliation(db, a, now).attempts
        == db.attempts[a := db.attempts[a].(status := ReconciliationRequired, updatedAt := now)];
    }
  }

  /** The attempt is matched with an intent of this status, in a world where the invariant holds. */
  ghost predicate Matched(w: World, a: AttemptId, status: IntentStatus) {
    Inv(w) && HasReference(w.db, a) && IntentIs(w, a, status)
  }

  lemma TicketIsGranted(w: World, a: AttemptId, now: Time)
    requires Matched(w, a, RequiresCapture) && HasLiveAllocation(w.db, a)
    ensures Matched(Next(w, RequestCaptureStep(a, now)), a, RequiresCapture)
    ensures a in Next(w, RequestCaptureStep(a, now)).provider.tickets
  {
    hide Inv;
    KeepsStep(w, RequestCaptureStep(a, now));
  }

  lemma CaptureIsGranted(w: World, a: AttemptId)
    requires Matched(w, a, RequiresCapture) && a in w.provider.tickets
    ensures Matched(Next(w, CaptureIntent(a)), a, IntentSucceeded)
  {
    hide Inv;
    KeepsStep(w, CaptureIntent(a));
  }

  lemma CancelIsGranted(w: World, a: AttemptId)
    requires Matched(w, a, RequiresCapture)
    ensures Matched(Next(w, CancelIntent(a)), a, IntentCanceled)
  {
    hide Inv;
    KeepsStep(w, CancelIntent(a));
  }

  lemma CaptureRuns(w: World, a: AttemptId, now: Time)
    requires Matched(w, a, RequiresCapture) && HasLiveAllocation(w.db, a)
    ensures Agrees(Run(w, ActionSteps(a, Capture, now)), a)
  {
    hide Inv, Agrees, ApplyIntentState, Next;
    var w1 := Next(w, RequestCaptureStep(a, now));
    TicketIsGranted(w, a, now);
    CaptureIsGranted(w1, a);
    TerminalIntentConverges(Next(w1, CaptureIntent(a)), a, now);
    ThreeSteps(w, RequestCaptureStep(a, now), CaptureIntent(a), ApplyStateStep(a, IntentSucceeded, now));
  }

  lemma CancelRuns(w: World, a: AttemptId, now: Time)
    requires Matched(w, a, RequiresCapture)
    ensures Agrees(Run(w, ActionSteps(a, Cancel, now)), a)
  {
    hide Inv, Agrees, ApplyIntentState, Next;
    CancelIsGranted(w, a);
    TerminalIntentConverges(Next(w, CancelIntent(a)), a, now);
    TwoSteps(w, CancelIntent(a), ApplyStateStep(a, IntentCanceled, now));
  }

  lemma TwoSteps(w: World, s: Step, t: Step)
    ensures Run(w, [s, t]) == Next(Next(w, s), t)
  {
    hide Next;
    assert [s, t][1..] == [t];
    OneStep(Next(w, s), t);
  }

  lemma ThreeSteps(w: World, s: Step, t: Step, u: Step)
    ensures Run(w, [s, t, u]) == Next(Next(Next(w, s), t), u)
  {
    hide Next;
    assert [s, t, u][1..] == [t, u];
    TwoSteps(Next(w, s), t, u);
  }

  ghost predicate AttachedTo(w: World, w': World, a: AttemptId, now: Time) {
    && Inv(w') && w'.provider == w.provider && HasReference(w'.db, a)
    && (CartBlocks(w'.db, a, now) <==> CartBlocks(w.db, a, now))
  }

  lemma AttachSucceeds(w: World, a: AttemptId, now: Time)
    requires Inv(w) && Workable(w, a) && !HasReference(w.db, a)
    ensures AttachedTo(w, Next(w, RecordIntent(a, now)), a, now)
  {
    hide Inv, AllAvailable, CartTaken, LinesByProduct;
    KeepsStep(w, RecordIntent(a, now));
  }

  /** The provider has decided, or it waits for a capture that the cart does not stand in the way of. */
  predicate CanSettle(w: World, a: AttemptId, now: Time) {
    && Retrievable(w, a)
    && w.provider.intents[a].status != Open
    && (w.provider.intents[a].status == RequiresCapture ==> !CartBlocks(w.db, a, now))
  }

  lemma AttachedPassConverges(w: World, a: AttemptId, now: Time)
    requires Inv(w) && HasReference(w.db, a) && CanSettle(w, a, now)
    ensures Agrees(Run(w, ReconcileSteps(w, a, now)), a)
  {
    hide Inv, Agrees, AllocateInventory, FinalizeCapturedPayment, ReleaseUnpaidPayment, Next, IntentMatchesAttempt,
         CartBlocks;
    var status := w.provider.intents[a].status;
    var step := ApplyStateStep(a, status, now);
    var w1 := Next(w, step);
    HeldMatches(w, a, status);
    CurrentStatusCanShow(w, a);
    KeepsStep(w, step);
    assert Run(w, []) == w;
    var applied := ApplyIntentState(w.db, HeldSnapshot(w.provider, a, status), a, now);
    AppliedStep(w, a, status, now);
    if status == RequiresCapture {
      AllocateGivesWork(w, a, now);
      var kind := AllocateInventory(w.db, a, now).value.kind.value;
      assert ReconcileSteps(w, a, now) == [step] + ActionSteps(a, kind, now);
      match kind {
        case Capture => CaptureRuns(w1, a, now);
        case Cancel => CancelRuns(w1, a, now);
      }
      OneStep(w, step);
      RunAppend(w, [step], ActionSteps(a, kind, now));
    } else {
      TerminalIntentConverges(w, a, now);
      assert ReconcileSteps(w, a, now) == [step];
      OneStep(w, step);
    }
  }

  lemma AppliedStep(w: World, a: AttemptId, status: IntentStatus, now: Time)
    requires CanShow(w.provider, a, status)
    ensures Next(w, ApplyStateStep(a, status, now)).provider == w.provider
    ensures ApplyIntentState(w.db, HeldSnapshot(w.provider, a, status), a, now).Ok? ==>
      Next(w, ApplyStateStep(a, status, now)).db
        == ApplyIntentState(w.db, HeldSnapshot(w.provider, a, status), a, now).value.db
  {
    hide ApplyIntentState;
  }

  /** Undecided, and without anything the pass could ask the provider about. */
  predicate NothingToAsk(attempt: Attempt) {
    IsActive(attempt.status) && attempt.reference.None? && attempt.sessionId.None?
  }

  /**
   * One pass converges: from every reachable world in which the provider has an authorised, captured or cancelled
   * intent, the pass ends in agreement exactly unless the attempt is undecided and has neither reference nor session,
   * or the money is authorised and another order has the cart. Repeating the last answer then changes nothing any more.
   */
  lemma ReconcilePassConverges(w: World, a: AttemptId, now: Time, later: Time)
    requires Reachable(w) && Retrievable(w, a) && w.provider.intents[a].status != Open
    ensures Reachable(Run(w, ReconcileSteps(w, a, now)))
    ensures Agrees(Run(w, ReconcileSteps(w, a, now)), a) <==> !NothingToAsk(w.db.attempts[a]) && CanSettle(w, a, now)
    ensures var w' := Run(w, ReconcileSteps(w, a, now));
            Agrees(w', a) ==> Next(w', ApplyStateStep(a, w'.provider.intents[a].status, later)).db == w'.db
  {
    hide Inv, Agrees, Next, Run, ReconcileSteps, Reachable, CartBlocks;
    ReachableHolds(w);
    if !CanAttach(w.db.attempts[a]) {
      PassCannotStart(w, a, now);
      UnmatchedAgreesOnceFinished(w, a);
    } else if CanSettle(w, a, now) {
      PassConverges(w, a, now);
    } else {
      BlockedPass(w, a, now);
      UndecidedDisagrees(Run(w, ReconcileSteps(w, a, now)), a);
    }
    var steps := ReconcileSteps(w, a, now);
    ReachableOn(w, steps);
    ReachableHolds(Run(w, steps));
    if Agrees(Run(w, steps), a) { AgreementIsFixed(Run(w, steps), a, later); }
  }

  /** A finished attempt that was never matched with its intent was cancelled, and so was the intent. */
  lemma UnmatchedAgreesOnceFinished(w: World, a: AttemptId)
    requires Inv(w) && Retrievable(w, a) && w.provider.intents[a].status != Open
    requires !CanAttach(w.db.attempts[a])
    ensures Agrees(w, a) <==> !IsActive(w.db.attempts[a].status)
    ensures NothingToAsk(w.db.attempts[a]) <==> IsActive(w.db.attempts[a].status)
    ensures !IsActive(w.db.attempts[a].status) ==> w.provider.intents[a].status == IntentCanceled
  {
    hide DraftsOk, CartsOk, CatalogueOk, OrdersOk, AttemptsOwned, OrderIndexOk, OrderMirrors;
    assert CaseHolds(w, a);
    if !IsActive(w.db.attempts[a].status) {
      FinishedUnmatchedIsCanceled(CaseOf(w, a));
      ReleasedAgrees(w, a);
    }
  }

  lemma FinishedUnmatchedIsCanceled(c: Case)
    requires CaseInv(c) && c.attempt.reference.None? && !IsActive(c.attempt.status)
    requires c.intent.Some? && c.intent.value.status != Open
    ensures c.attempt.status == Cancelled && c.intent.value.status == IntentCanceled && c.allocation.None?
  {
    hide OrderMirrors, OrderFollows;
  }

  lemma PassCannotStart(w: World, a: AttemptId, now: Time)
    requires Retrievable(w, a) && !Workable(w, a)
    ensures Run(w, ReconcileSteps(w, a, now)) == w
  {
    hide Next;
    var attach, step := RecordIntent(a, now), ApplyStateStep(a, w.provider.intents[a].status, now);
    RejectedSteps(w, a, now);
    OneStep(w, attach);
    assert ReconcileSteps(w, a, now) == [attach, step];
    TwoSteps(w, attach, step);
  }

  lemma RejectedSteps(w: World, a: AttemptId, now: Time)
    requires Retrievable(w, a) && !CanAttach(w.db.attempts[a])
    ensures Next(w, RecordIntent(a, now)) == w
    ensures Next(w, ApplyStateStep(a, w.provider.intents[a].status, now)) == w
  {
  }

  lemma PassConverges(w: World, a: AttemptId, now: Time)
    requires Inv(w) && Workable(w, a) && CanSettle(w, a, now)
    ensures Agrees(Run(w, ReconcileSteps(w, a, now)), a)
  {
    hide Inv, Agrees, Next, ApplyIntentState, ActionSteps, CartBlocks;
    if w.db.attempts[a].reference.Some? {
      AttachedPassConverges(w, a, now);
    } else {
      var attach := RecordIntent(a, now);
      AttachSucceeds(w, a, now);
      var w1 := Next(w, attach);
      OneStep(w, attach);
      AttachedPassConverges(w1, a, now);
      assert Run(w1, []) == w1;
      assert ReconcileSteps(w, a, now) == [attach] + ReconcileSteps(w1, a, now);
      RunAppend(w, [attach], ReconcileSteps(w1, a, now));
    }
  }

  /** A pass that the cart stands in the way of: it may still record the reference, and then it throws. */
  lemma BlockedPass(w: World, a: AttemptId, now: Time)
    requires Inv(w) && Workable(w, a) && IntentIs(w, a, RequiresCapture) && CartBlocks(w.db, a, now)
    ensures AppliedInPass(w, a, now).Rejected?
    ensures Run(w, ReconcileSteps(w, a, now)) == Run(w, AttachSteps(w, a, now))
    ensures Run(w, AttachSteps(w, a, now)).provider == w.provider
  {
    hide Inv, Next, ApplyIntentState, CartBlocks, HeldSnapshot;
    var attach, step := RecordIntent(a, now), ApplyStateStep(a, RequiresCapture, now);
    assert Run(w, []) == w;
    if w.db.attempts[a].reference.Some? {
      BlockedStep(w, a, now);
      OneStep(w, step);
      assert ReconcileSteps(w, a, now) == [step];
    } else {
      AttachSucceeds(w, a, now);
      OneStep(w, attach);
      BlockedStep(Next(w, attach), a, now);
      TwoSteps(w, attach, step);
      assert ReconcileSteps(w, a, now) == [attach, step];
    }
  }

  lemma BlockedStep(w: World, a: AttemptId, now: Time)
    requires Matched(w, a, RequiresCapture) && CartBlocks(w.db, a, now)
    ensures a in w.provider.sessions
    ensures ApplyIntentState(w.db, HeldSnapshot(w.provider, a, RequiresCapture), a, now).Rejected?
    ensures Next(w, ApplyStateStep(a, RequiresCapture, now)) == w
  {
    hide Inv, AllocateInventory, CartBlocks, IntentMatchesAttempt;
    HeldMatches(w, a, RequiresCapture);
    AllocationRejectsExactlyWhenBlocked(w, a, now);
  }

  lemma UndecidedDisagrees(w: World, a: AttemptId)
    requires IntentIs(w, a, RequiresCapture)
    ensures !Agrees(w, a)
  {
  }

  /** Where everything agrees, applying the provider's state again is a no-op. */
  lemma AgreementIsFixed(w: World, a: AttemptId, now: Time)
    requires Inv(w) && Agrees(w, a)
    ensures Next(w, ApplyStateStep(a, w.provider.intents[a].status, now)).db == w.db
  {
    hide Inv, IntentMatchesAttempt, CanShow;
    var status := w.provider.intents[a].status;
    CurrentStatusCanShow(w, a);
    if status == IntentCanceled { AppliedReleaseIsFixed(w.db, a, now); }
  }

  lemma AppliedReleaseIsFixed(db: Db, a: AttemptId, now: Time)
    requires a < |db.attempts| && db.attempts[a].status == Cancelled
    requires a in db.allocations ==> db.allocations[a].status == Released
    ensures ReleaseUnpaidPayment(db, a, CancelledUnpaid, now) == Ok(db)
  {
  }

  // ----- Nothing the provider still owes is forgotten -----

  /** The rows that match the query of `reconcileOutstanding` at a given time; it then takes the oldest of them. */
  predicate IsCandidate(db: Db, a: AttemptId, now: Time) {
    && a < |db.attempts|
    && var attempt := db.attempts[a];
       || attempt.status == ReconciliationRequired
       || (attempt.status == Pending && attempt.sessionId.Some?
           && attempt.sessionExpiresAt.Some? && attempt.sessionExpiresAt.value <= now)
       || HasLiveAllocation(db, a)
  }

  /** A capture or a cancellation lost in a crash after its transaction leaves a candidate, or is no longer needed. */
  lemma LostActionLeavesCandidate(w: World, a: AttemptId, status: IntentStatus, now: Time, later: Time)
    requires Reachable(w) && CanShow(w.provider, a, status)
    ensures a < |w.db.attempts|
    ensures var r := ApplyIntentState(w.db, HeldSnapshot(w.provider, a, status), a, now);
            r.Ok? && r.value.action.Some? ==>
              && a < |r.value.db.attempts|
              && (IsCandidate(r.value.db, a, later) || w.provider.intents[a].status == IntentCanceled)
  {
    hide Inv, Reachable, AllocateInventory, FinalizeCapturedPayment, ReleaseUnpaidPayment, IsCandidate;
    ReachableHolds(w);
    CaseOfProvider(w, a);
    var r := ApplyIntentState(w.db, HeldSnapshot(w.provider, a, status), a, now);
    if r.Ok? && r.value.action.Some? { AllocateLeavesCandidate(w, a, now, later); }
  }

  lemma IntentEventAction(db: Db, kind: IntentEventType, intent: IntentSnapshot, a: AttemptId, now: Time)
    requires ApplyIntentEvent(db, kind, intent, a, now).Ok?
    requires ApplyIntentEvent(db, kind, intent, a, now).value.action.Some?
    ensures intent.status == RequiresCapture && AttachReference(db, a, intent.id, now).Ok?
    ensures a < |db.attempts|
    ensures var attached := AttachReference(db, a, intent.id, now).value;
            && a < |attached.attempts| && attached.attempts[a].reference.Some?
            && AllocateInventory(attached, a, now).Ok? && AllocateInventory(attached, a, now).value.kind.Some?
            && ApplyIntentEvent(db, kind, intent, a, now).value.db == AllocateInventory(attached, a, now).value.db
            && ApplyIntentEvent(db, kind, intent, a, now).value.action.value.attemptId == a
  {
    hide AllocateInventory, FinalizeCapturedPayment, ReleaseUnpaidPayment, AttachReference;
    AttachGives(db, a, intent.id, now);
  }

  lemma ReceiptsHideNoCandidate(db: Db, receipts: map<EventId, nat>, a: AttemptId, now: Time)
    requires a < |db.attempts|
    ensures IsCandidate(db.(receipts := receipts), a, now) == IsCandidate(db, a, now)
  {
  }

  lemma LostWebhookActionLeavesCandidate(w: World, event: Event, now: Time, later: Time)
    requires Reachable(w) && GenuineEvent(w.provider, event)
    ensures var r := ProcessWebhook(w.db, event, now);
            r.Ok? && r.value.action.Some? ==>
              && var a := r.value.action.value.attemptId;
                 && a < |r.value.db.attempts| && a in w.provider.intents
                 && (IsCandidate(r.value.db, a, later) || w.provider.intents[a].status == IntentCanceled)
  {
    hide Inv, Reachable, ApplyIntentEvent, ApplySessionEvent, GenuineSession, IsCandidate, AllocateInventory;
    hide AttachReference;
    ReachableHolds(w);
    var r := ProcessWebhook(w.db, event, now);
    if r.Ok? && r.value.action.Some? {
      var intent := event.body.intent;
      var a := intent.metadata.value.attemptId;
      IntentEventAction(w.db, event.body.intentEvent, intent, a, now);
      KeepsAttach(w, a, intent.id, now);
      var w1 := w.(db := AttachReference(w.db, a, intent.id, now).value);
      AllocateLeavesCandidate(w1, a, now, later);
      var db1 := AllocateInventory(w1.db, a, now).value.db;
      ReceiptsHideNoCandidate(db1, db1.receipts[event.id := event.payload], a, later);
    }
  }

  lemma FinishedUnallocatedIsCanceled(w: World, a: AttemptId)
    requires Inv(w) && a < |w.db.attempts| && a !in w.db.allocations && !IsActive(w.db.attempts[a].status)
    requires a in w.provider.intents && RequiresCapture in w.provider.intents[a].seen
    ensures w.provider.intents[a].status == IntentCanceled
  {
    hide CartsOk, CatalogueOk, OrdersOk, AttemptsOwned, DraftsOk, OrderIndexOk;
    assert CaseHolds(w, a);
  }

  lemma LiveIsCandidate(db: Db, a: AttemptId, later: Time)
    requires a < |db.attempts| && a in db.allocations && IsLive(db.allocations[a].status)
    ensures IsCandidate(db, a, later)
  {
  }

  lemma MarkedIsCandidate(db: Db, a: AttemptId, now: Time, later: Time)
    requires a < |db.attempts|
    ensures |MarkReconciliation(db, a, now).attempts| == |db.attempts|
    ensures MarkReconciliation(db, a, now).allocations == db.allocations
    ensures IsActive(db.attempts[a].status) ==> IsCandidate(MarkReconciliation(db, a, now), a, later)
  {
    if IsActive(db.attempts[a].status) {
      var marked := db.attempts[a].(status := ReconciliationRequired, updatedAt := now);
      assert MarkReconciliation(db, a, now) == db.(attempts := db.attempts[a := marked]);
    } else {
      assert MarkReconciliation(db, a, now) == db;
    }
  }

  lemma AllocateLeavesCandidate(w: World, a: AttemptId, now: Time, later: Time)
    requires Inv(w) && a < |w.db.attempts| && w.db.attempts[a].reference.Some?
    requires a in w.provider.intents && RequiresCapture in w.provider.intents[a].seen
    requires AllocateInventory(w.db, a, now).Ok? && AllocateInventory(w.db, a, now).value.kind.Some?
    ensures a < |AllocateInventory(w.db, a, now).value.db.attempts|
    ensures IsCandidate(AllocateInventory(w.db, a, now).value.db, a, later)
         || w.provider.intents[a].status == IntentCanceled
  {
    hide Inv, AllAvailable, TakeStock, ProductsExist, LinesByProduct, IsCandidate, MarkReconciliation, PendingOrder;
    var db1 := AllocateInventory(w.db, a, now).value.db;
    MarkedIsCandidate(w.db, a, now, later);
    if a in db1.allocations && IsLive(db1.allocations[a].status) {
      LiveIsCandidate(db1, a, later);
    } else if !IsActive(w.db.attempts[a].status) {
      FinishedUnallocatedIsCanceled(w, a);
    }
  }

  /**
   * No clause of the query can match: the attempt was only prepared, or it is pending with neither a session to watch
   * nor a live reservation.
   */
  predicate OutOfSight(db: Db, a: AttemptId) {
    && a < |db.attempts|
    && var attempt := db.attempts[a];
       || attempt.status == Prepared
       || (attempt.status == Pending && attempt.sessionId.None? && !HasLiveAllocation(db, a))
  }

  /** Once its session time is over, an undecided attempt is a candidate from then on, or it never is one. */
  lemma UndecidedIsCandidateUnlessOutOfSight(w: World, a: AttemptId, now: Time)
    requires Reachable(w) && a < |w.db.attempts| && IsActive(w.db.attempts[a].status)
    requires w.db.attempts[a].sessionExpiresAt.Some? ==> w.db.attempts[a].sessionExpiresAt.value <= now
    ensures IsCandidate(w.db, a, now) <==> !OutOfSight(w.db, a)
    ensures OutOfSight(w.db, a) ==> forall later: Time :: !IsCandidate(w.db, a, later)
  {
    hide CartsOk, CatalogueOk, OrdersOk, AttemptsOwned, DraftsOk, OrderIndexOk, Reachable;
    ReachableHolds(w);
    assert CaseHolds(w, a);
    assert SessionOk(CaseOf(w, a)) && ReferenceOk(CaseOf(w, a)) && AllocationOk(CaseOf(w, a));
  }
}
