/**
 * The database's own consistency checks (deferred constraint triggers) against the services: transcribed here as
 * predicates on one attempt, and compared with what the transactions alone guarantee.
 */
module StorageChecks {
  import opened Basics
  import opened Money
  import opened Records
  import opened StripePayments
  import opened Protocol
  import opened ProtocolSafety
  import opened ProtocolRuns
  import opened CaptureSafety

  predicate SameRowSets(xs: seq<Line>, ys: seq<Line>) {
    && (forall i :: 0 <= i < |xs| ==> xs[i] in ys)
    && (forall i :: 0 <= i < |ys| ==> ys[i] in xs)
  }

  /** The order carries the attempt's snapshot; a missing reference on either side is never equal. */
  predicate SnapshotMatches(order: Order, attempt: Attempt) {
    && order.paymentMethod == StripeDebitCard
    && order.reference.Some? && order.reference == attempt.reference
    && order.userId == attempt.userId
    && order.currency == attempt.currency
    && order.pricing == attempt.pricing
    && SameRowSets(attempt.items, order.items)
  }

  /** `assert_payment_allocation_consistency` */
  predicate AllocationChecks(db: Db, a: AttemptId)
    requires a < |db.attempts|
  {
    var attempt := db.attempts[a];
    if a !in db.allocations then attempt.status != Succeeded
    else
      var allocation := db.allocations[a];
      && attempt.reference == Some(allocation.reference)
      && allocation.orderId < |db.orders|
      && var order := db.orders[allocation.orderId];
         && order.attemptId == Some(a)
         && SnapshotMatches(order, attempt)
         && match allocation.status
            case Captured =>
              attempt.status == Succeeded && order.paymentState == PaymentPaid && order.status == OrderPaid
            case Released =>
              && (attempt.status == DefinitivelyFailed || attempt.status == Cancelled)
              && order.paymentState == PaymentFailed && order.status == OrderCancelled
            case _ =>
              && (attempt.status == Pending || attempt.status == ReconciliationRequired)
              && order.paymentState == PaymentPending && order.status == OrderPlaced
  }

  predicate LinkedOrderAllowed(db: Db, a: AttemptId, o: OrderId)
    requires a < |db.attempts| && o < |db.orders|
  {
    var order, status := db.orders[o], db.attempts[a].status;
    && a in db.allocations && db.allocations[a].orderId == o
    && (|| ((status == Pending || status == ReconciliationRequired)
            && order.paymentState == PaymentPending && order.status == OrderPlaced)
        || ((status == DefinitivelyFailed || status == Cancelled)
            && order.paymentState == PaymentFailed && order.status == OrderCancelled))
  }

  predicate PaidOrderOf(db: Db, a: AttemptId, o: OrderId)
    requires a < |db.attempts| && o < |db.orders|
  {
    var order := db.orders[o];
    && order.attemptId == Some(a) && order.paymentState == PaymentPaid && order.status == OrderPaid
    && order.paidAt.Some? && SnapshotMatches(order, db.attempts[a])
  }

  /** `assert_payment_attempt_claim_consistency` */
  predicate ClaimChecks(db: Db, a: AttemptId)
    requires a < |db.attempts|
  {
    var attempt := db.attempts[a];
    && (if attempt.status == Succeeded
        then exists o :: 0 <= o < |db.orders| && PaidOrderOf(db, a, o)
        else (exists o :: 0 <= o < |db.orders| && db.orders[o].attemptId == Some(a)) ==>
               exists o :: 0 <= o < |db.orders| && db.orders[o].attemptId == Some(a) && LinkedOrderAllowed(db, a, o))
    && (if attempt.pricing.discountKind == NoDiscount then a !in db.claims
        else
          && a in db.claims && attempt.userId == Some(db.claims[a].userId)
          && match attempt.status
             case Succeeded =>
               && db.claims[a].status == Consumed && db.claims[a].consumedOrderId.Some?
               && var o := db.claims[a].consumedOrderId.value;
                  o < |db.orders| && PaidOrderOf(db, a, o)
             case DefinitivelyFailed => db.claims[a].status == ClaimReleased
             case Cancelled => db.claims[a].status == ClaimReleased
             case _ => db.claims[a].status == Claimed)
  }

  predicate ChecksPass(db: Db, a: AttemptId)
    requires a < |db.attempts|
  {
    AllocationChecks(db, a) && ClaimChecks(db, a)
  }

  /** A cancelled attempt that a late authorisation has given stock again. */
  predicate Revived(db: Db, a: AttemptId) {
    a < |db.attempts| && db.attempts[a].status == Cancelled && a in db.allocations && IsLive(db.allocations[a].status)
  }

  // ----- The services satisfy every check but one -----

  lemma MirrorsMatch(order: Order, attempt: Attempt)
    requires OrderMirrors(order, attempt) && attempt.reference.Some?
    ensures SnapshotMatches(order, attempt)
  {
    LinesByProductKeeps(attempt.items);
    forall i | 0 <= i < |attempt.items| ensures attempt.items[i] in order.items {}
    forall i | 0 <= i < |order.items| ensures order.items[i] in attempt.items {}
  }

  lemma AllocationChecksPass(w: World, a: AttemptId)
    requires Inv(w) && a < |w.db.attempts|
    ensures AllocationChecks(w.db, a) <==> !Revived(w.db, a)
    ensures a in w.db.allocations ==>
      && w.db.allocations[a].orderId < |w.db.orders|
      && SnapshotMatches(w.db.orders[w.db.allocations[a].orderId], w.db.attempts[a])
  {
    hide CartsOk, CatalogueOk, OrdersOk, AttemptsOwned, DraftsOk, SnapshotMatches;
    assert CaseHolds(w, a);
    if a in w.db.allocations {
      MirrorsMatch(w.db.orders[w.db.allocations[a].orderId], w.db.attempts[a]);
      hide CaseInv, OrderMirrors;
      CaseStatuses(CaseOf(w, a));
    }
  }

  lemma CaseStatuses(c: Case)
    requires CaseInv(c)
    ensures c.allocation.Some? ==>
      && c.orderId == Some(c.allocation.value.orderId) && c.order.Some?
      && c.attempt.reference == Some(c.allocation.value.reference)
      && OrderFollows(c.order.value, c.allocation.value.status)
      && (c.allocation.value.status == Captured ==> c.attempt.status == Succeeded)
      && (c.allocation.value.status == Released ==> c.attempt.status == Cancelled)
      && (IsLive(c.allocation.value.status) ==> c.attempt.status in {Pending, ReconciliationRequired, Cancelled})
  {
  }

  lemma OrderOfAttempt(w: World, a: AttemptId, o: nat)
    requires Inv(w) && a < |w.db.attempts| && o < |w.db.orders| && w.db.orders[o].attemptId == Some(a)
    ensures a in w.db.allocations && w.db.allocations[a].orderId == o
  {
    hide CartsOk, CatalogueOk, OrdersOk, AttemptsOwned, DraftsOk;
    assert CaseHolds(w, a);
  }

  lemma LinkedOrderPasses(w: World, a: AttemptId)
    requires Inv(w) && a < |w.db.attempts| && a in w.db.allocations && w.db.attempts[a].status != Succeeded
    requires !Revived(w.db, a)
    ensures var o := w.db.allocations[a].orderId;
            o < |w.db.orders| && w.db.orders[o].attemptId == Some(a) && LinkedOrderAllowed(w.db, a, o)
  {
    hide CartsOk, CatalogueOk, OrdersOk, AttemptsOwned, DraftsOk, CaseInv, OrderMirrors;
    assert CaseHolds(w, a);
    CaseStatuses(CaseOf(w, a));
  }

  lemma SucceededOrderPasses(w: World, a: AttemptId)
    requires Inv(w) && a < |w.db.attempts| && w.db.attempts[a].status == Succeeded
    ensures a in w.db.orderOfAttempt && w.db.orderOfAttempt[a] < |w.db.orders|
    ensures PaidOrderOf(w.db, a, w.db.orderOfAttempt[a])
  {
    hide CartsOk, CatalogueOk, OrdersOk, AttemptsOwned, DraftsOk, SnapshotMatches;
    assert CaseHolds(w, a);
    AllocationChecksPass(w, a);
  }

  lemma ClaimRowPasses(w: World, a: AttemptId)
    requires Inv(w) && a < |w.db.attempts|
    ensures a in w.db.claims <==> w.db.attempts[a].pricing.discountKind == FirstPurchase
    ensures a in w.db.claims ==>
      && w.db.attempts[a].userId == Some(w.db.claims[a].userId)
      && w.db.claims[a].status == ClaimStatusFor(w.db.attempts[a].status)
      && (w.db.claims[a].status == Consumed ==> w.db.claims[a].consumedOrderId == Lookup(w.db.orderOfAttempt, a))
  {
    hide CartsOk, CatalogueOk, OrdersOk, AttemptsOwned, DraftsOk, OrderIndexOk;
    assert CaseHolds(w, a);
    assert ClaimOk(CaseOf(w, a));
  }

  lemma ClaimChecksPass(w: World, a: AttemptId)
    requires Inv(w) && a < |w.db.attempts| && !Revived(w.db, a)
    ensures ClaimChecks(w.db, a)
  {
    hide Inv, PaidOrderOf, LinkedOrderAllowed, Revived;
    ClaimRowPasses(w, a);
    if w.db.attempts[a].status == Succeeded {
      SucceededOrderPasses(w, a);
    } else if exists o :: 0 <= o < |w.db.orders| && w.db.orders[o].attemptId == Some(a) {
      var o :| 0 <= o < |w.db.orders| && w.db.orders[o].attemptId == Some(a);
      OrderOfAttempt(w, a, o);
      LinkedOrderPasses(w, a);
    }
  }

  /**
   * In every reachable world the storage checks fail for an attempt exactly when it is cancelled and yet holds a live
   * allocation: the one thing `allocateInventory` does not look at is the attempt's status.
   */
  lemma ChecksFailExactlyWhenRevived(w: World, a: AttemptId)
    requires Reachable(w) && a < |w.db.attempts|
    ensures ChecksPass(w.db, a) <==> !Revived(w.db, a)
  {
    hide Inv, Reachable, AllocationChecks, ClaimChecks, Revived;
    ReachableHolds(w);
    AllocationChecksPass(w, a);
    if !Revived(w.db, a) { ClaimChecksPass(w, a); }
  }

  // ----- With the checks switched on -----

  ghost predicate AllChecksPass(db: Db) {
    forall a :: 0 <= a < |db.attempts| ==> ChecksPass(db, a)
  }

  /** A transaction that leaves a failing check behind is rolled back. */
  ghost function NextChecked(w: World, step: Step): World {
    if AllChecksPass(Next(w, step).db) then Next(w, step) else w
  }

  ghost function RunChecked(w: World, steps: seq<Step>): World
    decreases |steps|
  {
    if steps == [] then w else RunChecked(NextChecked(w, steps[0]), steps[1..])
  }

  /** Checked runs are runs, and they never revive a cancelled attempt. */
  lemma {:induction false} CheckedRunsNeverRevive(w: World, steps: seq<Step>)
    requires Reachable(w) && AllChecksPass(w.db)
    ensures Reachable(RunChecked(w, steps))
    ensures var w' := RunChecked(w, steps); forall a :: 0 <= a < |w'.db.attempts| ==> !Revived(w'.db, a)
    decreases |steps|
  {
    hide Next, Reachable, ChecksPass, Revived;
    if steps == [] {
      forall a | 0 <= a < |w.db.attempts| ensures !Revived(w.db, a) { ChecksFailExactlyWhenRevived(w, a); }
    } else {
      ReachableOn(w, [steps[0]]);
      OneStep(w, steps[0]);
      CheckedRunsNeverRevive(NextChecked(w, steps[0]), steps[1..]);
    }
  }
}
