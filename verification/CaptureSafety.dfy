/** The promises of the card protocol, over every reachable world and every run from it. */
module CaptureSafety {
  import opened Basics
  import opened Records
  import opened StripePayments
  import opened Protocol
  import opened ProtocolSafety
  import opened ProtocolSteps
  import opened ProtocolRuns
  import opened Evolution

  /** Money is only ever captured against reserved stock: no interleaving captures without a live reservation. */
  lemma CapturedMoneyHasItsAllocation(w: World, a: AttemptId)
    requires Reachable(w) && a in w.provider.intents && w.provider.intents[a].status == IntentSucceeded
    ensures a in w.db.allocations
    ensures w.db.allocations[a].captureRequestedAt.Some? && w.db.allocations[a].status != Released
    ensures w.db.allocations[a].orderId < |w.db.orders| && w.db.orders[w.db.allocations[a].orderId].attemptId == Some(a)
    ensures w.db.orders[w.db.allocations[a].orderId].status != OrderCancelled
  {
    hide DraftsOk, CartsOk, CatalogueOk, OrdersOk, AttemptsOwned;
    ReachableHolds(w);
    assert CaseHolds(w, a);
    CapturedIsSettleable(CaseOf(w, a));
  }

  /** The unique index on orders that are not cancelled, over every interleaving of card and cash orders. */
  lemma OneOrderHoldsTheCart(w: World, o: OrderId, p: OrderId)
    requires Reachable(w) && o < |w.db.orders| && p < |w.db.orders| && o != p
    requires w.db.orders[o].status != OrderCancelled && w.db.orders[p].status != OrderCancelled
    ensures w.db.orders[o].cartId != w.db.orders[p].cartId
  {
    hide CasesOk, KeysOk, OrderIndexOk, AttemptsOwned, DraftsOk, CartsOk, CatalogueOk;
    ReachableHolds(w);
  }

  ghost predicate OrderIs(w: World, a: AttemptId, status: OrderStatus, state: PaymentState) {
    && a in w.db.orderOfAttempt && w.db.orderOfAttempt[a] < |w.db.orders|
    && w.db.orders[w.db.orderOfAttempt[a]].status == status
    && w.db.orders[w.db.orderOfAttempt[a]].paymentState == state
  }

  ghost predicate IntentIs(w: World, a: AttemptId, status: IntentStatus) {
    a in w.provider.intents && w.provider.intents[a].status == status
  }

  ghost predicate AttemptIs(w: World, a: AttemptId, status: AttemptStatus) {
    a < |w.db.attempts| && w.db.attempts[a].status == status
  }

  ghost predicate AllocationIs(w: World, a: AttemptId, status: AllocationStatus) {
    a in w.db.allocations && w.db.allocations[a].status == status
  }

  /** Attempt, allocation, order and provider move in lock step. */
  lemma LockStep(w: World, a: AttemptId)
    requires Reachable(w) && a < |w.db.attempts|
    ensures AttemptIs(w, a, Succeeded) <==> AllocationIs(w, a, Captured)
    ensures AllocationIs(w, a, Captured) <==> OrderIs(w, a, OrderPaid, PaymentPaid)
    ensures AllocationIs(w, a, Released) <==> OrderIs(w, a, OrderCancelled, PaymentFailed)
    ensures AllocationIs(w, a, Released) ==> AttemptIs(w, a, Cancelled)
    ensures AttemptIs(w, a, Succeeded) ==> IntentIs(w, a, IntentSucceeded)
    ensures AllocationIs(w, a, Released) ==> IntentIs(w, a, IntentCanceled)
    ensures !AttemptIs(w, a, DefinitivelyFailed)
  {
    hide DraftsOk, CartsOk, CatalogueOk, OrdersOk, AttemptsOwned;
    ReachableHolds(w);
    assert CaseHolds(w, a);
    CaseLockStep(CaseOf(w, a));
  }

  lemma CaseLockStep(c: Case)
    requires CaseInv(c)
    ensures c.allocation.Some? <==> c.orderId.Some?
    ensures c.orderId.Some? ==> c.order.Some?
    ensures c.allocation.Some? ==>
      && (c.allocation.value.status == Captured <==>
            c.order.value.status == OrderPaid && c.order.value.paymentState == PaymentPaid)
      && (c.allocation.value.status == Released <==>
            c.order.value.status == OrderCancelled && c.order.value.paymentState == PaymentFailed)
    ensures OutcomeOk(c)
  {
  }

  /** Every run from a reachable world: nothing sealed, attached, finished or requested is ever taken back. */
  lemma {:induction false} RunsEvolve(w: World, steps: seq<Step>)
    requires Reachable(w)
    ensures Evolves(w, Run(w, steps))
    decreases |steps|
  {
    hide Next, DbEvolves, ProviderEvolves;
    if steps == [] {
      SameEvolves(w.db);
      SameProviderEvolves(w.provider);
    } else {
      ReachableHolds(w);
      NextAttemptHasNoClaim(w);
      StepEvolves(w, steps[0]);
      ReachableOn(w, steps[..1]);
      assert Run(w, steps[..1]) == Next(w, steps[0]) by { assert steps[..1] == [steps[0]]; OneStep(w, steps[0]); }
      RunsEvolve(Next(w, steps[0]), steps[1..]);
      EvolvesOn(w, Next(w, steps[0]), Run(w, steps));
    }
  }

  lemma OneStep(w: World, step: Step)
    ensures Run(w, [step]) == Next(w, step)
  {
    hide Next;
    assert [step][1..] == [];
    assert Run(Next(w, step), []) == Next(w, step);
  }

  /** A finished attempt, its captured or released allocation and its paid order stay exactly what they are. */
  lemma FinishedStaysFinished(w: World, steps: seq<Step>, a: AttemptId)
    requires Reachable(w) && a < |w.db.attempts|
    ensures a < |Run(w, steps).db.attempts|
    ensures w.db.attempts[a].reference.Some? ==> Run(w, steps).db.attempts[a].reference == w.db.attempts[a].reference
    ensures w.db.attempts[a].status in {Succeeded, Cancelled} ==> Run(w, steps).db.attempts[a] == w.db.attempts[a]
    ensures AllocationIs(w, a, Captured) ==> AllocationIs(Run(w, steps), a, Captured)
    ensures AllocationIs(w, a, Released) ==> AllocationIs(Run(w, steps), a, Released)
    ensures OrderIs(w, a, OrderPaid, PaymentPaid) ==> OrderIs(Run(w, steps), a, OrderPaid, PaymentPaid)
    ensures Run(w, steps).db.attempts[a].items == w.db.attempts[a].items
    ensures Run(w, steps).db.attempts[a].pricing == w.db.attempts[a].pricing
  {
    hide Next, Run, Reachable, Inv;
    RunsEvolve(w, steps);
    var w' := Run(w, steps);
    ReachableOn(w, steps);
    LockStep(w, a);
    assert AttemptEvolves(w.db.attempts[a], w'.db.attempts[a]);
    LockStep(w', a);
    assert AllocationEvolves(Lookup(w.db.allocations, a), Lookup(w'.db.allocations, a));
  }

  /** A paid or a cash order is never cancelled, so its cart never gets another order. */
  lemma SettledOrderKeepsTheCart(w: World, o: OrderId, steps: seq<Step>)
    requires Reachable(w) && o < |w.db.orders|
    requires w.db.orders[o].status == OrderPaid || w.db.orders[o].attemptId.None?
    ensures CartTaken(Run(w, steps).db.orders, w.db.orders[o].cartId)
  {
    hide Next, Run, Reachable, Inv;
    RunsEvolve(w, steps);
    var w' := Run(w, steps);
    ReachableOn(w, steps);
    ReachableHolds(w);
    ReachableHolds(w');
    assert OrderEvolves(w.db.orders[o], w'.db.orders[o]);
    match w.db.orders[o].attemptId {
      case None => CashOrderIsActive(w', o);
      case Some(a) =>
        PaidOrderOfAttempt(w, o, a);
        FinishedStaysFinished(w, steps, a);
        OrderOfItsAttempt(w', o, a);
    }
    assert w'.db.orders[o].status != OrderCancelled;
  }

  lemma CashOrderIsActive(w: World, o: OrderId)
    requires Inv(w) && o < |w.db.orders| && w.db.orders[o].attemptId.None?
    ensures w.db.orders[o].status == OrderPlaced && w.db.orders[o].paymentState == DueOnDelivery
    ensures w.db.orders[o].paidAt.None?
  {
    hide CasesOk, KeysOk, OrderIndexOk, AttemptsOwned, DraftsOk, CatalogueOk, CartsOk;
    assert CashOrder(w.db.orders[o]);
  }

  lemma OrderOfItsAttempt(w: World, o: OrderId, a: AttemptId)
    requires Inv(w) && o < |w.db.orders| && w.db.orders[o].attemptId == Some(a)
    ensures a < |w.db.attempts| && a in w.db.orderOfAttempt && w.db.orderOfAttempt[a] == o
  {
    hide CasesOk, KeysOk, OrdersOk, AttemptsOwned, DraftsOk, CartsOk, CatalogueOk;
  }

  lemma PaidOrderOfAttempt(w: World, o: OrderId, a: AttemptId)
    requires Inv(w) && o < |w.db.orders| && w.db.orders[o].attemptId == Some(a) && w.db.orders[o].status == OrderPaid
    ensures a < |w.db.attempts| && OrderIs(w, a, OrderPaid, PaymentPaid)
  {
    hide KeysOk, OrdersOk, AttemptsOwned, DraftsOk, CartsOk, CatalogueOk, OrderMirrors;
    OrderOfItsAttempt(w, o, a);
    assert CaseHolds(w, a);
  }
}
