/** The first-purchase discount: one per user, and only ever on that user's first paid order. */
module DiscountSafety {
  import opened Basics
  import opened Money
  import opened Records
  import opened PaymentAttempts
  import opened CashOrders
  import opened CheckoutDrafts
  import opened Protocol
  import opened ProtocolSafety
  import opened ProtocolRuns
  import opened Evolution

  predicate IsHeld(status: ClaimStatus) { status == Claimed || status == Consumed }

  ghost predicate OneHeldClaimPerUser(claims: map<AttemptId, Claim>) {
    forall a, b :: a in claims && b in claims && a != b && claims[a].userId == claims[b].userId ==>
      !(IsHeld(claims[a].status) && IsHeld(claims[b].status))
  }

  ghost predicate FullPriceAfterPurchase(attempt: Attempt, orders: seq<Order>) {
    attempt.userId.Some? && attempt.pricing.discountKind == NoDiscount ==> HasPaidOrder(orders, attempt.userId.value)
  }

  /** An account pays full price only once it has a paid order, and holds an unspent claim only before. */
  ghost predicate DiscountOk(db: Db) {
    && OneHeldClaimPerUser(db.claims)
    && (forall a :: 0 <= a < |db.attempts| ==> FullPriceAfterPurchase(db.attempts[a], db.orders))
    && (forall a :: a in db.claims && db.claims[a].status == Claimed ==> !HasPaidOrder(db.orders, db.claims[a].userId))
  }

  // ----- The number of attempts -----

  lemma OnlyPrepareAddsAttempts(w: World, step: Step)
    requires Inv(w) && !step.PrepareStep?
    ensures |Next(w, step).db.attempts| == |w.db.attempts|
  {
    hide Inv, Next, CreateCashOrder, SaveDraft;
    CommittedDb(w, step);
    match step {
      case CashOrderStep(context, checkout, now) =>
        CashOrderWrites(w, context, checkout, now);
      case SaveDraftStep(access, raw, key, draft, now, freshId) =>
        if freshId !in w.db.drafts && SaveDraft(w.db, access, raw, key, draft, now, freshId).Ok? {
          SavedDraftShape(w, access, raw, key, draft, now, freshId);
        }
      case _ =>
        if IsCardStep(step) {
          CardStepRows(w, step);
        } else if IsProviderStep(step) {
          ProviderLeavesDb(w, step);
        } else {
          EditWritesThreeTables(w, step);
        }
    }
  }

  // ----- What changes between two worlds of one run -----

  /** A paid order belongs to a succeeded attempt, and is the order its allocation names. */
  lemma PaidOrderHasAttempt(w: World, o: nat) returns (a: AttemptId)
    requires Inv(w) && o < |w.db.orders| && w.db.orders[o].paymentState == PaymentPaid
    ensures a < |w.db.attempts| && w.db.attempts[a].status == Succeeded
    ensures w.db.orders[o].userId == w.db.attempts[a].userId
    ensures w.db.orders[o].pricing == w.db.attempts[a].pricing
    ensures a in w.db.orderOfAttempt && w.db.orderOfAttempt[a] == o
  {
    hide DraftsOk, CartsOk, CatalogueOk, AttemptsOwned, KeysOk;
    assert w.db.orders[o].attemptId.None? ==> CashOrder(w.db.orders[o]);
    a := w.db.orders[o].attemptId.value;
    assert CaseHolds(w, a);
    hide CaseInv;
    PaidCase(CaseOf(w, a));
  }

  lemma PaidCase(c: Case)
    requires CaseInv(c) && c.order.Some? && c.orderId.Some? && c.order.value.paymentState == PaymentPaid
    ensures c.attempt.status == Succeeded && c.order.value.userId == c.attempt.userId
    ensures c.order.value.pricing == c.attempt.pricing
  {
  }

  lemma SucceededHasPaidOrder(w: World, a: AttemptId)
    requires Inv(w) && a < |w.db.attempts| && w.db.attempts[a].status == Succeeded
    ensures a in w.db.orderOfAttempt && w.db.orderOfAttempt[a] < |w.db.orders|
    ensures w.db.orders[w.db.orderOfAttempt[a]].paymentState == PaymentPaid
    ensures w.db.orders[w.db.orderOfAttempt[a]].userId == w.db.attempts[a].userId
    ensures w.db.attempts[a].userId.Some? ==> HasPaidOrder(w.db.orders, w.db.attempts[a].userId.value)
  {
    hide DraftsOk, CartsOk, CatalogueOk, OrdersOk, AttemptsOwned, KeysOk;
    assert CaseHolds(w, a);
  }

  lemma PaymentIsRemembered(w: World, w': World, u: UserId)
    requires Inv(w) && Inv(w') && DbEvolves(w.db, w'.db) && HasPaidOrder(w.db.orders, u)
    ensures HasPaidOrder(w'.db.orders, u)
  {
    hide Inv;
    var o :| 0 <= o < |w.db.orders| && w.db.orders[o].paymentState == PaymentPaid && w.db.orders[o].userId == Some(u);
    var a := PaidOrderHasAttempt(w, o);
    assert AttemptEvolves(w.db.attempts[a], w'.db.attempts[a]);
    SucceededHasPaidOrder(w', a);
  }

  lemma ClaimOfAttempt(w: World, a: AttemptId)
    requires Inv(w) && (a in w.db.claims || a < |w.db.attempts|)
    ensures a < |w.db.attempts|
    ensures a in w.db.claims <==> w.db.attempts[a].pricing.discountKind == FirstPurchase
    ensures a in w.db.claims ==>
      w.db.attempts[a].userId == Some(w.db.claims[a].userId)
      && w.db.claims[a].status == ClaimStatusFor(w.db.attempts[a].status)
  {
    hide DraftsOk, CartsOk, CatalogueOk, OrdersOk, AttemptsOwned, OrderIndexOk;
    assert CaseHolds(w, a);
    hide CaseInv;
    assert ClaimOk(CaseOf(w, a)) by { CaseClaim(CaseOf(w, a)); }
  }

  lemma CaseClaim(c: Case)
    requires CaseInv(c)
    ensures ClaimOk(c)
  {
  }

  /** A claim that is held after a step was held, by the same user, before it; if unspent, it was unspent. */
  lemma ClaimsOnlyLeave(w: World, w': World, a: AttemptId)
    requires Inv(w) && Inv(w') && DbEvolves(w.db, w'.db) && |w'.db.attempts| == |w.db.attempts|
    requires a in w'.db.claims && IsHeld(w'.db.claims[a].status)
    ensures a in w.db.claims && w.db.claims[a].userId == w'.db.claims[a].userId
    ensures IsHeld(w.db.claims[a].status)
    ensures w'.db.claims[a].status == Claimed ==> w.db.claims[a].status == Claimed
  {
    hide Inv;
    ClaimOfAttempt(w', a);
    ClaimOfAttempt(w, a);
    assert AttemptEvolves(w.db.attempts[a], w'.db.attempts[a]);
  }

  /** A user who still holds an unspent claim after a step has no paid order after it. */
  lemma UnspentMeansUnpaid(w: World, w': World, b: AttemptId)
    requires Inv(w) && Inv(w') && DbEvolves(w.db, w'.db) && |w'.db.attempts| == |w.db.attempts| && DiscountOk(w.db)
    requires b in w'.db.claims && w'.db.claims[b].status == Claimed
    ensures !HasPaidOrder(w'.db.orders, w'.db.claims[b].userId)
  {
    hide Inv;
    var u := w'.db.claims[b].userId;
    ClaimsOnlyLeave(w, w', b);
    if HasPaidOrder(w'.db.orders, u) {
      var o :|
        0 <= o < |w'.db.orders| && w'.db.orders[o].paymentState == PaymentPaid && w'.db.orders[o].userId == Some(u);
      var a := PaidOrderHasAttempt(w', o);
      NewPaymentSpendsClaim(w, w', a, u);
      ClaimOfAttempt(w', b);
    }
  }

  /** An attempt that succeeded since `w` held the user's one unspent claim, unless the user had paid before. */
  lemma NewPaymentSpendsClaim(w: World, w': World, a: AttemptId, u: UserId)
    requires Inv(w) && Inv(w') && DbEvolves(w.db, w'.db) && |w'.db.attempts| == |w.db.attempts| && DiscountOk(w.db)
    requires a < |w'.db.attempts| && w'.db.attempts[a].status == Succeeded && w'.db.attempts[a].userId == Some(u)
    ensures HasPaidOrder(w.db.orders, u)
         || (a in w.db.claims && w.db.claims[a].userId == u && w.db.claims[a].status == Claimed)
  {
    hide Inv;
    assert AttemptEvolves(w.db.attempts[a], w'.db.attempts[a]);
    if w.db.attempts[a].status == Succeeded {
      SucceededHasPaidOrder(w, a);
    } else {
      ClaimOfAttempt(w, a);
      assert FullPriceAfterPurchase(w.db.attempts[a], w.db.orders);
    }
  }

  lemma KeepsDiscount(w: World, w': World)
    requires Inv(w) && Inv(w') && DbEvolves(w.db, w'.db) && |w'.db.attempts| == |w.db.attempts| && DiscountOk(w.db)
    ensures DiscountOk(w'.db)
  {
    hide Inv;
    forall a, b | a in w'.db.claims && b in w'.db.claims && a != b && w'.db.claims[a].userId == w'.db.claims[b].userId
      ensures !(IsHeld(w'.db.claims[a].status) && IsHeld(w'.db.claims[b].status))
    {
      if IsHeld(w'.db.claims[a].status) && IsHeld(w'.db.claims[b].status) {
        ClaimsOnlyLeave(w, w', a);
        ClaimsOnlyLeave(w, w', b);
      }
    }
    forall a | 0 <= a < |w'.db.attempts| ensures FullPriceAfterPurchase(w'.db.attempts[a], w'.db.orders) {
      assert AttemptEvolves(w.db.attempts[a], w'.db.attempts[a]);
      assert FullPriceAfterPurchase(w.db.attempts[a], w.db.orders);
      if w.db.attempts[a].userId.Some? && w.db.attempts[a].pricing.discountKind == NoDiscount {
        PaymentIsRemembered(w, w', w.db.attempts[a].userId.value);
      }
    }
    forall b | b in w'.db.claims && w'.db.claims[b].status == Claimed
      ensures !HasPaidOrder(w'.db.orders, w'.db.claims[b].userId)
    {
      UnspentMeansUnpaid(w, w', b);
    }
  }

  // ----- A new attempt -----

  lemma ConsumedMeansPaid(w: World, u: UserId)
    requires Inv(w) && HasClaim(w.db.claims, u, Consumed)
    ensures HasPaidOrder(w.db.orders, u)
  {
    hide Inv;
    var a :| a in w.db.claims && w.db.claims[a].userId == u && w.db.claims[a].status == Consumed;
    ClaimOfAttempt(w, a);
    SucceededHasPaidOrder(w, a);
  }

  lemma PrepareKeepsDiscount(w: World, input: PrepareInput, now: Time)
    requires Inv(w) && DiscountOk(w.db) && Prepare(w.db, input, now).Ok?
    ensures DiscountOk(Prepare(w.db, input, now).value.db)
  {
    hide Inv, DiscountOk, Prepare, SealedAs;
    PrepareWrites(w.db, input, now);
    if FindAttempt(w.db.attempts, input.draftId, input.key).None? {
      SealKeepsDiscount(w, Prepare(w.db, input, now).value.db, input, now);
    }
  }

  lemma SealKeepsDiscount(w: World, db': Db, input: PrepareInput, now: Time)
    requires Inv(w) && DiscountOk(w.db) && SealedAs(w.db, db', input, now)
    ensures DiscountOk(db')
  {
    hide Inv;
    var n := |w.db.attempts|;
    if input.principal.Account? && HasClaim(w.db.claims, input.principal.userId, Consumed) {
      ConsumedMeansPaid(w, input.principal.userId);
    }
    NextAttemptHasNoClaim(w);
    forall a | 0 <= a < n ensures FullPriceAfterPurchase(db'.attempts[a], db'.orders) {
      assert db'.attempts[a] == db'.attempts[..n][a];
    }
  }

  // ----- Every reachable world -----

  lemma KeepsDiscountStep(w: World, step: Step)
    requires Inv(w) && DiscountOk(w.db)
    ensures DiscountOk(Next(w, step).db)
  {
    hide Inv, DiscountOk, DbEvolves, Prepare;
    if step.PrepareStep? {
      if Prepare(w.db, step.input, step.now).Ok? { PrepareKeepsDiscount(w, step.input, step.now); }
    } else {
      hide Next;
      KeepsStep(w, step);
      NextAttemptHasNoClaim(w);
      StepEvolves(w, step);
      OnlyPrepareAddsAttempts(w, step);
      KeepsDiscount(w, Next(w, step));
    }
  }

  lemma {:induction false} RunKeepsDiscount(w: World, steps: seq<Step>)
    requires Inv(w) && DiscountOk(w.db)
    ensures DiscountOk(Run(w, steps).db)
    decreases |steps|
  {
    hide Inv, DiscountOk, Next;
    if steps != [] {
      KeepsStep(w, steps[0]);
      KeepsDiscountStep(w, steps[0]);
      RunKeepsDiscount(Next(w, steps[0]), steps[1..]);
    }
  }

  lemma ReachableDiscount(w: World)
    requires Reachable(w)
    ensures DiscountOk(w.db)
  {
    hide Next, Inv;
    var steps :| w == Run(INITIAL, steps);
    InitialHolds();
    assert DiscountOk(INITIAL.db);
    RunKeepsDiscount(INITIAL, steps);
  }

  /** Each user holds or has spent at most one claim, and a claim's status is a function of its attempt's. */
  lemma OneDiscountPerUser(w: World, a: AttemptId, b: AttemptId)
    requires Reachable(w) && a in w.db.claims && b in w.db.claims
    ensures a < |w.db.attempts| && w.db.claims[a].status == ClaimStatusFor(w.db.attempts[a].status)
    ensures w.db.attempts[a].userId == Some(w.db.claims[a].userId)
    ensures w.db.claims[a].userId == w.db.claims[b].userId && a != b ==>
      !(IsHeld(w.db.claims[a].status) && IsHeld(w.db.claims[b].status))
    ensures w.db.claims[a].status == Claimed ==> !HasPaidOrder(w.db.orders, w.db.claims[a].userId)
  {
    hide Inv, Reachable, Next;
    ReachableHolds(w);
    ReachableDiscount(w);
    ClaimOfAttempt(w, a);
  }

  predicate IsPaidBy(orders: seq<Order>, o: nat, u: UserId) {
    o < |orders| && orders[o].paymentState == PaymentPaid && orders[o].userId == Some(u)
  }

  /** When a discounted order of a user becomes paid, no order of that user was paid before. */
  lemma DiscountedOrderIsFirst(w: World, step: Step, o: nat, u: UserId)
    requires Reachable(w)
    requires IsPaidBy(Next(w, step).db.orders, o, u) && !IsPaidBy(w.db.orders, o, u)
    requires Next(w, step).db.orders[o].pricing.discountKind == FirstPurchase
    ensures !HasPaidOrder(w.db.orders, u)
  {
    hide Inv, Reachable, DbEvolves;
    ReachableHolds(w);
    ReachableDiscount(w);
    KeepsStep(w, step);
    var w' := Next(w, step);
    var a := PaidOrderHasAttempt(w', o);
    if step.PrepareStep? {
      PrepareLeavesOrders(w, step.input, step.now);
      assert false;
    } else {
      hide Next;
      NextAttemptHasNoClaim(w);
      StepEvolves(w, step);
      OnlyPrepareAddsAttempts(w, step);
      DiscountedPaymentIsFirst(w, w', a, o, u);
    }
  }

  lemma PrepareLeavesOrders(w: World, input: PrepareInput, now: Time)
    ensures Next(w, PrepareStep(input, now)).db.orders == w.db.orders
  {
    hide SealLines, CartByProduct, CartProductsExist, CanClaimFirstPurchase, VerifyCapability, FindAttempt;
  }

  lemma DiscountedPaymentIsFirst(w: World, w': World, a: AttemptId, o: nat, u: UserId)
    requires Inv(w) && Inv(w') && DbEvolves(w.db, w'.db) && |w'.db.attempts| == |w.db.attempts| && DiscountOk(w.db)
    requires a < |w'.db.attempts| && w'.db.attempts[a].status == Succeeded && w'.db.attempts[a].userId == Some(u)
    requires w'.db.attempts[a].pricing.discountKind == FirstPurchase
    requires a in w'.db.orderOfAttempt && w'.db.orderOfAttempt[a] == o && !IsPaidBy(w.db.orders, o, u)
    ensures !HasPaidOrder(w.db.orders, u)
  {
    hide Inv;
    assert AttemptEvolves(w.db.attempts[a], w'.db.attempts[a]);
    ClaimOfAttempt(w, a);
    if w.db.attempts[a].status == Succeeded {
      SucceededHasPaidOrder(w, a);
      SameOrderOfAttempt(w, w', a);
    }
  }

  lemma SameOrderOfAttempt(w: World, w': World, a: AttemptId)
    requires Inv(w) && Inv(w') && DbEvolves(w.db, w'.db) && a < |w.db.attempts| && a in w.db.orderOfAttempt
    ensures a in w'.db.orderOfAttempt && w'.db.orderOfAttempt[a] == w.db.orderOfAttempt[a]
  {
    hide TablesOk;
    assert CaseHolds(w, a) && CaseHolds(w', a);
    assert |w'.db.attempts| >= |w.db.attempts|;
    assert AllocationEvolves(Lookup(w.db.allocations, a), Lookup(w'.db.allocations, a));
  }

  /** Among the paid orders of one user at most one is discounted. */
  lemma OneDiscountedOrder(w: World, o: nat, p: nat, u: UserId)
    requires Reachable(w) && IsPaidBy(w.db.orders, o, u) && IsPaidBy(w.db.orders, p, u) && o != p
    ensures w.db.orders[o].pricing.discountKind == NoDiscount || w.db.orders[p].pricing.discountKind == NoDiscount
  {
    hide Inv, Reachable, Next;
    ReachableHolds(w);
    ReachableDiscount(w);
    var a := PaidOrderHasAttempt(w, o);
    var b := PaidOrderHasAttempt(w, p);
    ClaimOfAttempt(w, a);
    ClaimOfAttempt(w, b);
  }
}
