/** A concrete run after which an account's draft quotes `ready` and can still not be prepared again. */
module HeldDiscount {
  import opened Basics
  import opened Money
  import opened Records
  import opened PaymentAttempts
  import opened CheckoutDrafts
  import opened Protocol
  import opened CaptureSafety
  import opened Reconciliation
  import opened QuoteEqualsCharge
  import opened LateEvents

  const USER: UserId := 5
  const OWN_CART := CART.(userId := Some(USER))
  const OWN_ACCESS := AccountCart(0, USER)
  const DISCOUNTED := Pricing(FirstPurchase, 600, 6, 100, 500, 594)
  const OWN_DRAFT := Draft(0, Some(USER), 1, CHECKOUT, None, 0, 0)
  const OWN_VIEW := DraftView(Quote(DISCOUNTED, Ready, 0), CHECKOUT, None, 0, 0)

  const SIGNED_IN := EMPTY_DB.(activeUsers := {USER})
  const OWN_STOCKED := SIGNED_IN.(products := map[0 := PRODUCT])
  const OWN_FILLED := OWN_STOCKED.(carts := map[0 := OWN_CART])
  const OWN_DRAFTED := OWN_FILLED.(
    drafts := map[0 := OWN_DRAFT], draftOfCart := map[0 := 0],
    draftRequests := map[(0, 1) := DraftRequest(DraftFingerprint(0, Some(USER), CHECKOUT), OWN_VIEW)])

  const SIGN_IN: Step := SetActiveUsers({USER})
  const SAVE_OWN: Step := SaveDraftStep(OWN_ACCESS, None, 1, CHECKOUT, 0, 0)

  function Keyed(key: Key): PrepareInput { PrepareInput(0, 0, None, key, Account(USER)) }

  lemma DiscountedQuote()
    ensures BuildQuote(map[0 := PRODUCT], [CartLine(0, 1)], 0, true) == Ok(Quote(DISCOUNTED, Ready, 0))
  {
    hide LineTotalMinor, IsValidOrderAmount, QuoteLines, CheckoutPricing;
    SampleLines();
    assert CheckoutPricing(100, true) == Ok(DISCOUNTED) by { DiscountedPrice(); }
  }

  lemma DiscountedPrice()
    ensures CheckoutPricing(100, true) == Ok(DISCOUNTED)
  {
  }

  lemma OwnSave()
    ensures SaveDraft(OWN_FILLED, OWN_ACCESS, None, 1, CHECKOUT, 0, 0) == Ok(Saved(OWN_DRAFTED, OWN_VIEW, None))
  {
    hide BuildQuote;
    DiscountedQuote();
    assert PreviewDiscount(OWN_FILLED, OWN_DRAFT);
  }

  lemma SignedIn()
    ensures Next(INITIAL, SIGN_IN) == World(SIGNED_IN, NO_PROVIDER, map[])
  {
  }

  lemma OwnShop()
    ensures Next(World(SIGNED_IN, NO_PROVIDER, map[]), EditProduct(PRODUCT_ID, PRODUCT)) == At(OWN_STOCKED, NO_PROVIDER)
    ensures Next(At(OWN_STOCKED, NO_PROVIDER), EditCart(CART_ID, OWN_CART)) == At(OWN_FILLED, NO_PROVIDER)
  {
  }

  lemma OwnDraftIsReachable()
    ensures Reachable(At(OWN_DRAFTED, NO_PROVIDER))
  {
    hide SaveDraft;
    SignedIn();
    OwnShop();
    OwnSave();
    assert Next(At(OWN_FILLED, NO_PROVIDER), SAVE_OWN) == At(OWN_DRAFTED, NO_PROVIDER);
    hide Next;
    var opening, shopping := [SIGN_IN, EditProduct(PRODUCT_ID, PRODUCT)], [EditCart(CART_ID, OWN_CART), SAVE_OWN];
    TwoSteps(INITIAL, SIGN_IN, EditProduct(PRODUCT_ID, PRODUCT));
    TwoSteps(At(OWN_STOCKED, NO_PROVIDER), EditCart(CART_ID, OWN_CART), SAVE_OWN);
    RunAppend(INITIAL, opening, shopping);
    assert Run(INITIAL, opening + shopping) == At(OWN_DRAFTED, NO_PROVIDER);
  }

  lemma FirstMayPrepare()
    ensures MayPrepare(OWN_DRAFTED, Keyed(9), 0) && !ClaimIsHeld(OWN_DRAFTED, Account(USER))
    ensures CurrentQuote(OWN_DRAFTED, 0, OWN_DRAFT, 0) == Ok(Quote(DISCOUNTED, Ready, 0))
    ensures CanClaimFirstPurchase(OWN_DRAFTED, USER) == Ok(true)
  {
    hide BuildQuote;
    DiscountedQuote();
    assert FindAttempt([], 0, 9).None?;
    assert PreviewDiscount(OWN_DRAFTED, OWN_DRAFT);
  }

  lemma FirstIsPrepared()
    ensures Prepare(OWN_DRAFTED, Keyed(9), 0).Ok?
    ensures var db := Prepare(OWN_DRAFTED, Keyed(9), 0).value.db;
            && |db.attempts| == 1 && db.attempts[0].draftId == 0 && db.attempts[0].key == 9
            && db.attempts[0].userId == Some(USER)
            && 0 in db.claims && db.claims[0].userId == USER && db.claims[0].status == Claimed
            && db == OWN_DRAFTED.(attempts := db.attempts, claims := db.claims)
  {
    hide MayPrepare, ClaimIsHeld, CurrentQuote, CanClaimFirstPurchase, Reachable;
    OwnDraftIsReachable();
    FirstMayPrepare();
    QuoteIsWhatIsSealed(At(OWN_DRAFTED, NO_PROVIDER), Keyed(9), 0);
    PrepareWrites(OWN_DRAFTED, Keyed(9), 0);
  }

  /**
   * The account's own attempt holds the discount: its draft goes on quoting `ready`, at the sealed prices, the request
   * is permitted, and under another key `prepare` still refuses.
   */
  lemma ReadyQuoteCanBeRefused() returns (w: World, input: PrepareInput)
    ensures Reachable(w) && MayPrepare(w.db, input, 0)
    ensures |w.db.attempts| == 1 && w.db.attempts[0].draftId == input.draftId
    ensures CurrentQuote(w.db, input.draftId, w.db.drafts[input.draftId], 0).Ok?
    ensures CurrentQuote(w.db, input.draftId, w.db.drafts[input.draftId], 0).value.status == Ready
    ensures Prepare(w.db, input, 0).Rejected?
  {
    hide Prepare, Reachable, CurrentQuote;
    OwnDraftIsReachable();
    FirstIsPrepared();
    var step := PrepareStep(Keyed(9), 0);
    CommittedStep(Keyed(9));
    OneStep(At(OWN_DRAFTED, NO_PROVIDER), step);
    ReachableOn(At(OWN_DRAFTED, NO_PROVIDER), [step]);
    w, input := Run(At(OWN_DRAFTED, NO_PROVIDER), [step]), Keyed(10);
    hide Next, Run;
    HeldQuoteIsSealed(w, 0, 0, 0);
    assert ClaimIsHeld(w.db, Account(USER));
    QuoteIsWhatIsSealed(w, input, 0);
  }

  lemma CommittedStep(input: PrepareInput)
    requires Prepare(OWN_DRAFTED, input, 0).Ok?
    ensures Next(At(OWN_DRAFTED, NO_PROVIDER), PrepareStep(input, 0))
         == At(Prepare(OWN_DRAFTED, input, 0).value.db, NO_PROVIDER)
  {
    hide Prepare;
  }
}
