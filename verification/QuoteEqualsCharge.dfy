/** The number a customer is quoted is the number that is sealed, sent to the provider and charged. */
module QuoteEqualsCharge {
  import opened Basics
  import opened Money
  import opened Records
  import opened PaymentAttempts
  import opened CheckoutDrafts
  import opened StripePayments
  import opened Protocol
  import opened ProtocolSafety
  import opened ProtocolRuns
  import opened DiscountSafety

  // ----- Both folds are bounded sums of the same line totals -----

  predicate LineAvailable(products: map<ProductId, Product>, line: CartLine, now: Time) {
    CheckoutLineOutcome(Lookup(products, line.productId), line.amount, now) == Available
  }

  predicate LinesAvailable(products: map<ProductId, Product>, lines: seq<CartLine>, now: Time) {
    forall i :: 0 <= i < |lines| ==> LineAvailable(products, lines[i], now)
  }

  /** The price of one line; any number when it has none. */
  function LinePrice(products: map<ProductId, Product>, line: CartLine): int {
    if line.productId !in products then 0
    else
      var product := products[line.productId];
      match LineTotalMinor(product.priceMinor, line.amount, product.priceBasisAmount)
      case Ok(total) => total
      case Rejected(_) => 0
  }

  function LinePrices(products: map<ProductId, Product>, lines: seq<CartLine>): seq<int> {
    if lines == [] then [] else [LinePrice(products, lines[0])] + LinePrices(products, lines[1..])
  }

  lemma PriceIsNotNegative(products: map<ProductId, Product>, line: CartLine)
    ensures LinePrice(products, line) >= 0
  {
    if line.productId in products {
      var product := products[line.productId];
      if product.priceMinor >= 0 && ProportionalInput(product.priceMinor, line.amount, product.priceBasisAmount) {
        ProductNonNegative(product.priceMinor, line.amount);
        RoundHalfUpIsNearest(product.priceMinor * line.amount, product.priceBasisAmount);
      }
    }
  }

  lemma {:induction false} PricesAreNotNegative(products: map<ProductId, Product>, lines: seq<CartLine>)
    ensures forall i :: 0 <= i < |LinePrices(products, lines)| ==> LinePrices(products, lines)[i] >= 0
  {
    hide LinePrice;
    if lines != [] {
      PriceIsNotNegative(products, lines[0]);
      PricesAreNotNegative(products, lines[1..]);
    }
  }

  lemma AvailableLineHasPrice(products: map<ProductId, Product>, line: CartLine, now: Time)
    requires LineAvailable(products, line, now)
    ensures line.productId in products && products[line.productId].currency == EUR
    ensures LineTotalMinor(products[line.productId].priceMinor, line.amount, products[line.productId].priceBasisAmount)
         == Ok(LinePrice(products, line))
  {
    hide LineTotalMinor;
  }

  lemma {:induction false} SealIsBoundedSum(products: map<ProductId, Product>, lines: seq<CartLine>, now: Time,
                                            start: int)
    ensures SealLines(products, lines, now, start).Ok?
       <==> LinesAvailable(products, lines, now) && AddAll(start, LinePrices(products, lines)).Ok?
    ensures SealLines(products, lines, now, start).Ok? ==>
      SealLines(products, lines, now, start).value.subtotal == AddAll(start, LinePrices(products, lines)).value
    decreases |lines|
  {
    hide LineTotalMinor, LinePrice, CheckoutLineOutcome;
    if lines != [] {
      var prices := LinePrices(products, lines);
      assert prices[1..] == LinePrices(products, lines[1..]);
      if LineAvailable(products, lines[0], now) {
        AvailableLineHasPrice(products, lines[0], now);
        var sum := AddMoneyMinor(start, prices[0]);
        if sum.Ok? { SealIsBoundedSum(products, lines[1..], now, sum.value); }
        assert LinesAvailable(products, lines, now) <==> LinesAvailable(products, lines[1..], now);
      }
    }
  }

  lemma {:induction false} QuoteIsBoundedSum(products: map<ProductId, Product>, lines: seq<CartLine>, at: Time,
                                             start: Running)
    requires start.status == Ready
    ensures QuoteLines(products, lines, at, start).Ok? && QuoteLines(products, lines, at, start).value.status == Ready
       <==> LinesAvailable(products, lines, at) && AddAll(start.subtotal, LinePrices(products, lines)).Ok?
    ensures
      QuoteLines(products, lines, at, start).Ok? && QuoteLines(products, lines, at, start).value.status == Ready ==>
      QuoteLines(products, lines, at, start).value.subtotal == AddAll(start.subtotal, LinePrices(products, lines)).value
    decreases |lines|
  {
    hide LineTotalMinor, LinePrice, CheckoutLineOutcome;
    if lines != [] {
      var prices := LinePrices(products, lines);
      assert prices[1..] == LinePrices(products, lines[1..]);
      if LineAvailable(products, lines[0], at) {
        AvailableLineHasPrice(products, lines[0], at);
        assert LinesAvailable(products, lines, at) <==> LinesAvailable(products, lines[1..], at);
        var sum := AddMoneyMinor(start.subtotal, prices[0]);
        if sum.Ok? { QuoteIsBoundedSum(products, lines[1..], at, Running(sum.value, Ready)); }
      } else if lines[0].productId in products {
        var product := products[lines[0].productId];
        var total := LineTotalMinor(product.priceMinor, lines[0].amount, product.priceBasisAmount);
        if total.Ok? && AddMoneyMinor(start.subtotal, total.value).Ok? {
          var sum := AddMoneyMinor(start.subtotal, total.value).value;
          UnavailableStays(products, lines[1..], at, Running(sum, Unavailable));
        }
      }
    }
  }

  lemma {:induction false} UnavailableStays(products: map<ProductId, Product>, lines: seq<CartLine>, at: Time,
                                            start: Running)
    requires start.status == Unavailable
    ensures QuoteLines(products, lines, at, start).Ok? ==>
      QuoteLines(products, lines, at, start).value.status == Unavailable
    decreases |lines|
  {
    hide LineTotalMinor, CheckoutLineOutcome;
    if lines != [] && lines[0].productId in products {
      var product := products[lines[0].productId];
      var total := LineTotalMinor(product.priceMinor, lines[0].amount, product.priceBasisAmount);
      if total.Ok? && AddMoneyMinor(start.subtotal, total.value).Ok? {
        var sum := AddMoneyMinor(start.subtotal, total.value).value;
        UnavailableStays(products, lines[1..], at, Running(sum, Unavailable));
      }
    }
  }

  // ----- The order of the lines does not matter -----

  lemma {:induction false} PricesPermute(products: map<ProductId, Product>, xs: seq<CartLine>, ys: seq<CartLine>)
    requires multiset(xs) == multiset(ys)
    ensures multiset(LinePrices(products, xs)) == multiset(LinePrices(products, ys))
  {
    hide LinePrice;
    assert |multiset(xs)| == |multiset(ys)|;
    if xs != [] {
      var i := MatchHead(xs, ys);
      PricesPermute(products, xs[1..], ys[..i] + ys[i + 1..]);
      PricesOfParts(products, ys[..i], [ys[i]] + ys[i + 1..]);
      PricesOfParts(products, ys[..i], ys[i + 1..]);
      assert ([ys[i]] + ys[i + 1..])[1..] == ys[i + 1..];
    }
  }

  lemma {:induction false} PricesOfParts(products: map<ProductId, Product>, xs: seq<CartLine>, ys: seq<CartLine>)
    ensures LinePrices(products, xs + ys) == LinePrices(products, xs) + LinePrices(products, ys)
  {
    hide LinePrice;
    if xs == [] {
      assert xs + ys == ys;
    } else {
      assert (xs + ys)[1..] == xs[1..] + ys;
      PricesOfParts(products, xs[1..], ys);
    }
  }

  lemma SameSumInEitherOrder(products: map<ProductId, Product>, items: seq<CartLine>, now: Time)
    ensures AddAll(0, LinePrices(products, CartByProduct(items))) == AddAll(0, LinePrices(products, items))
    ensures LinesAvailable(products, CartByProduct(items), now) <==> LinesAvailable(products, items, now)
    ensures CartByProduct(items) == [] <==> items == []
  {
    hide LinePrice, LineAvailable;
    var sorted := CartByProduct(items);
    SortByIsSortedPermutation(items, CartLineKey);
    PricesPermute(products, items, sorted);
    PricesAreNotNegative(products, items);
    SubtotalIgnoresLineOrder(LinePrices(products, items), LinePrices(products, sorted));
    if LinesAvailable(products, items, now) {
      forall i | 0 <= i < |sorted| ensures LineAvailable(products, sorted[i], now) {
        assert sorted[i] in multiset(items);
      }
    }
    if LinesAvailable(products, sorted, now) {
      forall i | 0 <= i < |items| ensures LineAvailable(products, items[i], now) {
        assert items[i] in multiset(sorted);
      }
    }
  }

  // ----- The preview and the gate of the discount -----

  predicate MayPrepare(db: Db, input: PrepareInput, now: Time) {
    && input.draftId in db.drafts && db.drafts[input.draftId].cartId == input.cartId && input.cartId in db.carts
    && (input.principal.Account? ==> input.principal.userId in db.activeUsers)
    && db.drafts[input.draftId].userId == Owner(input.principal)
    && db.carts[input.cartId].userId == Owner(input.principal)
    && (input.principal.Guest? ==> VerifyCapability(input.capability, db.drafts[input.draftId].capability, now))
    && db.drafts[input.draftId].checkout.paymentMethod == StripeDebitCard
    && FindAttempt(db.attempts, input.draftId, input.key).None?
  }

  /** An open attempt of this account holds the discount: of another checkout, or an earlier one of this very draft. */
  predicate ClaimIsHeld(db: Db, principal: Principal) {
    principal.Account? && HasClaim(db.claims, principal.userId, Claimed)
  }

  function Gate(db: Db, principal: Principal): Outcome<bool> {
    if principal.Account? then CanClaimFirstPurchase(db, principal.userId) else Ok(false)
  }

  lemma PreviewIsGate(w: World, draft: Draft, principal: Principal)
    requires Reachable(w)
    requires draft.userId == Owner(principal) && draft.checkout.paymentMethod == StripeDebitCard
    ensures Gate(w.db, principal).Ok? <==> !ClaimIsHeld(w.db, principal)
    ensures !ClaimIsHeld(w.db, principal) ==> Gate(w.db, principal) == Ok(PreviewDiscount(w.db, draft))
  {
    hide Inv, Reachable, Next;
    ReachableHolds(w);
    ReachableDiscount(w);
    if principal.Account? {
      var u := principal.userId;
      if HasClaim(w.db.claims, u, Claimed) {
        var a :| a in w.db.claims && w.db.claims[a].userId == u && w.db.claims[a].status == Claimed;
        if HasClaim(w.db.claims, u, Consumed) { ConsumedMeansPaid(w, u); }
      }
    }
  }

  lemma NothingHeldForDraft(db: Db, id: DraftId, u: UserId)
    requires !HasClaim(db.claims, u, Claimed)
    requires forall a :: a in db.claims && a < |db.attempts| ==> db.attempts[a].userId == Some(db.claims[a].userId)
    ensures FindHeldAttempt(db, id, u, |db.attempts|).None?
  {
  }

  lemma ClaimsMatchOwners(w: World)
    requires Inv(w)
    ensures forall a :: a in w.db.claims && a < |w.db.attempts| ==>
      w.db.attempts[a].userId == Some(w.db.claims[a].userId)
  {
    hide Inv;
    forall a | a in w.db.claims && a < |w.db.attempts| ensures w.db.attempts[a].userId == Some(w.db.claims[a].userId) {
      ClaimOfAttempt(w, a);
    }
  }

  /** What a non-empty cart of available lines costs, if the sums fit. */
  function CartPricing(products: map<ProductId, Product>, items: seq<CartLine>, now: Time, applyDiscount: bool)
    : Outcome<Pricing>
  {
    if items == [] || !LinesAvailable(products, items, now) then Rejected(QuoteUnavailable)
    else match AddAll(0, LinePrices(products, items))
      case Rejected(e) => Rejected(e)
      case Ok(subtotal) => CheckoutPricing(subtotal, applyDiscount)
  }

  lemma SealIsCartPricing(db: Db, input: PrepareInput, draft: Draft, hash: AttemptFingerprint, now: Time)
    requires draft.cartId in db.carts
    ensures var r := SealAttempt(db, input, draft, hash, now);
            var gate := Gate(db, input.principal);
            && (r.Ok? <==> gate.Ok? && CartPricing(db.products, db.carts[draft.cartId].items, now, gate.value).Ok?)
            && (r.Ok? ==>
                  && |r.value.db.attempts| == |db.attempts| + 1
                  && CartPricing(db.products, db.carts[draft.cartId].items, now, gate.value)
                       == Ok(r.value.db.attempts[|db.attempts|].pricing))
  {
    hide CheckoutPricing, SealLines, CartByProduct, AddAll, LinePrices, LinesAvailable, CartProductsExist;
    hide CanClaimFirstPurchase;
    var items := db.carts[draft.cartId].items;
    AvailableLinesExist(db.products, CartByProduct(items), now);
    SealIsBoundedSum(db.products, CartByProduct(items), now, 0);
    SameSumInEitherOrder(db.products, items, now);
  }

  /**
   * In one database at one time, a permitted request creates an attempt exactly when the draft quotes `ready` and no
   * open attempt of the account holds the discount; what it seals is then the quote, to the cent.
   */
  lemma QuoteIsWhatIsSealed(w: World, input: PrepareInput, now: Time)
    requires Reachable(w) && MayPrepare(w.db, input, now)
    ensures var quote := CurrentQuote(w.db, input.draftId, w.db.drafts[input.draftId], now);
            && (Prepare(w.db, input, now).Ok? <==>
                  !ClaimIsHeld(w.db, input.principal) && quote.Ok? && quote.value.status == Ready)
            && (Prepare(w.db, input, now).Ok? ==>
                  && |Prepare(w.db, input, now).value.db.attempts| == |w.db.attempts| + 1
                  && var attempt := Prepare(w.db, input, now).value.db.attempts[|w.db.attempts|];
                     quote == Ok(Quote(attempt.pricing, Ready, now)))
  {
    hide Inv, Reachable, Next, CanClaimFirstPurchase, PreviewDiscount, HasClaim, SealAttempt, Gate;
    hide CheckoutPricing, QuoteLines, AddAll, LinePrices, LinesAvailable;
    var draft := w.db.drafts[input.draftId];
    PreviewIsGate(w, draft, input.principal);
    ReachableHolds(w);
    var hash := AttemptFingerprint(input.draftId, draft.version, Owner(input.principal));
    SealIsCartPricing(w.db, input, draft, hash, now);
    var items := w.db.carts[draft.cartId].items;
    if items == [] {
      QuoteOfNothing(w.db.products, now);
    } else {
      QuoteIsBoundedSum(w.db.products, items, now, Running(0, Ready));
    }
    if input.principal.Account? && !ClaimIsHeld(w.db, input.principal) {
      ClaimsMatchOwners(w);
      NothingHeldForDraft(w.db, input.draftId, input.principal.userId);
    }
  }

  lemma QuoteOfNothing(products: map<ProductId, Product>, at: Time)
    ensures QuoteLines(products, [], at, Running(0, Empty)) == Ok(Running(0, Empty))
  {
  }

  lemma AvailableLinesExist(products: map<ProductId, Product>, lines: seq<CartLine>, now: Time)
    ensures LinesAvailable(products, lines, now) ==> CartProductsExist(products, lines)
  {
    forall i | 0 <= i < |lines| && LinesAvailable(products, lines, now) ensures lines[i].productId in products {
      assert LineAvailable(products, lines[i], now);
    }
  }

  // ----- While a claim is held, the draft shows the sealed numbers -----

  lemma HeldQuoteIsSealed(w: World, id: DraftId, a: AttemptId, now: Time)
    requires Reachable(w) && id in w.db.drafts && w.db.drafts[id].cartId in w.db.carts
    requires a < |w.db.attempts| && w.db.attempts[a].draftId == id && w.db.attempts[a].userId == w.db.drafts[id].userId
    requires a in w.db.claims && w.db.claims[a].status == Claimed
    ensures CurrentQuote(w.db, id, w.db.drafts[id], now)
         == Ok(Quote(w.db.attempts[a].pricing, Ready, w.db.attempts[a].quotedAt))
  {
    hide Inv, Reachable, Next, BuildQuote, PreviewDiscount;
    ReachableHolds(w);
    ReachableDiscount(w);
    ClaimOfAttempt(w, a);
    var u := w.db.drafts[id].userId.value;
    var held := FindHeldAttempt(w.db, id, u, |w.db.attempts|);
    assert HoldsClaim(w.db, a, id);
    assert held.Some?;
    ClaimOfAttempt(w, held.value);
    AttemptIsSealed(w, a);
  }

  /** What the customer is then shown, in every reachable world: the sealed numbers, as of the time they were sealed. */
  lemma HeldDraftShowsSealed(w: World, access: CartAccess, raw: Option<Capability>, id: DraftId, a: AttemptId,
                             now: Time)
    requires Reachable(w) && CartOpen(w.db, access, now) && ExistingDraft(w.db, access.cartId) == Some(id)
    requires HasAccess(w.db.drafts[id], access, raw, now)
    requires a < |w.db.attempts| && w.db.attempts[a].draftId == id && w.db.attempts[a].userId == w.db.drafts[id].userId
    requires a in w.db.claims && w.db.claims[a].status == Claimed
    ensures GetDraft(w.db, access, raw, now)
         == Ok(ViewOf(id, w.db.drafts[id], Quote(w.db.attempts[a].pricing, Ready, w.db.attempts[a].quotedAt)))
  {
    hide Inv, Reachable, CartOpen, HasAccess, CurrentQuote, CasesOk;
    ReachableHolds(w);
    DraftCartExists(w, id);
    HeldQuoteIsSealed(w, id, a, now);
  }

  lemma DraftCartExists(w: World, id: DraftId)
    requires Inv(w) && id in w.db.drafts
    ensures w.db.drafts[id].cartId in w.db.carts
  {
    hide CasesOk, KeysOk, OrderIndexOk, AttemptsOwned, CartsOk, CatalogueOk, OrdersOk;
  }

  lemma AttemptIsSealed(w: World, a: AttemptId)
    requires Inv(w) && a < |w.db.attempts|
    ensures w.db.attempts[a].currency == EUR
    ensures w.db.attempts[a].requestHash
         == AttemptFingerprint(w.db.attempts[a].draftId, w.db.attempts[a].draftVersion, w.db.attempts[a].userId)
    ensures SessionLineItems(w.db.attempts[a])[0] + SessionLineItems(w.db.attempts[a])[1]
         == w.db.attempts[a].pricing.totalMinor
  {
    hide TablesOk;
    assert CaseHolds(w, a);
  }

  /** The provider's line items add up to the sealed total, and that is what it captures, and the order's total. */
  lemma ProviderChargesTheTotal(w: World, a: AttemptId)
    requires Reachable(w) && a < |w.db.attempts|
    ensures SessionLineItems(w.db.attempts[a])[0] + SessionLineItems(w.db.attempts[a])[1]
         == w.db.attempts[a].pricing.totalMinor
    ensures a in w.provider.sessions ==> w.provider.sessions[a].amount == w.db.attempts[a].pricing.totalMinor
    ensures a in w.provider.sessions && a in w.provider.intents ==>
      IntentEcho(w.provider.sessions[a], w.provider.intents[a], a, IntentSucceeded).amountReceived
        == w.db.attempts[a].pricing.totalMinor
    ensures a in w.db.orderOfAttempt && w.db.orderOfAttempt[a] < |w.db.orders| ==>
      w.db.orders[w.db.orderOfAttempt[a]].pricing == w.db.attempts[a].pricing
  {
    hide TablesOk, Reachable, Next;
    ReachableHolds(w);
    AttemptIsSealed(w, a);
    assert CaseHolds(w, a);
  }

  // ----- Resuming -----

  /**
   * A repeated request resumes the attempt stored under its key exactly when the draft still has the version and the
   * owner the attempt was sealed with; otherwise it conflicts. It never changes anything.
   */
  lemma ResumeOnlyUnchanged(w: World, input: PrepareInput, now: Time, a: AttemptId)
    requires Reachable(w)
    requires input.draftId in w.db.drafts && w.db.drafts[input.draftId].cartId == input.cartId
    requires input.cartId in w.db.carts
    requires input.principal.Account? ==> input.principal.userId in w.db.activeUsers
    requires w.db.drafts[input.draftId].userId == Owner(input.principal)
    requires w.db.carts[input.cartId].userId == Owner(input.principal)
    requires input.principal.Guest? ==> VerifyCapability(input.capability, w.db.drafts[input.draftId].capability, now)
    requires w.db.drafts[input.draftId].checkout.paymentMethod == StripeDebitCard
    requires FindAttempt(w.db.attempts, input.draftId, input.key) == Some(a)
    ensures Prepare(w.db, input, now)
         == if w.db.attempts[a].draftVersion == w.db.drafts[input.draftId].version
               && w.db.attempts[a].userId == w.db.drafts[input.draftId].userId
            then Ok(WithId(w.db, a)) else Rejected(IdempotencyConflict)
  {
    hide Inv, Reachable, Next, SealAttempt, VerifyCapability;
    ReachableHolds(w);
    AttemptIsSealed(w, a);
  }
}
