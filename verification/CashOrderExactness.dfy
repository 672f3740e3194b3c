/** A cash order is placed exactly for what is in the cart, and only once. */
module CashOrderExactness {
  import opened Basics
  import opened Money
  import opened Records
  import opened PaymentAttempts
  import opened CashOrders
  import opened Protocol
  import opened ProtocolSafety
  import opened ProtocolRuns
  import opened Reconciliation
  import opened QuoteEqualsCharge
  import opened Evolution
  import opened CaptureSafety

  // ----- Counting submitted slugs -----

  lemma {:induction false} CountOfAbsent(items: seq<Item>, slug: Slug)
    requires forall i :: 0 <= i < |items| ==> items[i].slug != slug
    ensures RequestCount(items, slug) == 0
  {
    if items != [] { CountOfAbsent(items[..|items| - 1], slug); }
  }

  lemma {:induction false} CountIsPositive(items: seq<Item>, slug: Slug)
    ensures RequestCount(items, slug) > 0 <==> exists i :: 0 <= i < |items| && items[i].slug == slug
  {
    if items != [] {
      var last := |items| - 1;
      CountIsPositive(items[..last], slug);
      if items[last].slug == slug {
      } else if exists i :: 0 <= i < |items| && items[i].slug == slug {
        var i :| 0 <= i < |items| && items[i].slug == slug;
        assert items[..last][i].slug == slug;
      }
    }
  }

  /** A slug counted once is at one place only, and its amount is the one that was submitted. */
  lemma {:induction false} CountedOnce(items: seq<Item>, slug: Slug)
    requires RequestCount(items, slug) == 1
    ensures RequestedAmount(items, slug).Some?
    ensures multiset(items)[Item(slug, RequestedAmount(items, slug).value)] == 1
    ensures forall i :: 0 <= i < |items| && items[i].slug == slug ==>
      items[i].amount == RequestedAmount(items, slug).value
  {
    var last := |items| - 1;
    assert items == items[..last] + [items[last]];
    if items[last].slug == slug {
      forall i | 0 <= i < last ensures items[i].slug != slug {
        if items[i].slug == slug {
          assert items[..last][i].slug == slug;
          CountIsPositive(items[..last], slug);
        }
      }
      assert items[last] !in items[..last];
    } else {
      CountedOnce(items[..last], slug);
      forall i | 0 <= i < |items| && items[i].slug == slug
        ensures items[i].amount == RequestedAmount(items, slug).value
      {
        assert items[i] == items[..last][i];
      }
    }
  }

  lemma {:induction false} DistinctCountsAtMostOnce(items: seq<Item>, slug: Slug)
    requires DistinctBy(items, ItemKey)
    ensures RequestCount(items, slug) <= 1
  {
    if items != [] {
      var last := |items| - 1;
      DistinctCountsAtMostOnce(items[..last], slug);
      if items[last].slug == slug {
        forall i | 0 <= i < last ensures items[..last][i].slug != slug {
          assert ItemKey(items[i]) != ItemKey(items[last]);
        }
        CountOfAbsent(items[..last], slug);
      }
    }
  }

  // ----- The cart as slugs and amounts -----

  function CartItems(products: map<ProductId, Product>, lines: seq<CartLine>): seq<Item>
    requires CartProductsExist(products, lines)
  {
    seq(|lines|, i requires 0 <= i < |lines| => Item(products[lines[i].productId].slug, lines[i].amount))
  }

  lemma CartItemsAreDistinct(products: map<ProductId, Product>, lines: seq<CartLine>)
    requires CatalogueOk(products) && ValidCartLines(products, lines) && CartProductsExist(products, lines)
    ensures DistinctBy(CartItems(products, lines), ItemKey)
  {
    var items := CartItems(products, lines);
    forall i, j | 0 <= i < j < |items| ensures ItemKey(items[i]) != ItemKey(items[j]) {
      assert lines[i].productId != lines[j].productId;
    }
  }

  /** Every cart line is submitted once with its amount, and nothing else is submitted. */
  predicate Matches(cart: seq<Item>, items: seq<Item>) {
    && (forall i :: 0 <= i < |cart| ==>
          RequestCount(items, cart[i].slug) == 1 && RequestedAmount(items, cart[i].slug) == Some(cart[i].amount))
    && (forall j :: 0 <= j < |items| ==> exists i :: 0 <= i < |cart| && cart[i].slug == items[j].slug)
  }

  lemma MatchesOnlyEqual(cart: seq<Item>, items: seq<Item>)
    requires DistinctBy(cart, ItemKey) && Matches(cart, items)
    ensures multiset(items) == multiset(cart)
  {
    forall x: Item ensures multiset(items)[x] == multiset(cart)[x] {
      if x in cart {
        var i :| 0 <= i < |cart| && cart[i] == x;
        OccursOnce(cart, i, ItemKey);
        CountedOnce(items, x.slug);
      } else if x in items {
        var j :| 0 <= j < |items| && items[j] == x;
        var i :| 0 <= i < |cart| && cart[i].slug == items[j].slug;
        CountedOnce(items, x.slug);
      }
    }
  }

  lemma EqualMatches(cart: seq<Item>, items: seq<Item>)
    requires DistinctBy(cart, ItemKey) && multiset(items) == multiset(cart)
    ensures Matches(cart, items)
  {
    DistinctByPermutation(cart, items, ItemKey);
    forall i | 0 <= i < |cart|
      ensures RequestCount(items, cart[i].slug) == 1 && RequestedAmount(items, cart[i].slug) == Some(cart[i].amount)
    {
      assert cart[i] in multiset(items);
      var j :| 0 <= j < |items| && items[j] == cart[i];
      CountIsPositive(items, cart[i].slug);
      DistinctCountsAtMostOnce(items, cart[i].slug);
      CountedOnce(items, cart[i].slug);
    }
    forall j | 0 <= j < |items| ensures exists i :: 0 <= i < |cart| && cart[i].slug == items[j].slug {
      assert items[j] in multiset(cart);
      var i :| 0 <= i < |cart| && cart[i] == items[j];
    }
  }

  // ----- The report -----

  lemma {:induction false} ReportLinesAt(products: map<ProductId, Product>, lines: seq<CartLine>, items: seq<Item>,
                                         now: Time)
    requires CartProductsExist(products, lines)
    ensures EveryAvailable(ReportLines(products, lines, items, now))
       <==> forall i :: 0 <= i < |lines| ==> ReportLine(products, lines[i], items, now).outcome == Available
  {
    hide ReportLine;
    if lines != [] {
      ReportLinesAt(products, lines[1..], items, now);
      var reports := ReportLines(products, lines, items, now);
      assert reports[1..] == ReportLines(products, lines[1..], items, now);
      if EveryAvailable(reports) {
        assert EveryAvailable(reports[1..]);
        assert reports[0].outcome == Available;
        forall i | 0 <= i < |lines| ensures ReportLine(products, lines[i], items, now).outcome == Available {
          if i > 0 { assert lines[i] == lines[1..][i - 1]; }
        }
      } else {
        var k :| 0 <= k < |reports| && reports[k].outcome != Available;
        if k > 0 { assert reports[1..][k - 1].outcome != Available; }
      }
    }
  }

  lemma {:induction false} ReportStrangersAt(products: map<ProductId, Product>, lines: seq<CartLine>, items: seq<Item>)
    requires CartProductsExist(products, lines)
    ensures EveryAvailable(ReportStrangers(products, lines, items))
       <==> forall j :: 0 <= j < |items| ==> InCart(products, lines, items[j].slug)
  {
    hide InCart;
    if items != [] {
      ReportStrangersAt(products, lines, items[1..]);
      var rest := ReportStrangers(products, lines, items[1..]);
      if InCart(products, lines, items[0].slug) {
        assert ReportStrangers(products, lines, items) == rest;
      } else {
        assert ReportStrangers(products, lines, items)[0].outcome == InvalidAmount;
      }
      assert forall j :: 1 <= j < |items| ==> items[j] == items[1..][j - 1];
    }
  }

  lemma LineReportIsMatch(products: map<ProductId, Product>, line: CartLine, items: seq<Item>, now: Time)
    requires line.productId in products
    ensures ReportLine(products, line, items, now).outcome == Available
       <==> && RequestCount(items, products[line.productId].slug) == 1
            && RequestedAmount(items, products[line.productId].slug) == Some(line.amount)
            && LineAvailable(products, line, now)
  {
    hide CheckoutLineOutcome;
    if RequestCount(items, products[line.productId].slug) == 1 { CountedOnce(items, products[line.productId].slug); }
  }

  lemma ReportsPermute(xs: seq<LineReport>, ys: seq<LineReport>)
    requires multiset(xs) == multiset(ys) && EveryAvailable(xs)
    ensures EveryAvailable(ys)
  {
    forall i | 0 <= i < |ys| ensures ys[i].outcome == Available { assert ys[i] in multiset(xs); }
  }

  lemma ReportIsMatch(products: map<ProductId, Product>, lines: seq<CartLine>, items: seq<Item>, now: Time)
    requires CartProductsExist(products, lines)
    ensures EveryAvailable(AllocationOutcomes(products, lines, items, now))
       <==> Matches(CartItems(products, lines), items) && LinesAvailable(products, lines, now)
  {
    hide ReportLine, LineAvailable, CheckoutLineOutcome, RequestCount, RequestedAmount, SortBy;
    var own, strangers := ReportLines(products, lines, items, now), ReportStrangers(products, lines, items);
    SortByIsSortedPermutation(own + strangers, ReportKey);
    var sorted := AllocationOutcomes(products, lines, items, now);
    if EveryAvailable(own + strangers) { ReportsPermute(own + strangers, sorted); }
    if EveryAvailable(sorted) { ReportsPermute(sorted, own + strangers); }
    BothAvailable(own, strangers);
    ReportLinesAt(products, lines, items, now);
    ReportStrangersAt(products, lines, items);
    LinesMatchCart(products, lines, items, now);
  }

  lemma BothAvailable(xs: seq<LineReport>, ys: seq<LineReport>)
    ensures EveryAvailable(xs + ys) <==> EveryAvailable(xs) && EveryAvailable(ys)
  {
    assert forall i :: 0 <= i < |xs| ==> (xs + ys)[i] == xs[i];
    assert forall i :: 0 <= i < |ys| ==> (xs + ys)[|xs| + i] == ys[i];
  }

  lemma LinesMatchCart(products: map<ProductId, Product>, lines: seq<CartLine>, items: seq<Item>, now: Time)
    requires CartProductsExist(products, lines)
    ensures Matches(CartItems(products, lines), items) && LinesAvailable(products, lines, now)
       <==> && (forall i :: 0 <= i < |lines| ==> ReportLine(products, lines[i], items, now).outcome == Available)
            && (forall j :: 0 <= j < |items| ==> InCart(products, lines, items[j].slug))
  {
    hide ReportLine, LineAvailable, CheckoutLineOutcome, RequestCount, RequestedAmount;
    var cart := CartItems(products, lines);
    forall i | 0 <= i < |lines|
      ensures ReportLine(products, lines[i], items, now).outcome == Available
         <==> && RequestCount(items, cart[i].slug) == 1 && RequestedAmount(items, cart[i].slug) == Some(cart[i].amount)
              && LineAvailable(products, lines[i], now)
    {
      LineReportIsMatch(products, lines[i], items, now);
    }
    forall j | 0 <= j < |items|
      ensures InCart(products, lines, items[j].slug) <==> exists i :: 0 <= i < |cart| && cart[i].slug == items[j].slug
    {
      if InCart(products, lines, items[j].slug) {
        var i :| 0 <= i < |lines| && products[lines[i].productId].slug == items[j].slug;
        assert cart[i].slug == items[j].slug;
      }
    }
  }

  /**
   * With distinct products and slugs, every outcome is `available` exactly when the submitted items are the cart's
   * lines, as slugs and amounts in any order, and each line is available.
   */
  lemma AvailableIffExactlyTheCart(products: map<ProductId, Product>, lines: seq<CartLine>, items: seq<Item>, now: Time)
    requires CatalogueOk(products) && ValidCartLines(products, lines) && CartProductsExist(products, lines)
    ensures EveryAvailable(AllocationOutcomes(products, lines, items, now))
       <==> multiset(items) == multiset(CartItems(products, lines)) && LinesAvailable(products, lines, now)
  {
    hide AllocationOutcomes, EveryAvailable, LinesAvailable, Matches;
    CartItemsAreDistinct(products, lines);
    ReportIsMatch(products, lines, items, now);
    var cart := CartItems(products, lines);
    if Matches(cart, items) { MatchesOnlyEqual(cart, items); }
    if multiset(items) == multiset(cart) { EqualMatches(cart, items); }
  }

  // ----- The whole order -----

  lemma {:induction false} AvailableLinesArePriced(products: map<ProductId, Product>, lines: seq<CartLine>, now: Time)
    requires CartProductsExist(products, lines) && LinesAvailable(products, lines, now)
    ensures PriceLines(products, lines).Ok?
    ensures LineTotals(PriceLines(products, lines).value) == LinePrices(products, lines)
    ensures SealedFrom(PriceLines(products, lines).value, lines)
  {
    hide LineTotalMinor, LinePrice, CheckoutLineOutcome;
    if lines != [] {
      assert LineAvailable(products, lines[0], now);
      AvailableLineHasPrice(products, lines[0], now);
      AvailableLinesArePriced(products, lines[1..], now);
      var rest := PriceLines(products, lines[1..]).value;
      var priced := PriceLines(products, lines).value;
      assert priced[1..] == rest;
      PricedLinesMirrorCart(products, lines);
    }
  }

  lemma PricedLinesCanBeTaken(products: map<ProductId, Product>, cart: seq<CartLine>, lines: seq<Line>, now: Time)
    requires ValidCartLines(products, cart) && LinesAvailable(products, cart, now) && SealedFrom(lines, cart)
    ensures TakeStock(products, lines).Some?
  {
    hide CheckoutLineOutcome;
    SealedLinesAreFresh(products, cart, lines);
    forall i | 0 <= i < |lines|
      ensures CheckoutLineOutcome(Lookup(products, lines[i].productId), lines[i].amount, now) == Available
    {
      assert LineAvailable(products, cart[i], now);
    }
    AvailableLinesCanBeTaken(products, lines, now);
  }

  /** What a cash order for this cart costs, if it can be placed. */
  function CashPricing(products: map<ProductId, Product>, items: seq<CartLine>): Outcome<Pricing> {
    match AddAll(0, LinePrices(products, items))
    case Rejected(e) => Rejected(e)
    case Ok(subtotal) => CheckoutPricing(subtotal, false)
  }

  predicate SubmitsTheCart(products: map<ProductId, Product>, items: seq<CartLine>, submitted: seq<Item>, now: Time)
    requires CartProductsExist(products, items)
  {
    items != [] && multiset(submitted) == multiset(CartItems(products, items)) && LinesAvailable(products, items, now)
  }

  lemma CartItemsPermute(products: map<ProductId, Product>, xs: seq<CartLine>, ys: seq<CartLine>)
    requires CartProductsExist(products, xs) && CartProductsExist(products, ys)
    requires multiset(xs) == multiset(ys)
    ensures multiset(CartItems(products, xs)) == multiset(CartItems(products, ys))
    decreases |xs|
  {
    assert |multiset(xs)| == |multiset(ys)|;
    if xs != [] {
      var i := MatchHead(xs, ys);
      var rest := ys[..i] + ys[i + 1..];
      assert CartProductsExist(products, xs[1..]);
      CartItemsPermute(products, xs[1..], rest);
      assert CartItems(products, xs) == [CartItems(products, xs)[0]] + CartItems(products, xs[1..]);
      assert CartItems(products, ys)
        == CartItems(products, ys[..i]) + ([CartItems(products, ys)[i]] + CartItems(products, ys[i + 1..]));
      assert CartItems(products, rest) == CartItems(products, ys[..i]) + CartItems(products, ys[i + 1..]);
    }
  }

  /**
   * With the cart open to the customer and no order in the way, an order is placed exactly when the submitted items are
   * the cart, every line is available and the sums fit; it then holds the cart's lines at their line totals.
   */
  lemma OrderedIffExactlyTheCart(w: World, context: OrderContext, input: CheckoutInput, now: Time)
    requires Reachable(w) && context.cartId in w.db.carts
    requires w.db.carts[context.cartId].userId.Some? || w.db.carts[context.cartId].expiresAt > now
    ensures CartProductsExist(w.db.products, w.db.carts[context.cartId].items)
    ensures var items := w.db.carts[context.cartId].items;
            var r := PlaceOrder(w.db, context, input, now);
            && (r.Ok? <==>
                  SubmitsTheCart(w.db.products, items, input.items, now) && CashPricing(w.db.products, items).Ok?)
            && (r.Ok? ==>
                  && |r.value.db.orders| == |w.db.orders| + 1 && r.value.orderId == |w.db.orders|
                  && var order := r.value.db.orders[|w.db.orders|];
                     && SealedFrom(order.items, CartByProduct(items))
                     && LineTotals(order.items) == LinePrices(w.db.products, CartByProduct(items))
                     && CashPricing(w.db.products, items) == Ok(order.pricing))
  {
    hide Inv, Reachable, Next, ValidCartLines, LinePrices, LinesAvailable, CheckoutPricing, AddAll, CartItems;
    hide AllocationOutcomes, EveryAvailable, PriceLines, TakeStock, SealedFrom, CartByProduct, LineTotals, CatalogueOk;
    hide RequestFingerprint;
    ReachableHolds(w);
    var items := w.db.carts[context.cartId].items;
    CartIsValid(w, context.cartId);
    var sorted := CartByProduct(items);
    SortedCartIsCart(w.db.products, items, now);
    SortByIsSortedPermutation(input.items, ItemKey);
    AvailableIffExactlyTheCart(w.db.products, sorted, SortBy(input.items, ItemKey), now);
    if LinesAvailable(w.db.products, sorted, now) {
      AvailableLinesArePriced(w.db.products, sorted, now);
      PricedLinesCanBeTaken(w.db.products, sorted, PriceLines(w.db.products, sorted).value, now);
    }
  }

  lemma CartIsValid(w: World, c: CartId)
    requires Inv(w) && c in w.db.carts
    ensures CatalogueOk(w.db.products) && ValidCartLines(w.db.products, w.db.carts[c].items)
    ensures CartProductsExist(w.db.products, w.db.carts[c].items)
  {
    hide CasesOk, KeysOk, OrderIndexOk, AttemptsOwned, DraftsOk, CatalogueOk, OrdersOk;
    assert ValidCartLines(w.db.products, w.db.carts[c].items);
  }

  lemma SortedCartIsCart(products: map<ProductId, Product>, items: seq<CartLine>, now: Time)
    requires ValidCartLines(products, items) && CartProductsExist(products, items)
    ensures ValidCartLines(products, CartByProduct(items)) && CartProductsExist(products, CartByProduct(items))
    ensures multiset(CartItems(products, CartByProduct(items))) == multiset(CartItems(products, items))
    ensures AddAll(0, LinePrices(products, CartByProduct(items))) == AddAll(0, LinePrices(products, items))
    ensures LinesAvailable(products, CartByProduct(items), now) <==> LinesAvailable(products, items, now)
    ensures CartByProduct(items) == [] <==> items == []
  {
    hide AddAll, LinePrices, LinesAvailable, CartItems;
    CartByProductKeeps(products, items);
    CartItemsPermute(products, items, CartByProduct(items));
    SameSumInEitherOrder(products, items, now);
  }

  // ----- Once only -----

  predicate SameRequest(context: OrderContext, input: CheckoutInput, context': OrderContext, input': CheckoutInput) {
    && input'.paymentMethod == CashOnDelivery
    && context'.cartId == context.cartId && context'.userId == context.userId
    && CanonicalCheckout(input') == CanonicalCheckout(input)
  }

  /**
   * A retry of the same canonical checkout, under the same or any unused key, gets the same order and writes nothing.
   */
  lemma RetryGetsTheSameOrder(
      w: World, context: OrderContext, input: CheckoutInput, now: Time, context': OrderContext, input': CheckoutInput,
      later: Time)
    requires Reachable(w) && SameRequest(context, input, context', input')
    requires context'.key == context.key || FindByKey(w.db.orders, context.userId, context'.key).None?
    ensures var placed := CreateCashOrder(w.db, context, input, now);
            placed.Ok? && placed.value.db != w.db ==>
              CreateCashOrder(placed.value.db, context', input', later) == placed
  {
    hide Inv, Reachable, Next, PlaceOrder, CanonicalCheckout;
    var r := CreateCashOrder(w.db, context, input, now);
    if r.Ok? && r.value.db != w.db {
      ReachableHolds(w);
      PlacedOrderShape(w, context, input, now);
      PlacedFingerprint(w.db, context, input, now);
      var placed, n := r.value, |w.db.orders|;
      assert placed.db.orders == w.db.orders + [placed.db.orders[n]];
      assert placed.db.orders[..n] == w.db.orders;
    }
  }

  lemma PlacedFingerprint(db: Db, context: OrderContext, input: CheckoutInput, now: Time)
    requires context.cartId in db.carts
    ensures PlaceOrder(db, context, input, now).Ok? ==>
            var placed := PlaceOrder(db, context, input, now).value;
            && placed.orderId == |db.orders| && |placed.db.orders| == |db.orders| + 1
            && placed.db.orders[|db.orders|].requestHash == RequestFingerprint(context, input)
            && placed.db.orders[|db.orders|].key == ClientKey(context.key)
            && placed.db.activeUsers == db.activeUsers
            && context.cartId in placed.db.carts && placed.db.carts[context.cartId].userId.None?
  {
    hide AllocationOutcomes, EveryAvailable, PriceLines, TakeStock, CartByProduct, AddAll, CheckoutPricing,
         CartProductsExist;
  }

  /** Whatever happens afterwards, a cart with a cash order never yields another order or takes more stock. */
  lemma NeverOrderedTwice(w: World, o: OrderId, steps: seq<Step>, context: OrderContext, input: CheckoutInput,
                          later: Time)
    requires Reachable(w) && o < |w.db.orders| && w.db.orders[o].attemptId.None?
    requires w.db.orders[o].cartId == context.cartId
    ensures var db := Run(w, steps).db;
            && o < |db.orders| && db.orders[o] == w.db.orders[o]
            && (CreateCashOrder(db, context, input, later).Ok? ==>
                  CreateCashOrder(db, context, input, later).value.db == db)
  {
    hide Inv, Reachable, Next, Run, PlaceOrder, RequestFingerprint;
    ReachableOn(w, steps);
    ReachableHolds(w);
    ReachableHolds(Run(w, steps));
    RunsEvolve(w, steps);
    assert OrderEvolves(w.db.orders[o], Run(w, steps).db.orders[o]);
    CashOrderIsActive(w, o);
    CashOrderIsActive(Run(w, steps), o);
  }
}
