/** The cash order service as an object over the shared tables. */
module OrdersService {
  import opened Basics
  import opened Money
  import opened Records
  import opened PaymentAttempts
  import opened CashOrders
  import opened Database

  lemma {:induction false} ReportLinesAppend(
      products: map<ProductId, Product>, xs: seq<CartLine>, line: CartLine, items: seq<Item>, now: Time)
    requires CartProductsExist(products, xs) && line.productId in products && CartProductsExist(products, xs + [line])
    ensures ReportLines(products, xs + [line], items, now)
         == ReportLines(products, xs, items, now) + [ReportLine(products, line, items, now)]
  {
    hide ReportLine;
    if xs == [] {
      assert xs + [line] == [line];
    } else {
      assert (xs + [line])[1..] == xs[1..] + [line];
      assert CartProductsExist(products, xs[1..] + [line]);
      ReportLinesAppend(products, xs[1..], line, items, now);
    }
  }

  lemma {:induction false} StrangersAppend(
      products: map<ProductId, Product>, lines: seq<CartLine>, items: seq<Item>, item: Item)
    requires CartProductsExist(products, lines)
    ensures ReportStrangers(products, lines, items + [item])
         == ReportStrangers(products, lines, items)
            + if InCart(products, lines, item.slug) then [] else [LineReport(item.slug, item.amount, InvalidAmount)]
  {
    hide InCart;
    if items == [] {
      assert items + [item] == [item];
      assert [item][1..] == [];
    } else {
      assert (items + [item])[1..] == items[1..] + [item];
      StrangersAppend(products, lines, items[1..], item);
    }
  }

  lemma {:induction false} PriceLinesAppend(products: map<ProductId, Product>, xs: seq<CartLine>, line: CartLine)
    requires CartProductsExist(products, xs) && line.productId in products && CartProductsExist(products, xs + [line])
    ensures PriceLines(products, xs + [line])
         == if PriceLines(products, xs).Rejected? then PriceLines(products, xs)
            else if PriceLine(products[line.productId], line).Rejected?
            then Rejected(PriceLine(products[line.productId], line).reason)
            else Ok(PriceLines(products, xs).value + [PriceLine(products[line.productId], line).value])
  {
    hide PriceLine;
    if xs == [] {
      assert xs + [line] == [line] && [line][1..] == [];
      var empty: seq<Line> := [];
      assert PriceLines(products, [line][1..]) == Ok(empty) && PriceLines(products, xs) == Ok(empty);
      if PriceLine(products[line.productId], line).Ok? {
        var last := [PriceLine(products[line.productId], line).value];
        assert last + empty == last && empty + last == last;
      }
    } else {
      assert (xs + [line])[1..] == xs[1..] + [line];
      assert CartProductsExist(products, xs[1..] + [line]);
      PriceLinesAppend(products, xs[1..], line);
      if PriceLine(products[xs[0].productId], xs[0]).Ok? && PriceLines(products, xs).Ok?
         && PriceLine(products[line.productId], line).Ok?
      {
        var first, rest := PriceLine(products[xs[0].productId], xs[0]).value, PriceLines(products, xs[1..]).value;
        var last := PriceLine(products[line.productId], line).value;
        assert [first] + (rest + [last]) == ([first] + rest) + [last];
      }
    }
  }

  lemma {:induction false} RejectedPrefix(products: map<ProductId, Product>, lines: seq<CartLine>, i: nat)
    requires i <= |lines| && CartProductsExist(products, lines)
    ensures CartProductsExist(products, lines[..i])
    ensures PriceLines(products, lines[..i]).Rejected? ==>
      PriceLines(products, lines) == PriceLines(products, lines[..i])
  {
    hide PriceLine;
    if i == 0 {
      assert lines[..0] == [];
    } else {
      assert lines[..i][1..] == lines[1..][..i - 1];
      RejectedPrefix(products, lines[1..], i - 1);
    }
  }

  class Orders {
    const db: Tables

    constructor (db: Tables)
      ensures this.db == db
    {
      this.db := db;
    }

    /** Fill the two maps of the request: the last amount of each slug, and how often it occurs. */
    method IndexRequest(items: seq<Item>) returns (amounts: map<Slug, int>, counts: map<Slug, nat>)
      ensures forall slug: Slug :: Lookup(amounts, slug) == RequestedAmount(items, slug)
      ensures forall slug: Slug :: (if slug in counts then counts[slug] else 0) == RequestCount(items, slug)
    {
      amounts, counts := map[], map[];
      var i := 0;
      while i < |items|
        invariant 0 <= i <= |items|
        invariant forall slug: Slug :: Lookup(amounts, slug) == RequestedAmount(items[..i], slug)
        invariant forall slug: Slug :: (if slug in counts then counts[slug] else 0) == RequestCount(items[..i], slug)
      {
        var item := items[i];
        assert items[..i + 1][..i] == items[..i] && items[..i + 1][i] == item;
        amounts := amounts[item.slug := item.amount];
        counts := counts[item.slug := (if item.slug in counts then counts[item.slug] else 0) + 1];
        i := i + 1;
      }
      assert items[..i] == items;
    }

    /** `allocationOutcomes`: one report a cart line, one for every stranger, sorted by slug. */
    method AllocationOutcomes(lines: seq<CartLine>, items: seq<Item>, now: Time) returns (reports: seq<LineReport>)
      requires CartProductsExist(db.products, lines)
      ensures reports == CashOrders.AllocationOutcomes(db.products, lines, items, now)
    {
      hide CheckoutLineOutcome, SortBy, RequestCount, RequestedAmount, InCart;
      var amounts, counts := IndexRequest(items);
      var own: seq<LineReport> := [];
      var i := 0;
      while i < |lines|
        invariant 0 <= i <= |lines|
        invariant own == ReportLines(db.products, lines[..i], items, now)
      {
        var line := lines[i];
        var product := db.products[line.productId];
        var requested := if product.slug in amounts then amounts[product.slug] else line.amount;
        var matched := product.slug in counts && counts[product.slug] == 1 && requested == line.amount;
        assert Lookup(amounts, product.slug) == RequestedAmount(items, product.slug);
        assert (if product.slug in counts then counts[product.slug] else 0) == RequestCount(items, product.slug);
        var report := LineReport(product.slug, requested,
          if matched then CheckoutLineOutcome(Some(product), line.amount, now) else InvalidAmount);
        assert report == ReportLine(db.products, line, items, now);
        assert lines[..i + 1] == lines[..i] + [line];
        ReportLinesAppend(db.products, lines[..i], line, items, now);
        own := own + [report];
        i := i + 1;
      }
      assert lines[..i] == lines;
      var strangers: seq<LineReport> := [];
      var j := 0;
      while j < |items|
        invariant 0 <= j <= |items|
        invariant strangers == ReportStrangers(db.products, lines, items[..j])
      {
        assert items[..j + 1] == items[..j] + [items[j]];
        StrangersAppend(db.products, lines, items[..j], items[j]);
        if !InCart(db.products, lines, items[j].slug) {
          strangers := strangers + [LineReport(items[j].slug, items[j].amount, InvalidAmount)];
        }
        j := j + 1;
      }
      assert items[..j] == items;
      reports := SortBy(own + strangers, ReportKey);
    }

    method PriceItems(lines: seq<CartLine>) returns (priced: Outcome<seq<Line>>)
      requires CartProductsExist(db.products, lines)
      ensures priced == PriceLines(db.products, lines)
    {
      hide PriceLine, PriceLines;
      var items: seq<Line> := [];
      var i := 0;
      assert PriceLines(db.products, lines[..0]) == Ok([]) by { NothingPriced(db.products, lines[..0]); }
      while i < |lines|
        invariant 0 <= i <= |lines|
        invariant PriceLines(db.products, lines[..i]) == Ok(items)
      {
        var line := PriceLine(db.products[lines[i].productId], lines[i]);
        assert lines[..i + 1] == lines[..i] + [lines[i]];
        PriceLinesAppend(db.products, lines[..i], lines[i]);
        RejectedPrefix(db.products, lines, i + 1);
        if line.Rejected? { return Rejected(line.reason); }
        items := items + [line.value];
        i := i + 1;
      }
      assert lines[..i] == lines;
      priced := Ok(items);
    }

    lemma NothingPriced(products: map<ProductId, Product>, lines: seq<CartLine>)
      requires lines == []
      ensures PriceLines(products, lines) == Ok([])
    {
    }

    method Subtotal(lines: seq<Line>) returns (sum: Outcome<int>)
      ensures sum == AddAll(0, LineTotals(lines))
    {
      var subtotal := 0;
      var i := 0;
      while i < |lines|
        invariant 0 <= i <= |lines|
        invariant AddAll(0, LineTotals(lines)) == AddAll(subtotal, LineTotals(lines[i..]))
      {
        assert lines[i..][0] == lines[i] && lines[i..][1..] == lines[i + 1..];
        var totals := LineTotals(lines[i..]);
        assert totals[0] == lines[i].lineTotalMinor && totals[1..] == LineTotals(lines[i + 1..]);
        var added := AddMoneyMinor(subtotal, lines[i].lineTotalMinor);
        if added.Rejected? { return Rejected(added.reason); }
        subtotal := added.value;
        i := i + 1;
      }
      assert lines[i..] == [];
      sum := Ok(subtotal);
    }

    /** Take the stock, store the order, and empty and detach the cart. */
    method StoreOrder(context: OrderContext, input: CheckoutInput, pricing: Pricing, items: seq<Line>, now: Time)
      returns (ok: bool)
      requires context.cartId in db.carts
      modifies db`products, db`orders, db`carts
      ensures ok <==> TakeStock(old(db.products), items).Some?
      ensures ok ==>
        var was := old(db.View());
        db.View() == was.(
          products := TakeStock(was.products, items).value,
          orders := was.orders + [Order(
            context.cartId, Some(context.userId), ClientKey(context.key), RequestFingerprint(context, input),
            input.contact, None, CashOnDelivery, EUR, pricing, items, now, OrderPlaced, DueOnDelivery, None, None)],
          carts := was.carts[context.cartId := was.carts[context.cartId].(items := [], userId := None)])
    {
      hide TakeStock, RequestFingerprint;
      ok := db.DecrementStock(items);
      if ok {
        db.orders := db.orders + [Order(
          context.cartId, Some(context.userId), ClientKey(context.key), RequestFingerprint(context, input),
          input.contact, None, CashOnDelivery, EUR, pricing, items, now, OrderPlaced, DueOnDelivery, None, None)];
        db.carts := db.carts[context.cartId := db.carts[context.cartId].(items := [], userId := None)];
      }
    }

    method PlaceOrder(context: OrderContext, input: CheckoutInput, now: Time) returns (r: Outcome<OrderId>)
      requires context.cartId in db.carts
      modifies db`products, db`orders, db`carts
      ensures var spec := CashOrders.PlaceOrder(old(db.View()), context, input, now);
              if r.Ok? then spec == Ok(WithOrder(db.View(), r.value)) else spec == Rejected(r.reason)
    {
      hide TakeStock, RequestFingerprint, CashOrders.AllocationOutcomes, PriceLines, AddAll, LineTotals,
           CartByProduct, SortBy;
      hide EveryAvailable, CartProductsExist, CheckoutPricing;
      var cart := db.carts[context.cartId];
      var lines := CartByProduct(cart.items);
      if cart.userId.None? && cart.expiresAt <= now { return Rejected(AllocationUnavailable); }
      if lines == [] { return Rejected(AllocationUnavailable); }
      if !CartProductsExist(db.products, lines) { return Rejected(AllocationUnavailable); }
      var reports := AllocationOutcomes(lines, SortBy(input.items, ItemKey), now);
      if !EveryAvailable(reports) { return Rejected(AllocationUnavailable); }
      var priced := PriceItems(lines);
      if priced.Rejected? { return Rejected(priced.reason); }
      var subtotal := Subtotal(priced.value);
      if subtotal.Rejected? { return Rejected(AllocationUnavailable); }
      var pricing := CheckoutPricing(subtotal.value, false);
      if pricing.Rejected? { return Rejected(AllocationUnavailable); }
      var orderId := |db.orders|;
      var stored := StoreOrder(context, input, pricing.value, priced.value, now);
      r := if stored then Ok(orderId) else Rejected(AllocationUnavailable);
    }

    /** `create`: one order a key, one active order a cart; a failure leaves the tables as they were. */
    method Create(context: OrderContext, input: CheckoutInput, now: Time) returns (r: Outcome<OrderId>)
      modifies db
      ensures var spec := CreateCashOrder(old(db.View()), context, input, now);
              if r.Ok? then spec == Ok(WithOrder(db.View(), r.value))
              else spec == Rejected(r.reason) && db.View() == old(db.View())
    {
      hide CashOrders.PlaceOrder, RequestFingerprint;
      if input.paymentMethod != CashOnDelivery { return Rejected(PaymentUnavailable); }
      var requestHash := RequestFingerprint(context, input);
      var replay := FindByKey(db.orders, context.userId, context.key);
      if replay.Some? {
        return if db.orders[replay.value].requestHash == requestHash then Ok(replay.value)
               else Rejected(IdempotencyConflict);
      }
      if context.userId !in db.activeUsers { return Rejected(Unauthorized); }
      if context.cartId !in db.carts { return Rejected(AllocationUnavailable); }
      var owner := db.carts[context.cartId].userId;
      if owner.Some? && owner != Some(context.userId) { return Rejected(Unauthorized); }
      var byCart := FindActiveByCart(db.orders, context.cartId);
      if byCart.Some? {
        return if db.orders[byCart.value].requestHash == requestHash then Ok(byCart.value)
               else Rejected(IdempotencyConflict);
      }
      var saved := db.View();
      r := PlaceOrder(context, input, now);
      if r.Rejected? { db.Rollback(saved); }
    }
  }
}
