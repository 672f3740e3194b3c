/** apps/api/src/orders/orders.service.ts: cash-on-delivery checkout, as a function of the database. */
module CashOrders {
  import opened Basics
  import opened Money
  import opened Records
  import opened PaymentAttempts

  datatype OrderContext = OrderContext(cartId: CartId, key: Key, userId: UserId)

  datatype Item = Item(slug: Slug, amount: int)

  datatype CheckoutInput = CheckoutInput(paymentMethod: PaymentMethod, contact: Contact, items: seq<Item>)

  datatype LineReport = LineReport(slug: Slug, amount: int, outcome: LineOutcome)

  datatype WithOrder = WithOrder(db: Db, orderId: OrderId)

  function ItemKey(item: Item): int { item.slug }

  function CanonicalCheckout(input: CheckoutInput): CashCheckout {
    var sorted := SortBy(input.items, ItemKey);
    CashCheckout(input.contact, seq(|sorted|, i requires 0 <= i < |sorted| => (sorted[i].slug, sorted[i].amount)))
  }

  function RequestFingerprint(context: OrderContext, input: CheckoutInput): OrderFingerprint {
    CashRequest(context.cartId, context.userId, CanonicalCheckout(input))
  }

  function FindByKey(orders: seq<Order>, userId: UserId, key: Key): (r: Option<OrderId>)
    ensures r.Some? ==>
      r.value < |orders| && orders[r.value].userId == Some(userId) && orders[r.value].key == ClientKey(key)
    ensures r.None? ==> forall o :: 0 <= o < |orders| ==>
      orders[o].userId != Some(userId) || orders[o].key != ClientKey(key)
  {
    if orders == [] then None
    else
      var last := |orders| - 1;
      if orders[last].userId == Some(userId) && orders[last].key == ClientKey(key) then Some(last)
      else FindByKey(orders[..last], userId, key)
  }

  function FindActiveByCart(orders: seq<Order>, cartId: CartId): (r: Option<OrderId>)
    ensures r.Some? ==>
      r.value < |orders| && orders[r.value].cartId == cartId && orders[r.value].status != OrderCancelled
    ensures r.None? ==> forall o :: 0 <= o < |orders| ==>
      orders[o].cartId != cartId || orders[o].status == OrderCancelled
  {
    if orders == [] then None
    else
      var last := |orders| - 1;
      if orders[last].cartId == cartId && orders[last].status != OrderCancelled then Some(last)
      else FindActiveByCart(orders[..last], cartId)
  }

  // ----- Comparing what was submitted with the cart -----

  /** The last amount submitted for a slug, as a map filled in order would hold it. */
  function RequestedAmount(items: seq<Item>, slug: Slug): Option<int> {
    if items == [] then None
    else if items[|items| - 1].slug == slug then Some(items[|items| - 1].amount)
    else RequestedAmount(items[..|items| - 1], slug)
  }

  function RequestCount(items: seq<Item>, slug: Slug): nat {
    if items == [] then 0
    else RequestCount(items[..|items| - 1], slug) + if items[|items| - 1].slug == slug then 1 else 0
  }

  function ReportLine(products: map<ProductId, Product>, line: CartLine, items: seq<Item>, now: Time): LineReport
    requires line.productId in products
  {
    var slug := products[line.productId].slug;
    var submitted := RequestedAmount(items, slug);
    var amount := if submitted.Some? then submitted.value else line.amount;
    LineReport(slug, amount,
               if RequestCount(items, slug) == 1 && amount == line.amount
               then CheckoutLineOutcome(Some(products[line.productId]), line.amount, now) else InvalidAmount)
  }

  function ReportLines(products: map<ProductId, Product>, lines: seq<CartLine>, items: seq<Item>, now: Time)
    : seq<LineReport>
    requires CartProductsExist(products, lines)
  {
    if lines == [] then []
    else [ReportLine(products, lines[0], items, now)] + ReportLines(products, lines[1..], items, now)
  }

  predicate InCart(products: map<ProductId, Product>, lines: seq<CartLine>, slug: Slug)
    requires CartProductsExist(products, lines)
  {
    exists i :: 0 <= i < |lines| && products[lines[i].productId].slug == slug
  }

  function ReportStrangers(products: map<ProductId, Product>, lines: seq<CartLine>, items: seq<Item>): seq<LineReport>
    requires CartProductsExist(products, lines)
  {
    if items == [] then []
    else
      var rest := ReportStrangers(products, lines, items[1..]);
      if InCart(products, lines, items[0].slug) then rest
      else [LineReport(items[0].slug, items[0].amount, InvalidAmount)] + rest
  }

  function ReportKey(report: LineReport): int { report.slug }

  function AllocationOutcomes(products: map<ProductId, Product>, lines: seq<CartLine>, items: seq<Item>, now: Time)
    : seq<LineReport>
    requires CartProductsExist(products, lines)
  {
    SortBy(ReportLines(products, lines, items, now) + ReportStrangers(products, lines, items), ReportKey)
  }

  predicate EveryAvailable(reports: seq<LineReport>) {
    forall i :: 0 <= i < |reports| ==> reports[i].outcome == Available
  }

  // ----- The transaction -----

  function PriceLines(products: map<ProductId, Product>, lines: seq<CartLine>): (r: Outcome<seq<Line>>)
    requires CartProductsExist(products, lines)
  {
    if lines == [] then Ok([])
    else match PriceLine(products[lines[0].productId], lines[0])
      case Rejected(e) => Rejected(e)
      case Ok(first) =>
        match PriceLines(products, lines[1..])
        case Rejected(e) => Rejected(e)
        case Ok(rest) => Ok([first] + rest)
  }

  function LineTotals(lines: seq<Line>): seq<int> {
    if lines == [] then [] else [lines[0].lineTotalMinor] + LineTotals(lines[1..])
  }

  function SameOutcome(db: Db, orderId: OrderId, requestHash: OrderFingerprint): Outcome<WithOrder>
    requires orderId < |db.orders|
  {
    if db.orders[orderId].requestHash == requestHash then Ok(WithOrder(db, orderId)) else Rejected(IdempotencyConflict)
  }

  function PlaceOrder(db: Db, context: OrderContext, input: CheckoutInput, now: Time): Outcome<WithOrder>
    requires context.cartId in db.carts
  {
    var cart := db.carts[context.cartId];
    var lines := CartByProduct(cart.items);
    if cart.userId.None? && cart.expiresAt <= now then Rejected(AllocationUnavailable)
    else if lines == [] then Rejected(AllocationUnavailable)
    else if !CartProductsExist(db.products, lines) then Rejected(AllocationUnavailable)
    else if !EveryAvailable(AllocationOutcomes(db.products, lines, SortBy(input.items, ItemKey), now))
    then Rejected(AllocationUnavailable)
    else match PriceLines(db.products, lines)
      case Rejected(e) => Rejected(e)
      case Ok(priced) =>
        match AddAll(0, LineTotals(priced))
        case Rejected(_) => Rejected(AllocationUnavailable)
        case Ok(subtotal) =>
          match CheckoutPricing(subtotal, false)
          case Rejected(_) => Rejected(AllocationUnavailable)
          case Ok(pricing) =>
            match TakeStock(db.products, priced)
            case None => Rejected(AllocationUnavailable)
            case Some(products) =>
              var order := Order(
                context.cartId, Some(context.userId), ClientKey(context.key), RequestFingerprint(context, input),
                input.contact, None, CashOnDelivery, EUR, pricing, priced, now, OrderPlaced, DueOnDelivery, None, None);
              Ok(WithOrder(
                db.(products := products, orders := db.orders + [order],
                    carts := db.carts[context.cartId := cart.(items := [], userId := None)]), |db.orders|))
  }

  function CreateCashOrder(db: Db, context: OrderContext, input: CheckoutInput, now: Time): Outcome<WithOrder> {
    if input.paymentMethod != CashOnDelivery then Rejected(PaymentUnavailable)
    else
      var requestHash := RequestFingerprint(context, input);
      match FindByKey(db.orders, context.userId, context.key)
      case Some(o) => SameOutcome(db, o, requestHash)
      case None =>
        if context.userId !in db.activeUsers then Rejected(Unauthorized)
        else if context.cartId !in db.carts then Rejected(AllocationUnavailable)
        else if db.carts[context.cartId].userId.Some? && db.carts[context.cartId].userId != Some(context.userId)
        then Rejected(Unauthorized)
        else match FindActiveByCart(db.orders, context.cartId)
          case Some(o) => SameOutcome(db, o, requestHash)
          case None => PlaceOrder(db, context, input, now)
  }
}
