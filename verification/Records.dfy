/**
 * The rows the services share. Attempts and orders are append-only tables, so a row's identifier is its index;
 * hashes are injective, so a hash is represented by what was hashed.
 */
module Records {
  import opened Basics
  import opened Money

  type ProductId = nat
  type CartId = nat
  type DraftId = nat
  type UserId = nat
  type AttemptId = nat
  type OrderId = nat
  type EventId = nat
  type PaymentReference = nat
  type SessionId = nat
  type Key = nat
  type Token = nat
  type Time = int      // milliseconds
  type Slug = int      // a slug, represented by its rank in the collation order

  // ----- Catalogue -----

  datatype Currency = EUR | USD

  datatype AmountUnit = Each | Milligram

  datatype Labels = Labels(name: string, priceQualifier: string, amountUnit: AmountUnit)

  datatype Product = Product(
    slug: Slug,
    labels: Labels,
    currency: Currency,
    isActive: bool,
    activeFrom: Option<Time>,
    activeUntil: Option<Time>,
    rules: AmountRules,
    priceMinor: int,
    priceBasisAmount: int,
    stockAmount: int)

  predicate IsPublicProductEligible(product: Product, at: Time) {
    && product.isActive
    && (product.activeFrom.None? || product.activeFrom.value <= at)
    && (product.activeUntil.None? || product.activeUntil.value > at)
  }

  datatype LineOutcome = Available | ProductUnavailable | InvalidAmount | PriceUnavailable | InsufficientStock

  /** The one availability test shared by quotes, cash orders and card allocation. */
  function CheckoutLineOutcome(product: Option<Product>, amount: int, at: Time): LineOutcome {
    if product.None? || !IsPublicProductEligible(product.value, at) || product.value.currency != EUR
    then ProductUnavailable
    else if !IsValidOrderAmount(amount, product.value.rules) then InvalidAmount
    else if LineTotalMinor(product.value.priceMinor, amount, product.value.priceBasisAmount).Rejected?
    then PriceUnavailable
    else if product.value.stockAmount < amount then InsufficientStock
    else Available
  }

  function Lookup<K, V>(m: map<K, V>, k: K): Option<V> {
    if k in m then Some(m[k]) else None
  }

  // ----- Carts, drafts -----

  datatype CartLine = CartLine(productId: ProductId, amount: int)

  /** `items` in creation order. */
  datatype Cart = Cart(userId: Option<UserId>, tokenDigest: Token, expiresAt: Time, items: seq<CartLine>)

  function CartLineKey(line: CartLine): int { line.productId }

  function CartByProduct(items: seq<CartLine>): seq<CartLine> {
    SortBy(items, CartLineKey)
  }

  datatype PaymentMethod = StripeDebitCard | CashOnDelivery

  /** Contact and delivery fields: one opaque value after trimming. */
  type Contact = nat

  datatype CanonicalDraft = CanonicalDraft(paymentMethod: PaymentMethod, contact: Contact)

  datatype DraftFingerprint = DraftFingerprint(cartId: CartId, owner: Option<UserId>, checkout: CanonicalDraft)

  /** The keyed hash a guest receives: it determines the inputs it was derived from. */
  datatype Capability = Capability(cartToken: Token, key: Key, request: DraftFingerprint, expiresAt: Time)

  datatype StoredCapability = StoredCapability(digest: Capability, expiresAt: Time)

  datatype Draft = Draft(
    cartId: CartId,
    userId: Option<UserId>,
    version: int,
    checkout: CanonicalDraft,
    capability: Option<StoredCapability>,
    createdAt: Time,
    updatedAt: Time)

  predicate VerifyCapability(raw: Option<Capability>, stored: Option<StoredCapability>, now: Time) {
    && raw.Some? && stored.Some?
    && stored.value.expiresAt > now
    && raw.value == stored.value.digest
  }

  datatype QuoteStatus = Ready | Unavailable | Empty

  datatype Quote = Quote(pricing: Pricing, status: QuoteStatus, quotedAt: Time)

  datatype DraftView =
    DraftView(quote: Quote, checkout: CanonicalDraft, expiresAt: Option<Time>, id: DraftId, updatedAt: Time)

  datatype DraftRequest = DraftRequest(requestHash: DraftFingerprint, response: DraftView)

  // ----- Payment attempts, allocations, orders, claims -----

  datatype Line = Line(
    productId: ProductId,
    slug: Slug,
    labels: Labels,
    saleKind: SaleKind,
    priceMinor: int,
    priceBasisAmount: int,
    amount: int,
    lineTotalMinor: int)

  function LineKey(line: Line): int { line.productId }

  /** `ORDER BY productId`. */
  function LinesByProduct(rows: seq<Line>): seq<Line> {
    SortBy(rows, LineKey)
  }

  datatype AttemptFingerprint = AttemptFingerprint(draftId: DraftId, draftVersion: int, owner: Option<UserId>)

  datatype AttemptStatus = Prepared | Pending | ReconciliationRequired | Succeeded | DefinitivelyFailed | Cancelled

  datatype Attempt = Attempt(
    draftId: DraftId,
    draftVersion: int,
    userId: Option<UserId>,
    key: Key,
    requestHash: AttemptFingerprint,
    contact: Contact,
    currency: Currency,
    pricing: Pricing,
    items: seq<Line>,
    quotedAt: Time,
    status: AttemptStatus,
    reference: Option<PaymentReference>,
    sessionId: Option<SessionId>,
    sessionExpiresAt: Option<Time>,
    pendingAt: Option<Time>,
    updatedAt: Time)               // set by every write to the row

  datatype AllocationStatus = Allocated | CaptureRequested | CaptureUnresolved | Captured | Released

  datatype Allocation = Allocation(
    orderId: OrderId,
    reference: PaymentReference,
    status: AllocationStatus,
    authorizedAt: Time,
    captureRequestedAt: Option<Time>,
    capturedAt: Option<Time>,
    releasedAt: Option<Time>)

  datatype OrderStatus = OrderPlaced | OrderPaid | OrderCancelled

  datatype PaymentState = PaymentPending | PaymentPaid | DueOnDelivery | PaymentFailed

  datatype CashCheckout = CashCheckout(contact: Contact, items: seq<(Slug, int)>)

  datatype OrderFingerprint =
    | CashRequest(cartId: CartId, userId: UserId, checkout: CashCheckout)
    | CardRequest(attempt: AttemptFingerprint)

  datatype OrderKey = ClientKey(key: Key) | CardKey(attemptId: AttemptId)

  datatype Order = Order(
    cartId: CartId,
    userId: Option<UserId>,
    key: OrderKey,
    requestHash: OrderFingerprint,
    contact: Contact,
    attemptId: Option<AttemptId>,
    paymentMethod: PaymentMethod,
    currency: Currency,
    pricing: Pricing,
    items: seq<Line>,
    placedAt: Time,
    status: OrderStatus,
    paymentState: PaymentState,
    paidAt: Option<Time>,
    reference: Option<PaymentReference>)

  datatype ClaimStatus = Claimed | Consumed | ClaimReleased

  datatype Claim = Claim(userId: UserId, heldAt: Time, status: ClaimStatus, consumedOrderId: Option<OrderId>)

  // ----- The database -----

  datatype Db = Db(
    activeUsers: set<UserId>,
    products: map<ProductId, Product>,
    carts: map<CartId, Cart>,
    drafts: map<DraftId, Draft>,
    draftOfCart: map<CartId, DraftId>,                // the unique index on CheckoutDraft.cartId
    draftRequests: map<(DraftId, Key), DraftRequest>,
    attempts: seq<Attempt>,
    allocations: map<AttemptId, Allocation>,
    orders: seq<Order>,
    orderOfAttempt: map<AttemptId, OrderId>,          // the unique index on Order.paymentAttemptId
    claims: map<AttemptId, Claim>,
    receipts: map<EventId, nat>)                      // payload hash of every accepted webhook

  /** How many units of a product the lines hold together. */
  function AmountOf(lines: seq<Line>, p: ProductId): int {
    if lines == [] then 0
    else (if lines[0].productId == p then lines[0].amount else 0) + AmountOf(lines[1..], p)
  }

  /** The guarded decrement of one product: no row matches when the stock is too low. */
  function TakeOne(products: map<ProductId, Product>, line: Line): Option<map<ProductId, Product>> {
    if line.productId in products && products[line.productId].stockAmount >= line.amount
    then Some(products[line.productId := AddStock(products[line.productId], -line.amount)])
    else None
  }

  function AddStock(product: Product, amount: int): Product {
    product.(stockAmount := product.stockAmount + amount)
  }

  function TakeStock(products: map<ProductId, Product>, lines: seq<Line>): Option<map<ProductId, Product>>
    decreases |lines|
  {
    if lines == [] then Some(products)
    else match TakeOne(products, lines[0])
      case None => None
      case Some(rest) => TakeStock(rest, lines[1..])
  }

  predicate ProductsExist(products: map<ProductId, Product>, lines: seq<Line>) {
    forall i :: 0 <= i < |lines| ==> lines[i].productId in products
  }

  function ReturnStock(products: map<ProductId, Product>, lines: seq<Line>): (r: map<ProductId, Product>)
    requires ProductsExist(products, lines)
    ensures r.Keys == products.Keys
    decreases |lines|
  {
    if lines == [] then products
    else
      var p := lines[0].productId;
      ReturnStock(products[p := AddStock(products[p], lines[0].amount)], lines[1..])
  }

  /** The unique index on `Order.cartId`, of orders that are not cancelled, has an entry for the cart. */
  predicate CartTaken(orders: seq<Order>, cartId: CartId) {
    exists o :: 0 <= o < |orders| && orders[o].cartId == cartId && orders[o].status != OrderCancelled
  }

  predicate AllAvailable(products: map<ProductId, Product>, lines: seq<Line>, at: Time) {
    forall i :: 0 <= i < |lines| ==>
      CheckoutLineOutcome(Lookup(products, lines[i].productId), lines[i].amount, at) == Available
  }

  // ----- What taking and returning stock does -----

  ghost predicate DistinctProducts(lines: seq<Line>) {
    DistinctBy(lines, LineKey)
  }

  lemma {:induction false} AmountOfAbsent(lines: seq<Line>, p: ProductId)
    requires forall i :: 0 <= i < |lines| ==> lines[i].productId != p
    ensures AmountOf(lines, p) == 0
  {
    if lines != [] { AmountOfAbsent(lines[1..], p); }
  }

  lemma AmountOfTail(lines: seq<Line>)
    requires lines != [] && DistinctProducts(lines)
    ensures DistinctProducts(lines[1..])
    ensures AmountOf(lines[1..], lines[0].productId) == 0
  {
    forall i | 0 <= i < |lines[1..]| ensures lines[1..][i].productId != lines[0].productId {
      assert LineKey(lines[0]) != LineKey(lines[i + 1]);
    }
    AmountOfAbsent(lines[1..], lines[0].productId);
  }

  /** With distinct products, the guarded loop fails exactly when some line alone exceeds its stock. */
  lemma {:induction false} TakeStockFailsOnlyOnShortage(products: map<ProductId, Product>, lines: seq<Line>)
    requires DistinctProducts(lines)
    ensures TakeStock(products, lines).Some?
         == forall i :: 0 <= i < |lines| ==>
              lines[i].productId in products && products[lines[i].productId].stockAmount >= lines[i].amount
    decreases |lines|
  {
    if lines != [] {
      var head := lines[0];
      AmountOfTail(lines);
      match TakeOne(products, head) {
        case None =>
        case Some(rest) =>
          TakeStockFailsOnlyOnShortage(rest, lines[1..]);
          forall i | 1 <= i < |lines| ensures lines[i].productId != head.productId {
            assert LineKey(lines[0]) != LineKey(lines[i]);
          }
          forall i | 1 <= i < |lines|
            ensures Lookup(rest, lines[i].productId) == Lookup(products, lines[i].productId)
          {
            assert lines[i] == lines[1..][i - 1];
          }
          assert forall i :: 0 <= i < |lines[1..]| ==> lines[1..][i] == lines[i + 1];
      }
    }
  }

  /** Taking stock changes nothing but stock, and each stock by exactly the amount of its line. */
  lemma {:induction false} TakeStockEffect(products: map<ProductId, Product>, lines: seq<Line>, p: ProductId)
    requires TakeStock(products, lines).Some? && DistinctProducts(lines)
    ensures TakeStock(products, lines).value.Keys == products.Keys
    ensures p in products ==>
      TakeStock(products, lines).value[p] == AddStock(products[p], -AmountOf(lines, p))
    ensures p in products && AmountOf(lines, p) > 0 ==> TakeStock(products, lines).value[p].stockAmount >= 0
    decreases |lines|
  {
    if lines != [] {
      AmountOfTail(lines);
      var rest := TakeOne(products, lines[0]).value;
      TakeStockEffect(rest, lines[1..], p);
    }
  }

  lemma {:induction false} ReturnStockEffect(products: map<ProductId, Product>, lines: seq<Line>, p: ProductId)
    requires ProductsExist(products, lines)
    ensures p in products ==> ReturnStock(products, lines)[p] == AddStock(products[p], AmountOf(lines, p))
    decreases |lines|
  {
    if lines != [] {
      var q := lines[0].productId;
      var rest := products[q := AddStock(products[q], lines[0].amount)];
      assert ProductsExist(rest, lines[1..]);
      ReturnStockEffect(rest, lines[1..], p);
    }
  }

  lemma {:induction false} AmountOfIgnoresOrder(xs: seq<Line>, ys: seq<Line>, p: ProductId)
    requires multiset(xs) == multiset(ys)
    ensures AmountOf(xs, p) == AmountOf(ys, p)
  {
    assert |multiset(xs)| == |multiset(ys)|;
    if xs != [] {
      var i := MatchHead(xs, ys);
      AmountOfSplit(ys, i, p);
      AmountOfIgnoresOrder(xs[1..], ys[..i] + ys[i + 1..], p);
    }
  }

  lemma {:induction false} AmountOfSplit(ys: seq<Line>, i: nat, p: ProductId)
    requires i < |ys|
    ensures AmountOf(ys, p) == AmountOf(ys[..i] + ys[i + 1..], p) + AmountOf([ys[i]], p)
  {
    if i == 0 {
      assert ys[..0] + ys[1..] == ys[1..];
    } else {
      AmountOfSplit(ys[1..], i - 1, p);
      assert (ys[..i] + ys[i + 1..])[1..] == ys[1..][..i - 1] + ys[1..][i..];
    }
  }

  /** Reading the rows in product order loses nothing. */
  lemma LinesByProductKeeps(rows: seq<Line>)
    ensures multiset(LinesByProduct(rows)) == multiset(rows) && |LinesByProduct(rows)| == |rows|
    ensures DistinctProducts(rows) ==> DistinctProducts(LinesByProduct(rows))
    ensures forall p :: AmountOf(LinesByProduct(rows), p) == AmountOf(rows, p)
    ensures forall line :: line in LinesByProduct(rows) <==> line in rows
  {
    SortByIsSortedPermutation(rows, LineKey);
    forall p ensures AmountOf(LinesByProduct(rows), p) == AmountOf(rows, p) {
      AmountOfIgnoresOrder(rows, LinesByProduct(rows), p);
    }
    if DistinctProducts(rows) { DistinctByPermutation(rows, LinesByProduct(rows), LineKey); }
    forall line ensures line in LinesByProduct(rows) <==> line in rows {
      assert line in multiset(rows) <==> line in rows;
      assert line in multiset(LinesByProduct(rows)) <==> line in LinesByProduct(rows);
    }
  }
}
