/** The tables the services share, as mutable state, and the loops over rows that several of them run. */
module Database {
  import opened Records

  class Tables {
    var activeUsers: set<UserId>
    var products: map<ProductId, Product>
    var carts: map<CartId, Cart>
    var drafts: map<DraftId, Draft>
    var draftOfCart: map<CartId, DraftId>
    var draftRequests: map<(DraftId, Key), DraftRequest>
    var attempts: seq<Attempt>
    var allocations: map<AttemptId, Allocation>
    var orders: seq<Order>
    var orderOfAttempt: map<AttemptId, OrderId>
    var claims: map<AttemptId, Claim>
    var receipts: map<EventId, nat>

    constructor ()
      ensures View() == Db({}, map[], map[], map[], map[], map[], [], map[], [], map[], map[], map[])
    {
      activeUsers, products, carts, drafts := {}, map[], map[], map[];
      draftOfCart, draftRequests, attempts, allocations := map[], map[], [], map[];
      orders, orderOfAttempt, claims, receipts := [], map[], map[], map[];
    }

    function View(): Db
      reads this
    {
      Db(activeUsers, products, carts, drafts, draftOfCart, draftRequests, attempts, allocations, orders,
         orderOfAttempt, claims, receipts)
    }

    method RestoreShop(saved: Db)
      modifies this`activeUsers, this`products, this`carts, this`drafts, this`draftOfCart, this`draftRequests
      ensures activeUsers == saved.activeUsers && products == saved.products && carts == saved.carts
      ensures drafts == saved.drafts && draftOfCart == saved.draftOfCart && draftRequests == saved.draftRequests
    {
      activeUsers, products, carts := saved.activeUsers, saved.products, saved.carts;
      drafts, draftOfCart, draftRequests := saved.drafts, saved.draftOfCart, saved.draftRequests;
    }

    method RestorePayments(saved: Db)
      modifies this`attempts, this`allocations, this`orders, this`orderOfAttempt, this`claims, this`receipts
      ensures attempts == saved.attempts && allocations == saved.allocations && orders == saved.orders
      ensures orderOfAttempt == saved.orderOfAttempt && claims == saved.claims && receipts == saved.receipts
    {
      attempts, allocations, orders := saved.attempts, saved.allocations, saved.orders;
      orderOfAttempt, claims, receipts := saved.orderOfAttempt, saved.claims, saved.receipts;
    }

    /** What a transaction that throws leaves behind. */
    method Rollback(saved: Db)
      modifies this
      ensures View() == saved
    {
      RestoreShop(saved);
      RestorePayments(saved);
    }

    /** The unique index refuses a second order that is not cancelled for one cart. */
    method InsertOrder(order: Order) returns (ok: bool)
      modifies `orders
      ensures ok <==> order.status == OrderCancelled || !CartTaken(old(orders), order.cartId)
      ensures orders == if ok then old(orders) + [order] else old(orders)
    {
      ok := order.status == OrderCancelled || !CartTaken(orders, order.cartId);
      if ok { orders := orders + [order]; }
    }

    /** The guarded decrement loop; it stops at the first product that has too little stock. */
    method DecrementStock(lines: seq<Line>) returns (ok: bool)
      modifies this`products
      ensures ok <==> TakeStock(old(products), lines).Some?
      ensures ok ==> products == TakeStock(old(products), lines).value
    {
      var i := 0;
      while i < |lines|
        invariant 0 <= i <= |lines|
        invariant TakeStock(old(products), lines) == TakeStock(products, lines[i..])
      {
        var line := lines[i];
        assert lines[i..][0] == line && lines[i..][1..] == lines[i + 1..];
        if line.productId !in products || products[line.productId].stockAmount < line.amount { return false; }
        products := products[line.productId := AddStock(products[line.productId], -line.amount)];
        i := i + 1;
      }
      ok := true;
    }

    method IncrementStock(lines: seq<Line>)
      requires ProductsExist(products, lines)
      modifies this`products
      ensures products == ReturnStock(old(products), lines)
    {
      var i := 0;
      while i < |lines|
        invariant 0 <= i <= |lines|
        invariant products.Keys == old(products).Keys
        invariant ProductsExist(products, lines[i..])
        invariant ReturnStock(old(products), lines) == ReturnStock(products, lines[i..])
      {
        var line := lines[i];
        assert lines[i..][0] == line && lines[i..][1..] == lines[i + 1..];
        products := products[line.productId := AddStock(products[line.productId], line.amount)];
        i := i + 1;
      }
    }
  }
}
