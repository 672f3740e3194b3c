/** apps/api/src/cart/cart.service.ts: moving a guest's cart into an account's, and editing one cart. */
module CartMerge {
  import opened Basics
  import opened Money

  type ProductId = nat
  type Token = nat
  type Time = int

  const MAX_DISTINCT_ITEMS: nat := 50
  const CART_LIFETIME_MS: int := 30 * 24 * 60 * 60 * 1_000

  type Items = map<ProductId, int>

  type Catalogue = map<ProductId, AmountRules>

  /**
   * `hasOrder`: any order refers to the cart; `hasActiveOrder`: one that is not cancelled; `hasAttempt`: a payment
   * attempt refers to the cart's draft.
   */
  datatype Row =
    Row(token: Token, expiresAt: Time, hasOrder: bool, hasActiveOrder: bool, hasAttempt: bool, items: Items)

  const NEW_ROW := Row(0, 0, false, false, false, map[])

  /** The carts one merge can touch: the account's own, and the unowned one with the presented token. */
  datatype Carts = Carts(account: Option<Row>, guest: Option<Row>)

  datatype Status = NotPresent | Merged

  datatype Merge = Merge(status: Status, carts: Carts)

  function AmountIn(items: Items, p: ProductId): int {
    if p in items then items[p] else 0
  }

  /** The larger amount of every product. */
  function LargerOf(x: Items, y: Items): Items {
    map p | p in x.Keys + y.Keys :: if p in y then Max(AmountIn(x, p), y[p]) else x[p]
  }

  /** `requireCanonicalMergedItems` */
  predicate IsCanonical(catalogue: Catalogue, items: Items) {
    |items| <= MAX_DISTINCT_ITEMS
    && forall p :: p in items ==> p in catalogue && IsValidOrderAmount(items[p], catalogue[p])
  }

  predicate IsActiveGuest(guest: Option<Row>, now: Time) {
    guest.Some? && !guest.value.hasActiveOrder && guest.value.expiresAt > now
  }

  /** Foreign keys keep the row: of an order, or of an attempt on the draft that would be deleted with it. */
  predicate IsReferenced(row: Row) {
    row.hasOrder || row.hasAttempt
  }

  function ItemsOf(row: Option<Row>): Items {
    if row.Some? then row.value.items else map[]
  }

  function MergeGuest(carts: Carts, catalogue: Catalogue, userIsActive: bool, now: Time, freshToken: Token)
    : Outcome<Merge>
  {
    if !userIsActive then Rejected(Unauthorized)
    else if carts.account.None? && IsActiveGuest(carts.guest, now) then
      var guest := carts.guest.value;
      if !IsCanonical(catalogue, guest.items) then Rejected(CartUnavailable)
      else Ok(Merge(Merged, Carts(Some(guest.(token := freshToken, expiresAt := now + CART_LIFETIME_MS)), None)))
    else
      var account := if carts.account.Some? then carts.account.value
                     else NEW_ROW.(token := freshToken, expiresAt := now + CART_LIFETIME_MS);
      if !IsActiveGuest(carts.guest, now) then Ok(Merge(NotPresent, Carts(Some(account), carts.guest)))
      else
        var merged := LargerOf(account.items, carts.guest.value.items);
        if !IsCanonical(catalogue, merged) then Rejected(CartUnavailable)
        else if IsReferenced(carts.guest.value) then Rejected(StillReferenced)
        else Ok(Merge(Merged, Carts(Some(account.(items := merged)), None)))
  }

  predicate Positive(items: Items) {
    forall p :: p in items ==> items[p] >= 1
  }

  // ----- What a merge does -----

  /** In every successful branch the account ends up with the larger amount of each product, and at most 50 lines. */
  lemma MergeTakesTheLarger(carts: Carts, catalogue: Catalogue, userIsActive: bool, now: Time, freshToken: Token)
    requires Positive(ItemsOf(carts.account)) && Positive(ItemsOf(carts.guest))
    requires MergeGuest(carts, catalogue, userIsActive, now, freshToken).Ok?
    ensures var merge := MergeGuest(carts, catalogue, userIsActive, now, freshToken).value;
            && merge.carts.account.Some?
            && (merge.status == Merged <==> IsActiveGuest(carts.guest, now))
            && (merge.status == Merged ==>
                  && (carts.account.None? || !IsReferenced(carts.guest.value))
                  && merge.carts.guest.None? && |ItemsOf(merge.carts.account)| <= MAX_DISTINCT_ITEMS
                  && forall p: ProductId :: AmountIn(ItemsOf(merge.carts.account), p)
                       == Max(AmountIn(ItemsOf(carts.account), p), AmountIn(ItemsOf(carts.guest), p)))
            && (merge.status == NotPresent ==>
                  ItemsOf(merge.carts.account) == ItemsOf(carts.account) && merge.carts.guest == carts.guest)
  {
  }

  /** Retrying a merge that succeeded finds nothing to do. */
  lemma MergeTwiceIsOnce(carts: Carts, catalogue: Catalogue, now: Time, freshToken: Token, later: Time,
                         laterToken: Token)
    requires MergeGuest(carts, catalogue, true, now, freshToken).Ok?
    requires MergeGuest(carts, catalogue, true, now, freshToken).value.status == Merged
    ensures var merged := MergeGuest(carts, catalogue, true, now, freshToken).value.carts;
            MergeGuest(merged, catalogue, true, later, laterToken) == Ok(Merge(NotPresent, merged))
  {
  }

  // ----- Valid amounts are closed under the maximum -----

  predicate ItemsValid(catalogue: Catalogue, items: Items) {
    forall p :: p in items ==> p in catalogue && IsValidOrderAmount(items[p], catalogue[p])
  }

  lemma LargerIsValid(catalogue: Catalogue, x: Items, y: Items)
    requires ItemsValid(catalogue, x) && ItemsValid(catalogue, y) && Positive(x) && Positive(y)
    ensures ItemsValid(catalogue, LargerOf(x, y)) && Positive(LargerOf(x, y))
    ensures LargerOf(x, y).Keys == x.Keys + y.Keys
  {
    hide IsValidOrderAmount;
    forall p | p in LargerOf(x, y) ensures p in catalogue && IsValidOrderAmount(LargerOf(x, y)[p], catalogue[p]) {
      assert LargerOf(x, y)[p] == AmountIn(x, p) || LargerOf(x, y)[p] == AmountIn(y, p);
    }
  }

  /**
   * When both carts are valid under the current rules, a merge is rejected exactly for too many lines, or because the
   * guest's row would have to be deleted while an order or an attempt still refers to it.
   */
  lemma MergeIsRejectedExactlyWhen(carts: Carts, catalogue: Catalogue, now: Time, freshToken: Token)
    requires ItemsValid(catalogue, ItemsOf(carts.account)) && Positive(ItemsOf(carts.account))
    requires ItemsValid(catalogue, ItemsOf(carts.guest)) && Positive(ItemsOf(carts.guest))
    ensures MergeGuest(carts, catalogue, true, now, freshToken).Rejected? <==>
      && IsActiveGuest(carts.guest, now)
      && (|| |ItemsOf(carts.account).Keys + ItemsOf(carts.guest).Keys| > MAX_DISTINCT_ITEMS
          || (carts.account.Some? && IsReferenced(carts.guest.value)))
  {
    hide IsValidOrderAmount;
    var x, y := ItemsOf(carts.account), ItemsOf(carts.guest);
    LargerIsValid(catalogue, x, y);
    assert |LargerOf(x, y)| == |LargerOf(x, y).Keys|;
    assert |y| == |y.Keys|;
    if carts.account.None? { assert x.Keys + y.Keys == y.Keys; }
  }

  const ONE_KIT: Catalogue := map[0 := AmountRules(None, 1, 1, Kit)]

  /** A guest who has only tried to pay: one line, no order, and no sign-in to an existing account merges the cart. */
  lemma TriedPaymentBlocksMerge(account: Row, now: Time, freshToken: Token) returns (guest: Row)
    requires ItemsValid(ONE_KIT, account.items) && Positive(account.items)
    ensures guest.items == map[0 := 1] && !guest.hasOrder && IsActiveGuest(Some(guest), now)
    ensures ItemsValid(ONE_KIT, guest.items) && |account.items.Keys + guest.items.Keys| <= MAX_DISTINCT_ITEMS
    ensures MergeGuest(Carts(Some(account), Some(guest)), ONE_KIT, true, now, freshToken).Rejected?
    ensures MergeGuest(Carts(None, Some(guest)), ONE_KIT, true, now, freshToken).Ok?
  {
    guest := NEW_ROW.(expiresAt := now + 1, hasAttempt := true, items := map[0 := 1]);
    OneKitIsSmall(account.items);
    MergeIsRejectedExactlyWhen(Carts(Some(account), Some(guest)), ONE_KIT, now, freshToken);
    MergeIsRejectedExactlyWhen(Carts(None, Some(guest)), ONE_KIT, now, freshToken);
  }

  lemma OneKitIsSmall(items: Items)
    requires ItemsValid(ONE_KIT, items)
    ensures items.Keys + {0} == {0}
  {
    forall p | p in items ensures p == 0 {}
  }

  lemma LargerAt(x: Items, y: Items, p: ProductId)
    requires Positive(x) && Positive(y)
    ensures p in LargerOf(x, y) <==> p in x || p in y
    ensures AmountIn(LargerOf(x, y), p) == Max(AmountIn(x, p), AmountIn(y, p))
    ensures Positive(LargerOf(x, y))
  {
  }

  lemma SameItems(x: Items, y: Items)
    requires forall p: ProductId :: (p in x <==> p in y) && AmountIn(x, p) == AmountIn(y, p)
    ensures x == y
  {
    forall p | p in x ensures p in y && x[p] == y[p] { assert AmountIn(x, p) == AmountIn(y, p); }
    forall p | p in y ensures p in x { assert p in x <==> p in y; }
  }

  /** Merging is commutative and associative on the items, so the order of several guests does not matter. */
  lemma LargerIgnoresOrder(x: Items, y: Items, z: Items)
    requires Positive(x) && Positive(y) && Positive(z)
    ensures LargerOf(x, y) == LargerOf(y, x)
    ensures LargerOf(LargerOf(x, y), z) == LargerOf(x, LargerOf(y, z))
    ensures LargerOf(x, x) == x
  {
    LargerAt(x, y, 0);
    LargerAt(y, z, 0);
    forall p: ProductId
      ensures (p in LargerOf(x, y) <==> p in LargerOf(y, x))
      ensures AmountIn(LargerOf(x, y), p) == AmountIn(LargerOf(y, x), p)
      ensures p in LargerOf(LargerOf(x, y), z) <==> p in LargerOf(x, LargerOf(y, z))
      ensures AmountIn(LargerOf(LargerOf(x, y), z), p) == AmountIn(LargerOf(x, LargerOf(y, z)), p)
      ensures (p in LargerOf(x, x) <==> p in x) && AmountIn(LargerOf(x, x), p) == AmountIn(x, p)
    {
      LargerAt(x, y, p);
      LargerAt(y, x, p);
      LargerAt(y, z, p);
      LargerAt(x, x, p);
      LargerAt(LargerOf(x, y), z, p);
      LargerAt(x, LargerOf(y, z), p);
      hide LargerOf, AmountIn;
    }
    hide LargerOf, AmountIn;
    SameItems(LargerOf(x, y), LargerOf(y, x));
    SameItems(LargerOf(LargerOf(x, y), z), LargerOf(x, LargerOf(y, z)));
    SameItems(LargerOf(x, x), x);
  }

  lemma LargerPointwise(x: Items, y: Items)
    ensures forall p: ProductId :: p in LargerOf(x, y) <==> p in x || p in y
    ensures forall p: ProductId ::
      AmountIn(LargerOf(x, y), p) == if p in y then Max(AmountIn(x, p), AmountIn(y, p)) else AmountIn(x, p)
  {
  }

  /** One round of filling the merged map. */
  function Raised(merged: Items, p: ProductId, amount: int): (r: Items)
    ensures forall q: ProductId :: q in r <==> q == p || q in merged
    ensures forall q: ProductId ::
      AmountIn(r, q) == if q == p then Max(AmountIn(merged, p), amount) else AmountIn(merged, q)
  {
    merged[p := Max(AmountIn(merged, p), amount)]
  }

  // ----- Writing single lines -----

  datatype Access = OwnAccount | OwnGuest

  function RowFor(carts: Carts, access: Access): Option<Row> {
    if access == OwnAccount then carts.account else carts.guest
  }

  predicate IsOpen(row: Option<Row>, access: Access, now: Time) {
    row.Some? && !row.value.hasOrder && (access == OwnGuest ==> row.value.expiresAt > now)
  }

  function WithLine(carts: Carts, access: Access, p: ProductId, amount: int): Carts
    requires RowFor(carts, access).Some?
  {
    var row := RowFor(carts, access).value;
    var written := Some(row.(items := row.items[p := amount]));
    if access == OwnAccount then carts.(account := written) else carts.(guest := written)
  }

  // ----- The service -----

  /** One account's cart row and the guest row a login presents, updated in place. */
  class CartService {
    var account: Option<Row>
    var guest: Option<Row>

    function View(): Carts
      reads this
    {
      Carts(account, guest)
    }

    constructor (account: Option<Row>, guest: Option<Row>)
      ensures View() == Carts(account, guest)
    {
      this.account := account;
      this.guest := guest;
    }

    /** Fill a map with the account's amounts, then raise it to the guest's. */
    method Merged(x: Items, y: Items) returns (merged: Items)
      ensures merged == LargerOf(x, y)
    {
      merged := x;
      var left := y.Keys;
      while left != {}
        invariant left <= y.Keys
        invariant forall p: ProductId :: p in merged <==> p in x || (p in y && p !in left)
        invariant forall p: ProductId ::
          AmountIn(merged, p) == if p in y && p !in left then Max(AmountIn(x, p), AmountIn(y, p)) else AmountIn(x, p)
        decreases |left|
      {
        var p :| p in left;
        merged := Raised(merged, p, y[p]);
        left := left - {p};
      }
      SameItems(merged, LargerOf(x, y)) by { LargerPointwise(x, y); }
    }

    /** `cart.delete`, unless a foreign key restricts it. */
    method DeleteGuest() returns (ok: bool)
      requires guest.Some?
      modifies `guest
      ensures ok <==> !IsReferenced(old(guest).value)
      ensures guest == if ok then None else old(guest)
    {
      ok := !IsReferenced(guest.value);
      if ok { guest := None; }
    }

    method MergeGuestIntoAccount(catalogue: Catalogue, userIsActive: bool, now: Time, freshToken: Token)
      returns (outcome: Outcome<Status>)
      modifies this
      ensures var spec := MergeGuest(old(View()), catalogue, userIsActive, now, freshToken);
              match outcome
              case Ok(status) => spec == Ok(Merge(status, View()))
              case Rejected(e) => spec == Rejected(e) && View() == old(View())
    {
      if !userIsActive { return Rejected(Unauthorized); }
      var active := IsActiveGuest(guest, now);
      if account.None? && active {
        if !IsCanonical(catalogue, guest.value.items) { return Rejected(CartUnavailable); }
        account := Some(guest.value.(token := freshToken, expiresAt := now + CART_LIFETIME_MS));
        guest := None;
        return Ok(Status.Merged);
      }
      var own := if account.Some? then account.value
                 else NEW_ROW.(token := freshToken, expiresAt := now + CART_LIFETIME_MS);
      if !active {
        account := Some(own);
        return Ok(NotPresent);
      }
      var merged := Merged(own.items, guest.value.items);
      if !IsCanonical(catalogue, merged) { return Rejected(CartUnavailable); }
      var saved := account;
      account := Some(own.(items := merged));
      var deleted := DeleteGuest();
      if !deleted {
        account := saved;
        return Rejected(StillReferenced);
      }
      outcome := Ok(Status.Merged);
    }

    /** Write one line of one of the two carts. */
    method StoreLine(access: Access, p: ProductId, amount: int)
      requires RowFor(View(), access).Some?
      modifies this
      ensures View() == WithLine(old(View()), access, p, amount)
    {
      if access == OwnAccount {
        account := Some(account.value.(items := account.value.items[p := amount]));
      } else {
        guest := Some(guest.value.(items := guest.value.items[p := amount]));
      }
    }

    /**
     * `add`: amounts accumulate, and every line it writes is valid, within the line cap. A cart that any order refers
     * to is closed, and so is a guest's cart whose time is over.
     */
    method Add(access: Access, catalogue: Catalogue, p: ProductId, amount: int, now: Time) returns (ok: bool)
      modifies this
      ensures ok <==>
        && IsOpen(RowFor(old(View()), access), access, now) && p in catalogue
        && var items := RowFor(old(View()), access).value.items;
           && (p in items || |items| < MAX_DISTINCT_ITEMS)
           && IsValidOrderAmount(AmountIn(items, p) + amount, catalogue[p])
      ensures ok ==>
        View() == WithLine(old(View()), access, p, AmountIn(RowFor(old(View()), access).value.items, p) + amount)
      ensures !ok ==> View() == old(View())
      ensures ItemsValid(catalogue, ItemsOf(RowFor(old(View()), access))) ==>
        ItemsValid(catalogue, ItemsOf(RowFor(View(), access)))
      ensures |ItemsOf(RowFor(old(View()), access))| <= MAX_DISTINCT_ITEMS ==>
        |ItemsOf(RowFor(View(), access))| <= MAX_DISTINCT_ITEMS
    {
      hide IsValidOrderAmount;
      var row := RowFor(View(), access);
      if !IsOpen(row, access, now) || p !in catalogue { return false; }
      var items := row.value.items;
      if p !in items {
        if |items| >= MAX_DISTINCT_ITEMS || !IsValidOrderAmount(amount, catalogue[p]) { return false; }
        assert items[p := amount].Keys == items.Keys + {p};
        StoreLine(access, p, amount);
      } else {
        var requested := items[p] + amount;
        if !IsValidOrderAmount(requested, catalogue[p]) { return false; }
        assert items[p := requested].Keys == items.Keys;
        StoreLine(access, p, requested);
      }
      ok := true;
    }

    /** `update` replaces the amount of an existing line only. */
    method Update(access: Access, catalogue: Catalogue, p: ProductId, amount: int, now: Time) returns (ok: bool)
      modifies this
      ensures ok <==>
        && IsOpen(RowFor(old(View()), access), access, now)
        && p in RowFor(old(View()), access).value.items && p in catalogue && IsValidOrderAmount(amount, catalogue[p])
      ensures ok ==> View() == WithLine(old(View()), access, p, amount)
      ensures !ok ==> View() == old(View())
      ensures |ItemsOf(RowFor(View(), access))| == |ItemsOf(RowFor(old(View()), access))|
    {
      hide IsValidOrderAmount;
      var row := RowFor(View(), access);
      if !IsOpen(row, access, now) { return false; }
      var items := row.value.items;
      if p !in items || p !in catalogue || !IsValidOrderAmount(amount, catalogue[p]) { return false; }
      assert items[p := amount].Keys == items.Keys;
      StoreLine(access, p, amount);
      ok := true;
    }
  }
}
