/** apps/api/src/checkout/checkout.service.ts: quotes and draft writes, as functions of the database. */
module CheckoutDrafts {
  import opened Basics
  import opened Money
  import opened Records
  import opened PaymentAttempts

  const GUEST_CHECKOUT_LIFETIME_MS: int := 24 * 60 * 60 * 1_000

  datatype CartAccess = AccountCart(cartId: CartId, userId: UserId) | GuestCart(cartId: CartId, rawToken: Token)

  function AccessOwner(access: CartAccess): Option<UserId> {
    if access.AccountCart? then Some(access.userId) else None
  }

  // ----- Quotes -----

  datatype Running = Running(subtotal: int, status: QuoteStatus)

  /** One pass over the cart lines in creation order. Any failure makes the whole quote unavailable. */
  function QuoteLines(products: map<ProductId, Product>, lines: seq<CartLine>, at: Time, running: Running)
    : (r: Outcome<Running>)
    decreases |lines|
  {
    if lines == [] then Ok(running)
    else if lines[0].productId !in products || products[lines[0].productId].currency != EUR
    then Rejected(QuoteUnavailable)
    else
      var product := products[lines[0].productId];
      var status := if CheckoutLineOutcome(Some(product), lines[0].amount, at) == Available
                    then running.status else Unavailable;
      match LineTotalMinor(product.priceMinor, lines[0].amount, product.priceBasisAmount)
      case Rejected(_) => Rejected(QuoteUnavailable)
      case Ok(total) =>
        match AddMoneyMinor(running.subtotal, total)
        case Rejected(_) => Rejected(QuoteUnavailable)
        case Ok(sum) => QuoteLines(products, lines[1..], at, Running(sum, status))
  }

  function BuildQuote(products: map<ProductId, Product>, items: seq<CartLine>, at: Time, applyDiscount: bool)
    : Outcome<Quote>
  {
    match QuoteLines(products, items, at, Running(0, if items == [] then Empty else Ready))
    case Rejected(e) => Rejected(e)
    case Ok(sum) =>
      match CheckoutPricing(sum.subtotal, applyDiscount)
      case Rejected(_) => Rejected(QuoteUnavailable)
      case Ok(pricing) => Ok(Quote(pricing, sum.status, at))
  }

  predicate PreviewDiscount(db: Db, draft: Draft) {
    && draft.userId.Some?
    && draft.checkout.paymentMethod == StripeDebitCard
    && !HasPaidOrder(db.orders, draft.userId.value)
    && !HasClaim(db.claims, draft.userId.value, Claimed)
    && !HasClaim(db.claims, draft.userId.value, Consumed)
  }

  predicate HoldsClaim(db: Db, a: AttemptId, draftId: DraftId)
    requires a < |db.attempts|
  {
    db.attempts[a].draftId == draftId && a in db.claims && db.claims[a].status == Claimed
  }

  /** The newest attempt of this draft and user, below `n`, that still holds its claim. */
  function FindHeldAttempt(db: Db, draftId: DraftId, userId: UserId, n: nat): (r: Option<AttemptId>)
    requires n <= |db.attempts|
    ensures r.Some? ==>
      r.value < n && HoldsClaim(db, r.value, draftId) && db.attempts[r.value].userId == Some(userId)
    ensures r.None? ==> forall a :: 0 <= a < n ==>
      !HoldsClaim(db, a, draftId) || db.attempts[a].userId != Some(userId)
  {
    if n == 0 then None
    else if HoldsClaim(db, n - 1, draftId) && db.attempts[n - 1].userId == Some(userId) then Some(n - 1)
    else FindHeldAttempt(db, draftId, userId, n - 1)
  }

  predicate HasHeldAttempt(db: Db, draftId: DraftId) {
    exists a :: 0 <= a < |db.attempts| && HoldsClaim(db, a, draftId)
  }

  function ViewOf(id: DraftId, draft: Draft, quote: Quote): DraftView {
    DraftView(quote, draft.checkout,
              if draft.capability.Some? then Some(draft.capability.value.expiresAt) else None, id, draft.updatedAt)
  }

  function CurrentQuote(db: Db, id: DraftId, draft: Draft, now: Time): Outcome<Quote>
    requires draft.cartId in db.carts
  {
    var held := if draft.userId.Some? then FindHeldAttempt(db, id, draft.userId.value, |db.attempts|) else None;
    if held.Some? then
      if db.attempts[held.value].currency != EUR then Rejected(QuoteUnavailable)
      else Ok(Quote(db.attempts[held.value].pricing, Ready, db.attempts[held.value].quotedAt))
    else BuildQuote(db.products, db.carts[draft.cartId].items, now, PreviewDiscount(db, draft))
  }

  // ----- Access -----

  predicate CartOpen(db: Db, access: CartAccess, now: Time) {
    && access.cartId in db.carts
    && match access
       case AccountCart(c, u) => db.carts[c].userId == Some(u)
       case GuestCart(c, _) => db.carts[c].userId.None? && db.carts[c].expiresAt > now
  }

  predicate HasGuestAccess(draft: Draft, raw: Option<Capability>, now: Time) {
    draft.userId.None? && VerifyCapability(raw, draft.capability, now)
  }

  predicate HasAccess(draft: Draft, access: CartAccess, raw: Option<Capability>, now: Time) {
    if access.AccountCart? then draft.userId == Some(access.userId) else HasGuestAccess(draft, raw, now)
  }

  function ExistingDraft(db: Db, cartId: CartId): Option<DraftId> {
    if cartId in db.draftOfCart && db.draftOfCart[cartId] in db.drafts then Some(db.draftOfCart[cartId]) else None
  }

  function GetDraft(db: Db, access: CartAccess, raw: Option<Capability>, now: Time): Outcome<DraftView> {
    if !CartOpen(db, access, now) then Rejected(Unauthorized)
    else match ExistingDraft(db, access.cartId)
      case None => Rejected(NotFound)
      case Some(id) =>
        var draft := db.drafts[id];
        if !HasAccess(draft, access, raw, now) then Rejected(Unauthorized)
        else if draft.cartId !in db.carts then Rejected(NotFound)
        else match CurrentQuote(db, id, draft, now)
          case Rejected(e) => Rejected(e)
          case Ok(quote) => Ok(ViewOf(id, draft, quote))
  }

  // ----- Saving -----

  datatype Saved = Saved(db: Db, view: DraftView, issued: Option<Capability>)

  function Fingerprint(access: CartAccess, checkout: CanonicalDraft): DraftFingerprint {
    DraftFingerprint(access.cartId, AccessOwner(access), checkout)
  }

  predicate IsExpiredGuestDraft(draft: Draft, access: CartAccess, now: Time) {
    && access.GuestCart?
    && draft.userId.None?
    && draft.capability.Some? && draft.capability.value.expiresAt <= now
  }

  /** Logging in moves the guest draft of the adopted cart to the account. */
  function Adopted(draft: Draft, access: CartAccess, now: Time): Draft {
    if access.AccountCart? && draft.userId.None?
    then draft.(capability := None, userId := Some(access.userId), updatedAt := now) else draft
  }

  /** A lost cookie is recovered by deriving it again and comparing it with what is stored. */
  function RecoverCapability(draft: Draft, access: CartAccess, key: Key, requestHash: DraftFingerprint)
    : Outcome<Capability>
    requires access.GuestCart?
  {
    if draft.capability.None? then Rejected(Unauthorized)
    else
      var derived := Capability(access.rawToken, key, requestHash, draft.capability.value.expiresAt);
      if derived == draft.capability.value.digest then Ok(derived) else Rejected(Unauthorized)
  }

  function WithoutRequests(requests: map<(DraftId, Key), DraftRequest>, id: DraftId)
    : map<(DraftId, Key), DraftRequest>
  {
    map k | k in requests && k.0 != id :: requests[k]
  }

  function WriteDraft(
      db: Db, access: CartAccess, key: Key, checkout: CanonicalDraft, now: Time, id: DraftId,
      existing: Option<Draft>, issuing: bool): Outcome<Saved>
    requires access.cartId in db.carts
    requires issuing ==> access.GuestCart?
    requires !issuing && access.GuestCart? ==> existing.Some?
  {
    var requestHash := Fingerprint(access, checkout);
    var expiresAt := now + GUEST_CHECKOUT_LIFETIME_MS;
    var issued := if issuing then Some(Capability(access.rawToken, key, requestHash, expiresAt)) else None;
    var capability := if access.AccountCart? then None
                      else if issuing then Some(StoredCapability(issued.value, expiresAt))
                      else existing.value.capability;
    var draft := Draft(
      access.cartId, AccessOwner(access), if existing.Some? then existing.value.version + 1 else 1, checkout,
      capability,
      if issuing || existing.None? then now else existing.value.createdAt, now);
    match BuildQuote(db.products, db.carts[access.cartId].items, now, PreviewDiscount(db, draft))
    case Rejected(e) => Rejected(e)
    case Ok(quote) =>
      var view := ViewOf(id, draft, quote);
      var kept := if issuing then WithoutRequests(db.draftRequests, id) else db.draftRequests;
      Ok(Saved(
        db.(drafts := db.drafts[id := draft], draftOfCart := db.draftOfCart[access.cartId := id],
            draftRequests := kept[(id, key) := DraftRequest(requestHash, view)]), view, issued))
  }

  function UpdateExisting(
      db: Db, access: CartAccess, raw: Option<Capability>, key: Key, checkout: CanonicalDraft, now: Time, id: DraftId)
    : Outcome<Saved>
    requires access.cartId in db.carts && id in db.drafts
  {
    var requestHash := Fingerprint(access, checkout);
    var draft := Adopted(db.drafts[id], access, now);
    var adopted := db.(drafts := db.drafts[id := draft]);
    var replay := Lookup(db.draftRequests, (id, key));
    if replay.Some? && access.GuestCart? && !HasGuestAccess(draft, raw, now) then
      if replay.value.requestHash != requestHash then Rejected(IdempotencyConflict)
      else match RecoverCapability(draft, access, key, requestHash)
        case Rejected(e) => Rejected(e)
        case Ok(recovered) => Ok(Saved(adopted, replay.value.response, Some(recovered)))
    else if !HasAccess(draft, access, raw, now) then Rejected(Unauthorized)
    else if replay.Some? then
      if replay.value.requestHash != requestHash then Rejected(IdempotencyConflict)
      else Ok(Saved(adopted, replay.value.response, None))
    else if access.AccountCart? && HasHeldAttempt(adopted, id) then Rejected(DiscountClaimHeld)
    else WriteDraft(adopted, access, key, checkout, now, id, Some(draft), false)
  }

  function SaveDraft(
      db: Db, access: CartAccess, raw: Option<Capability>, key: Key, checkout: CanonicalDraft, now: Time,
      freshId: DraftId): Outcome<Saved>
  {
    if access.GuestCart? && checkout.paymentMethod == CashOnDelivery then Rejected(PaymentUnavailable)
    else if !CartOpen(db, access, now) then Rejected(Unauthorized)
    else match ExistingDraft(db, access.cartId)
      case None => WriteDraft(db, access, key, checkout, now, freshId, None, access.GuestCart?)
      case Some(id) =>
        if IsExpiredGuestDraft(db.drafts[id], access, now)
        then WriteDraft(db, access, key, checkout, now, id, Some(db.drafts[id]), true)
        else UpdateExisting(db, access, raw, key, checkout, now, id)
  }
}
