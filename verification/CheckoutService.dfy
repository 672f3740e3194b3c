/** The checkout draft service as an object over the shared tables. */
module CheckoutService {
  import opened Basics
  import opened Money
  import opened Records
  import opened CheckoutDrafts
  import opened Database

  class Checkout {
    const db: Tables

    constructor (db: Tables)
      ensures this.db == db
    {
      this.db := db;
    }

    /** `buildCheckoutQuote`: one pass over the cart that carries subtotal and status. */
    method BuildQuote(items: seq<CartLine>, at: Time, applyDiscount: bool) returns (quote: Outcome<Quote>)
      ensures quote == CheckoutDrafts.BuildQuote(db.products, items, at, applyDiscount)
    {
      hide CheckoutLineOutcome, LineTotalMinor, AddMoneyMinor, CheckoutPricing;
      var running := Running(0, if items == [] then Empty else Ready);
      ghost var start := running;
      var i := 0;
      while i < |items|
        invariant 0 <= i <= |items|
        invariant QuoteLines(db.products, items, at, start) == QuoteLines(db.products, items[i..], at, running)
      {
        var line := items[i];
        assert items[i..][0] == line && items[i..][1..] == items[i + 1..];
        if line.productId !in db.products || db.products[line.productId].currency != EUR {
          return Rejected(QuoteUnavailable);
        }
        var product := db.products[line.productId];
        var status := running.status;
        if CheckoutLineOutcome(Some(product), line.amount, at) != Available { status := Unavailable; }
        var total := LineTotalMinor(product.priceMinor, line.amount, product.priceBasisAmount);
        if total.Rejected? { return Rejected(QuoteUnavailable); }
        var sum := AddMoneyMinor(running.subtotal, total.value);
        if sum.Rejected? { return Rejected(QuoteUnavailable); }
        running := Running(sum.value, status);
        i := i + 1;
      }
      assert items[i..] == [];
      var pricing := CheckoutPricing(running.subtotal, applyDiscount);
      quote := if pricing.Rejected? then Rejected(QuoteUnavailable) else Ok(Quote(pricing.value, running.status, at));
    }

    /** Drop the replay rows of a draft that starts over. */
    method ForgetRequests(id: DraftId)
      modifies db`draftRequests
      ensures db.draftRequests == WithoutRequests(old(db.draftRequests), id)
    {
      var left := db.draftRequests.Keys;
      while left != {}
        invariant left <= old(db.draftRequests).Keys
        invariant forall k :: k in db.draftRequests <==> k in old(db.draftRequests) && (k in left || k.0 != id)
        invariant forall k :: k in db.draftRequests ==> db.draftRequests[k] == old(db.draftRequests)[k]
        decreases |left|
      {
        var k :| k in left;
        if k.0 == id { db.draftRequests := db.draftRequests - {k}; }
        left := left - {k};
      }
    }

    method WriteDraft(
        access: CartAccess, key: Key, checkout: CanonicalDraft, now: Time, id: DraftId, existing: Option<Draft>,
        issuing: bool) returns (r: Outcome<(DraftView, Option<Capability>)>)
      requires access.cartId in db.carts
      requires issuing ==> access.GuestCart?
      requires !issuing && access.GuestCart? ==> existing.Some?
      modifies db`drafts, db`draftOfCart, db`draftRequests
      ensures var spec := CheckoutDrafts.WriteDraft(old(db.View()), access, key, checkout, now, id, existing, issuing);
              match r
              case Ok((view, issued)) => spec == Ok(Saved(db.View(), view, issued))
              case Rejected(e) => spec == Rejected(e) && db.View() == old(db.View())
    {
      hide CheckoutDrafts.BuildQuote, PreviewDiscount, WithoutRequests;
      var requestHash := Fingerprint(access, checkout);
      var expiresAt := now + GUEST_CHECKOUT_LIFETIME_MS;
      var issued: Option<Capability> := None;
      var capability: Option<StoredCapability> := None;
      if issuing {
        issued := Some(Capability(access.rawToken, key, requestHash, expiresAt));
        capability := Some(StoredCapability(issued.value, expiresAt));
      } else if access.GuestCart? {
        capability := existing.value.capability;
      }
      var draft := Draft(
        access.cartId, AccessOwner(access), if existing.Some? then existing.value.version + 1 else 1, checkout,
        capability,
        if issuing || existing.None? then now else existing.value.createdAt, now);
      var quote := BuildQuote(db.carts[access.cartId].items, now, PreviewDiscount(db.View(), draft));
      if quote.Rejected? { return Rejected(quote.reason); }
      var view := ViewOf(id, draft, quote.value);
      db.drafts := db.drafts[id := draft];
      db.draftOfCart := db.draftOfCart[access.cartId := id];
      if issuing { ForgetRequests(id); }
      db.draftRequests := db.draftRequests[(id, key) := DraftRequest(requestHash, view)];
      r := Ok((view, issued));
    }

    /** Adopt, replay, recover or write: what `saveDraft` does when the cart has a draft that is not expired. */
    method UpdateExisting(
        access: CartAccess, raw: Option<Capability>, key: Key, checkout: CanonicalDraft, now: Time, id: DraftId)
      returns (r: Outcome<(DraftView, Option<Capability>)>)
      requires access.cartId in db.carts && id in db.drafts
      modifies db`drafts, db`draftOfCart, db`draftRequests
      ensures var spec := CheckoutDrafts.UpdateExisting(old(db.View()), access, raw, key, checkout, now, id);
              match r
              case Ok((view, issued)) => spec == Ok(Saved(db.View(), view, issued))
              case Rejected(e) => spec == Rejected(e)
    {
      hide CheckoutDrafts.WriteDraft, HasHeldAttempt, HasGuestAccess, HasAccess;
      var requestHash := Fingerprint(access, checkout);
      var draft := Adopted(db.drafts[id], access, now);
      db.drafts := db.drafts[id := draft];
      var replay := Lookup(db.draftRequests, (id, key));
      if replay.Some? && access.GuestCart? && !HasGuestAccess(draft, raw, now) {
        if replay.value.requestHash != requestHash { return Rejected(IdempotencyConflict); }
        var recovered := RecoverCapability(draft, access, key, requestHash);
        return if recovered.Ok? then Ok((replay.value.response, Some(recovered.value))) else Rejected(recovered.reason);
      }
      if !HasAccess(draft, access, raw, now) { return Rejected(Unauthorized); }
      if replay.Some? {
        return if replay.value.requestHash == requestHash then Ok((replay.value.response, None))
               else Rejected(IdempotencyConflict);
      }
      if access.AccountCart? && HasHeldAttempt(db.View(), id) { return Rejected(DiscountClaimHeld); }
      r := WriteDraft(access, key, checkout, now, id, Some(draft), false);
    }

    /** `saveDraft`, one transaction. */
    method SaveDraft(
        access: CartAccess, raw: Option<Capability>, key: Key, checkout: CanonicalDraft, now: Time, freshId: DraftId)
      returns (r: Outcome<(DraftView, Option<Capability>)>)
      modifies db
      ensures var spec := CheckoutDrafts.SaveDraft(old(db.View()), access, raw, key, checkout, now, freshId);
              match r
              case Ok((view, issued)) => spec == Ok(Saved(db.View(), view, issued))
              case Rejected(e) => spec == Rejected(e) && db.View() == old(db.View())
    {
      hide CheckoutDrafts.WriteDraft, CheckoutDrafts.UpdateExisting;
      if access.GuestCart? && checkout.paymentMethod == CashOnDelivery { return Rejected(PaymentUnavailable); }
      if !CartOpen(db.View(), access, now) { return Rejected(Unauthorized); }
      var existing := ExistingDraft(db.View(), access.cartId);
      if existing.None? {
        r := WriteDraft(access, key, checkout, now, freshId, None, access.GuestCart?);
      } else if IsExpiredGuestDraft(db.drafts[existing.value], access, now) {
        r := WriteDraft(access, key, checkout, now, existing.value, Some(db.drafts[existing.value]), true);
      } else {
        var saved := db.View();
        r := UpdateExisting(access, raw, key, checkout, now, existing.value);
        if r.Rejected? { db.Rollback(saved); }
      }
    }
  }
}
