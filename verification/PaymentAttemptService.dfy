/**
 * The payment attempt service as an object over the shared tables. Every method is one transaction, or the part of one
 * that another service runs; when it throws, the caller's transaction restores the tables.
 */
module PaymentAttemptService {
  import opened Basics
  import opened Money
  import opened Records
  import opened PaymentAttempts
  import opened Database

  /** The lines already sealed, in front of what sealing the remaining ones gives. */
  function SealedSoFar(lines: seq<Line>, rest: Outcome<PricedLines>): Outcome<PricedLines> {
    match rest
    case Ok(r) => Ok(PricedLines(lines + r.lines, r.subtotal))
    case Rejected(e) => Rejected(e)
  }

  datatype SealedLine = SealedLine(line: Line, subtotal: int)

  /** One round of the sealing loop: the line, and the subtotal with it. */
  function SealOne(products: map<ProductId, Product>, line: CartLine, now: Time, subtotal: int): Outcome<SealedLine> {
    if CheckoutLineOutcome(Lookup(products, line.productId), line.amount, now) != Available
    then Rejected(AttemptUnavailable)
    else
      var priced := PriceLine(products[line.productId], line);
      if priced.Rejected? then Rejected(priced.reason)
      else
        var sum := AddMoneyMinor(subtotal, priced.value.lineTotalMinor);
        if sum.Rejected? then Rejected(sum.reason) else Ok(SealedLine(priced.value, sum.value))
  }

  lemma SealNext(products: map<ProductId, Product>, lines: seq<CartLine>, now: Time, subtotal: int, items: seq<Line>)
    requires lines != []
    ensures SealOne(products, lines[0], now, subtotal).Rejected? ==>
      SealedSoFar(items, SealLines(products, lines, now, subtotal))
        == Rejected(SealOne(products, lines[0], now, subtotal).reason)
    ensures SealOne(products, lines[0], now, subtotal).Ok? ==>
      SealedSoFar(items, SealLines(products, lines, now, subtotal))
        == SealedSoFar(items + [SealOne(products, lines[0], now, subtotal).value.line],
                       SealLines(products, lines[1..], now, SealOne(products, lines[0], now, subtotal).value.subtotal))
  {
    var one := SealOne(products, lines[0], now, subtotal);
    hide PriceLine, AddMoneyMinor, LineTotalMinor, IsValidOrderAmount;
    if one.Ok? {
      var rest := SealLines(products, lines[1..], now, one.value.subtotal);
      assert rest.Ok? ==>
        items + ([one.value.line] + rest.value.lines) == (items + [one.value.line]) + rest.value.lines;
    }
  }

  lemma NothingSealed(r: Outcome<PricedLines>)
    ensures SealedSoFar([], r) == r
  {
    if r.Ok? { assert [] + r.value.lines == r.value.lines; }
  }

  lemma AllSealed(products: map<ProductId, Product>, now: Time, subtotal: int, items: seq<Line>)
    ensures SealedSoFar(items, SealLines(products, [], now, subtotal)) == Ok(PricedLines(items, subtotal))
  {
    assert items + [] == items;
  }

  class Attempts {
    const db: Tables

    constructor (db: Tables)
      ensures this.db == db
    {
      this.db := db;
    }

    /** Snapshot each cart line and accumulate the subtotal. */
    method SealItems(lines: seq<CartLine>, now: Time) returns (sealed: Outcome<PricedLines>)
      ensures sealed == SealLines(db.products, lines, now, 0)
    {
      hide SealOne, SealLines;
      var items: seq<Line> := [];
      var subtotal := 0;
      var i := 0;
      assert lines[0..] == lines;
      assert SealedSoFar([], SealLines(db.products, lines, now, 0)) == SealLines(db.products, lines, now, 0) by {
        NothingSealed(SealLines(db.products, lines, now, 0));
      }
      while i < |lines|
        invariant 0 <= i <= |lines|
        invariant SealLines(db.products, lines, now, 0)
               == SealedSoFar(items, SealLines(db.products, lines[i..], now, subtotal))
      {
        var line := lines[i];
        assert lines[i..][0] == line && lines[i..][1..] == lines[i + 1..];
        SealNext(db.products, lines[i..], now, subtotal, items);
        var one := SealOne(db.products, line, now, subtotal);
        if one.Rejected? { return Rejected(one.reason); }
        items := items + [one.value.line];
        subtotal := one.value.subtotal;
        i := i + 1;
      }
      assert lines[i..] == [];
      AllSealed(db.products, now, subtotal, items);
      sealed := Ok(PricedLines(items, subtotal));
    }

    /** The write half of `prepare`: price the cart, decide the discount, store attempt and claim. */
    method CreateAttempt(input: PrepareInput, draft: Draft, requestHash: AttemptFingerprint, now: Time)
      returns (r: Outcome<AttemptId>)
      requires draft.cartId in db.carts
      modifies db`attempts, db`claims
      ensures var spec := SealAttempt(old(db.View()), input, draft, requestHash, now);
              match r
              case Ok(id) => spec == Ok(WithId(db.View(), id))
              case Rejected(e) => spec == Rejected(e) && db.View() == old(db.View())
    {
      var lines := CartByProduct(db.carts[draft.cartId].items);
      if lines == [] || !CartProductsExist(db.products, lines) { return Rejected(AttemptUnavailable); }
      var sealed := SealItems(lines, now);
      if sealed.Rejected? { return Rejected(sealed.reason); }
      var applyDiscount := false;
      if input.principal.Account? {
        var claimable := CanClaimFirstPurchase(db.View(), input.principal.userId);
        if claimable.Rejected? { return Rejected(claimable.reason); }
        applyDiscount := claimable.value;
      }
      var pricing := CheckoutPricing(sealed.value.subtotal, applyDiscount);
      if pricing.Rejected? { return Rejected(pricing.reason); }
      var id := |db.attempts|;
      db.attempts := db.attempts + [Attempt(
        input.draftId, draft.version, Owner(input.principal), input.key, requestHash, draft.checkout.contact,
        EUR, pricing.value, sealed.value.lines, now, Prepared, None, None, None, None, now)];
      if applyDiscount { db.claims := db.claims[id := Claim(input.principal.userId, now, Claimed, None)]; }
      r := Ok(id);
    }

    /** `prepare` */
    method Prepare(input: PrepareInput, now: Time) returns (r: Outcome<AttemptId>)
      modifies db`attempts, db`claims
      ensures var spec := PaymentAttempts.Prepare(old(db.View()), input, now);
              match r
              case Ok(id) => spec == Ok(WithId(db.View(), id))
              case Rejected(e) => spec == Rejected(e) && db.View() == old(db.View())
    {
      hide SealAttempt;
      if input.draftId !in db.drafts || db.drafts[input.draftId].cartId != input.cartId {
        return Rejected(Unauthorized);
      }
      if input.principal.Account? && input.principal.userId !in db.activeUsers { return Rejected(Unauthorized); }
      if input.cartId !in db.carts { return Rejected(Unauthorized); }
      var draft := db.drafts[input.draftId];
      if draft.userId != Owner(input.principal) || db.carts[input.cartId].userId != Owner(input.principal) {
        return Rejected(Unauthorized);
      }
      if input.principal.Guest? && !VerifyCapability(input.capability, draft.capability, now) {
        return Rejected(Unauthorized);
      }
      if draft.checkout.paymentMethod != StripeDebitCard { return Rejected(AttemptUnavailable); }
      var requestHash := AttemptFingerprint(input.draftId, draft.version, Owner(input.principal));
      var existing := FindAttempt(db.attempts, input.draftId, input.key);
      if existing.Some? {
        return if db.attempts[existing.value].requestHash == requestHash then Ok(existing.value)
               else Rejected(IdempotencyConflict);
      }
      r := CreateAttempt(input, draft, requestHash, now);
    }

    /** `updateMany` with a status guard: a finished attempt matches no row. */
    method MarkReconciliation(id: AttemptId, now: Time)
      modifies db`attempts
      ensures db.View() == PaymentAttempts.MarkReconciliation(old(db.View()), id, now)
    {
      if id < |db.attempts| && IsActive(db.attempts[id].status) {
        db.attempts := db.attempts[id := db.attempts[id].(status := ReconciliationRequired, updatedAt := now)];
      }
    }

    method MarkPending(id: AttemptId, reference: PaymentReference, now: Time) returns (r: Outcome<()>)
      modifies db`attempts
      ensures var spec := PaymentAttempts.MarkPending(old(db.View()), id, reference, now);
              if r.Ok? then spec == Ok(db.View()) else spec == Rejected(r.reason) && db.View() == old(db.View())
    {
      if id >= |db.attempts| { return Rejected(AttemptUnavailable); }
      var attempt := db.attempts[id];
      if attempt.reference.Some? && attempt.reference != Some(reference) { return Rejected(AttemptUnavailable); }
      if attempt.reference == Some(reference) && attempt.status == Pending { return Ok(()); }
      if !IsActive(attempt.status) { return Rejected(AttemptUnavailable); }
      db.attempts := db.attempts[id := attempt.(
        pendingAt := Some(now), reference := Some(reference), status := Pending, updatedAt := now)];
      r := Ok(());
    }

    method MarkProviderSessionCreated(id: AttemptId, session: SessionId, expiresAt: Time, now: Time)
      returns (r: Outcome<()>)
      modifies db`attempts
      ensures var spec := PaymentAttempts.MarkProviderSessionCreated(old(db.View()), id, session, expiresAt, now);
              if r.Ok? then spec == Ok(db.View()) else spec == Rejected(r.reason) && db.View() == old(db.View())
    {
      if id >= |db.attempts| { return Rejected(AttemptUnavailable); }
      var stored := db.attempts[id];
      if stored.sessionId.Some? {
        if stored.sessionId != Some(session) || stored.sessionExpiresAt != Some(expiresAt) {
          return Rejected(AttemptUnavailable);
        }
      } else if stored.sessionExpiresAt.Some? {
        return Rejected(AttemptUnavailable);
      }
      if !IsActive(stored.status) { return Rejected(AttemptUnavailable); }
      db.attempts := db.attempts[id := stored.(
        pendingAt := OrElse(stored.pendingAt, now), sessionExpiresAt := Some(expiresAt),
        sessionId := Some(session), status := Pending, updatedAt := now)];
      r := Ok(());
    }

    /** `releasePaymentAttemptDefinitiveOutcome` */
    method ReleaseDefinitiveOutcome(id: AttemptId, outcome: DefinitiveOutcome, now: Time) returns (r: Outcome<()>)
      modifies db`attempts, db`claims
      ensures var spec := PaymentAttempts.ReleaseDefinitiveOutcome(old(db.View()), id, outcome, now);
              if r.Ok? then spec == Ok(db.View()) else spec == Rejected(r.reason) && db.View() == old(db.View())
    {
      if id >= |db.attempts| { return Rejected(AttemptUnavailable); }
      var attempt := db.attempts[id];
      var status := if outcome.FailedOutcome? then DefinitivelyFailed else Cancelled;
      if !IsActive(attempt.status) {
        return if attempt.status == status then Ok(()) else Rejected(AttemptUnavailable);
      }
      db.attempts := db.attempts[id := attempt.(status := status, updatedAt := now)];
      if id in db.claims && db.claims[id].status == Claimed {
        db.claims := db.claims[id := db.claims[id].(status := ClaimReleased)];
      }
      r := Ok(());
    }

    /** `markPaymentAttemptSucceeded`; on a rejection the attempt row may already be written. */
    method MarkSucceeded(id: AttemptId, orderId: OrderId, now: Time) returns (r: Outcome<()>)
      modifies db`attempts, db`claims
      ensures var spec := PaymentAttempts.MarkSucceeded(old(db.View()), id, orderId, now);
              if r.Ok? then spec == Ok(db.View()) else spec == Rejected(r.reason)
    {
      hide SuccessfulOrderMatchesAttempt;
      if id >= |db.attempts| || orderId >= |db.orders| { return Rejected(AttemptUnavailable); }
      var attempt := db.attempts[id];
      if !SuccessfulOrderMatchesAttempt(db.orders[orderId], attempt, id) { return Rejected(AttemptUnavailable); }
      if attempt.status == Succeeded {
        if attempt.pricing.discountKind == NoDiscount { return Ok(()); }
        var consumed :=
          id in db.claims && db.claims[id].status == Consumed && db.claims[id].consumedOrderId == Some(orderId);
        return if consumed then Ok(()) else Rejected(AttemptUnavailable);
      }
      if attempt.status != Pending && attempt.status != ReconciliationRequired { return Rejected(AttemptUnavailable); }
      db.attempts := db.attempts[id := attempt.(status := Succeeded, updatedAt := now)];
      if attempt.pricing.discountKind == NoDiscount { return Ok(()); }
      if id !in db.claims || db.claims[id].status != Claimed { return Rejected(AttemptUnavailable); }
      db.claims := db.claims[id := db.claims[id].(status := Consumed, consumedOrderId := Some(orderId))];
      r := Ok(());
    }
  }
}
