/** Saving a draft twice is saving it once, over whole runs; and what a guest capability can and cannot do. */
module DraftIdempotency {
  import opened Basics
  import opened Records
  import opened PaymentAttempts
  import opened CashOrders
  import opened CheckoutDrafts
  import opened Protocol
  import opened ProtocolSafety
  import opened ProtocolRuns
  import opened Evolution

  // ----- What no step does to a draft, unless it reissues an expired guest draft -----

  ghost predicate RowKept(x: Draft, y: Draft) {
    && y.cartId == x.cartId && x.version <= y.version
    && (y.version == x.version ==> y.checkout == x.checkout)
    && (x.userId.Some? ==> y.userId == x.userId)
    && (y.userId.None? ==> y.capability == x.capability)
  }

  ghost predicate RequestsKept(x: map<(DraftId, Key), DraftRequest>, y: map<(DraftId, Key), DraftRequest>,
      id: DraftId)
  {
    forall k: Key :: (id, k) in x ==> (id, k) in y && y[(id, k)] == x[(id, k)]
  }

  ghost predicate DraftKept(x: Db, y: Db, id: DraftId) {
    id in x.drafts ==>
      && id in y.drafts && RowKept(x.drafts[id], y.drafts[id])
      && RequestsKept(x.draftRequests, y.draftRequests, id)
  }

  lemma DraftKeptOn(x: Db, y: Db, z: Db, id: DraftId)
    requires DraftKept(x, y, id) && DraftKept(y, z, id)
    ensures DraftKept(x, z, id)
  {
  }

  lemma SameDrafts(x: Db, y: Db, id: DraftId)
    requires y.drafts == x.drafts && y.draftRequests == x.draftRequests
    ensures DraftKept(x, y, id)
  {
  }

  /** The step starts a guest's expired draft over, with a new capability and an empty replay table. */
  predicate Reissues(db: Db, step: Step, id: DraftId) {
    && step.SaveDraftStep? && id in db.drafts && db.drafts[id].cartId == step.access.cartId
    && IsExpiredGuestDraft(db.drafts[id], step.access, step.now)
  }

  lemma WriteKeepsDraft(
      db: Db, access: CartAccess, key: Key, checkout: CanonicalDraft, now: Time, id: DraftId, existing: Option<Draft>,
      issuing: bool, other: DraftId)
    requires access.cartId in db.carts
    requires issuing ==> access.GuestCart?
    requires !issuing && access.GuestCart? ==> existing.Some?
    requires other == id && id in db.drafts ==>
      && !issuing && existing == Some(db.drafts[id]) && db.drafts[id].cartId == access.cartId
      && db.drafts[id].userId == AccessOwner(access) && (id, key) !in db.draftRequests
    ensures WriteDraft(db, access, key, checkout, now, id, existing, issuing).Ok? ==>
      DraftKept(db, WriteDraft(db, access, key, checkout, now, id, existing, issuing).value.db, other)
  {
    hide BuildQuote, PreviewDiscount;
  }

  lemma UpdateKeepsDraft(db: Db, access: CartAccess, raw: Option<Capability>, key: Key, checkout: CanonicalDraft,
                         now: Time, id: DraftId, other: DraftId)
    requires access.cartId in db.carts && id in db.drafts && db.drafts[id].cartId == access.cartId
    requires UpdateExisting(db, access, raw, key, checkout, now, id).Ok?
    ensures DraftKept(db, UpdateExisting(db, access, raw, key, checkout, now, id).value.db, other)
  {
    hide WriteDraft, HasHeldAttempt, DraftKept;
    var draft := Adopted(db.drafts[id], access, now);
    var adopted := db.(drafts := db.drafts[id := draft]);
    assert DraftKept(db, adopted, other) by { AdoptionKeepsDraft(db, access, now, id, other); }
    if UpdateExisting(db, access, raw, key, checkout, now, id)
       == WriteDraft(adopted, access, key, checkout, now, id, Some(draft), false)
       && HasAccess(draft, access, raw, now) && Lookup(db.draftRequests, (id, key)).None?
    {
      WriteKeepsDraft(adopted, access, key, checkout, now, id, Some(draft), false, other);
      DraftKeptOn(db, adopted, WriteDraft(adopted, access, key, checkout, now, id, Some(draft), false).value.db, other);
    }
  }

  lemma AdoptionKeepsDraft(db: Db, access: CartAccess, now: Time, id: DraftId, other: DraftId)
    requires id in db.drafts
    ensures DraftKept(db, db.(drafts := db.drafts[id := Adopted(db.drafts[id], access, now)]), other)
  {
  }

  lemma SaveKeepsDraft(db: Db, access: CartAccess, raw: Option<Capability>, key: Key, checkout: CanonicalDraft,
                       now: Time, freshId: DraftId, id: DraftId)
    requires DraftsOk(db.drafts, db.draftOfCart, db.carts) && freshId !in db.drafts
    requires SaveDraft(db, access, raw, key, checkout, now, freshId).Ok?
    requires id in db.drafts && db.drafts[id].cartId == access.cartId ==>
      !IsExpiredGuestDraft(db.drafts[id], access, now)
    ensures DraftKept(db, SaveDraft(db, access, raw, key, checkout, now, freshId).value.db, id)
  {
    hide WriteDraft, UpdateExisting, DraftKept;
    match ExistingDraft(db, access.cartId) {
      case None => WriteKeepsDraft(db, access, key, checkout, now, freshId, None, access.GuestCart?, id);
      case Some(e) =>
        if IsExpiredGuestDraft(db.drafts[e], access, now) {
          WriteKeepsDraft(db, access, key, checkout, now, e, Some(db.drafts[e]), true, id);
        } else {
          UpdateKeepsDraft(db, access, raw, key, checkout, now, e, id);
        }
    }
  }

  lemma StepKeepsDraft(w: World, step: Step, id: DraftId)
    requires Inv(w) && !Reissues(w.db, step, id)
    ensures DraftKept(w.db, Next(w, step).db, id)
  {
    hide DraftKept, Next, Prepare, CreateCashOrder, SaveDraft, IsExpiredGuestDraft;
    hide CasesOk, KeysOk, OrderIndexOk, AttemptsOwned, CartsOk, CatalogueOk, OrdersOk;
    SameDrafts(w.db, w.db, id);
    CommittedDb(w, step);
    match step {
      case PrepareStep(input, now) =>
        PrepareWrites(w.db, input, now);
        if Prepare(w.db, input, now).Ok? {
          SameDrafts(w.db, Prepare(w.db, input, now).value.db, id);
        }
      case CashOrderStep(context, checkout, now) =>
        CashOrderWrites(w, context, checkout, now);
        if CreateCashOrder(w.db, context, checkout, now).Ok? {
          SameDrafts(w.db, CreateCashOrder(w.db, context, checkout, now).value.db, id);
        }
      case SaveDraftStep(access, raw, key, draft, now, freshId) =>
        if freshId !in w.db.drafts && SaveDraft(w.db, access, raw, key, draft, now, freshId).Ok? {
          SaveKeepsDraft(w.db, access, raw, key, draft, now, freshId, id);
        }
      case _ =>
        OtherStepsLeaveDrafts(w, step);
        SameDrafts(w.db, Next(w, step).db, id);
    }
  }

  lemma OtherStepsLeaveDrafts(w: World, step: Step)
    requires !step.PrepareStep? && !step.CashOrderStep? && !step.SaveDraftStep?
    ensures Next(w, step).db.drafts == w.db.drafts && Next(w, step).db.draftRequests == w.db.draftRequests
  {
    hide Next;
    if IsCardStep(step) {
      CardStepRows(w, step);
    } else if IsProviderStep(step) {
      ProviderLeavesDb(w, step);
    } else {
      EditWritesThreeTables(w, step);
    }
  }

  /**
   * While a guest capability is live it is never extended or replaced: after any step at that time the draft has the
   * very same capability, unless logging in has moved the draft to an account. Owned drafts never change owner.
   */
  lemma LiveCapabilityIsNeverExtended(w: World, step: Step, id: DraftId)
    requires Reachable(w) && id in w.db.drafts
    requires w.db.drafts[id].capability.Some? && step.SaveDraftStep? ==>
      step.now < w.db.drafts[id].capability.value.expiresAt
    ensures id in Next(w, step).db.drafts
    ensures Next(w, step).db.drafts[id].userId.None? ==>
      Next(w, step).db.drafts[id].capability == w.db.drafts[id].capability
    ensures w.db.drafts[id].userId.Some? ==> Next(w, step).db.drafts[id].userId == w.db.drafts[id].userId
  {
    hide Inv, Next, Reachable;
    ReachableHolds(w);
    StepKeepsDraft(w, step, id);
  }

  // ----- Replays -----

  /** A repeated save changes neither fields nor version and answers with the first quote; another body conflicts. */
  lemma ReplayedSaveChangesNothing(
      db: Db, access: CartAccess, raw: Option<Capability>, key: Key, checkout: CanonicalDraft, now: Time,
      freshId: DraftId, id: DraftId)
    requires CartOpen(db, access, now) && ExistingDraft(db, access.cartId) == Some(id) && (id, key) in db.draftRequests
    requires !(access.GuestCart? && checkout.paymentMethod == CashOnDelivery)
    requires !IsExpiredGuestDraft(db.drafts[id], access, now)
    requires HasAccess(Adopted(db.drafts[id], access, now), access, raw, now)
    ensures var r := SaveDraft(db, access, raw, key, checkout, now, freshId);
            && (r.Ok? <==> db.draftRequests[(id, key)].requestHash == Fingerprint(access, checkout))
            && (r.Rejected? ==> r.reason == IdempotencyConflict)
            && (r.Ok? ==>
                  && r.value.view == db.draftRequests[(id, key)].response && r.value.issued.None?
                  && id in r.value.db.drafts
                  && r.value.db.drafts[id].checkout == db.drafts[id].checkout
                  && r.value.db.drafts[id].version == db.drafts[id].version
                  && r.value.db == db.(drafts := r.value.db.drafts)
                  && (db.drafts[id].userId.Some? || access.GuestCart? ==> r.value.db == db))
  {
    hide WriteDraft, HasHeldAttempt;
    if access.GuestCart? || db.drafts[id].userId.Some? {
      assert db.drafts[id := db.drafts[id]] == db.drafts;
    }
  }

  /** Without access, a guest gets a capability back only by repeating the very request that issued it. */
  lemma OnlyTheIssuerRecovers(
      db: Db, access: CartAccess, raw: Option<Capability>, key: Key, checkout: CanonicalDraft, now: Time,
      freshId: DraftId, id: DraftId)
    requires ExistingDraft(db, access.cartId) == Some(id)
    requires access.GuestCart? && !IsExpiredGuestDraft(db.drafts[id], access, now)
    requires !HasGuestAccess(db.drafts[id], raw, now)
    requires SaveDraft(db, access, raw, key, checkout, now, freshId).Ok?
    ensures db.drafts[id].capability.Some?
    ensures var stored := db.drafts[id].capability.value;
            && stored.digest == Capability(access.rawToken, key, Fingerprint(access, checkout), stored.expiresAt)
            && SaveDraft(db, access, raw, key, checkout, now, freshId).value.issued == Some(stored.digest)
            && SaveDraft(db, access, raw, key, checkout, now, freshId).value.db == db
  {
    hide WriteDraft, HasHeldAttempt;
    assert db.drafts[id := db.drafts[id]] == db.drafts;
  }

  // ----- Over whole runs -----

  predicate SavesBefore(steps: seq<Step>, limit: Time) {
    forall i :: 0 <= i < |steps| ==> steps[i].SaveDraftStep? ==> steps[i].now < limit
  }

  /** The draft still holds this capability (unless an account owns it) and this answer. */
  ghost predicate Remembers(db: Db, id: DraftId, cartId: CartId, stored: StoredCapability, key: Key,
      request: DraftRequest)
  {
    && id in db.drafts && db.drafts[id].cartId == cartId
    && (db.drafts[id].userId.None? ==> db.drafts[id].capability == Some(stored))
    && (id, key) in db.draftRequests && db.draftRequests[(id, key)] == request
  }

  lemma {:induction false} RunRemembers(
      w: World, steps: seq<Step>, id: DraftId, cartId: CartId, stored: StoredCapability, key: Key,
      request: DraftRequest)
    requires Inv(w) && Remembers(w.db, id, cartId, stored, key, request) && SavesBefore(steps, stored.expiresAt)
    ensures Inv(Run(w, steps)) && Remembers(Run(w, steps).db, id, cartId, stored, key, request)
    decreases |steps|
  {
    hide Inv, Next;
    if steps != [] {
      KeepsStep(w, steps[0]);
      StepKeepsDraft(w, steps[0], id);
      RunRemembers(Next(w, steps[0]), steps[1..], id, cartId, stored, key, request);
    }
  }

  /** A save that issues a capability: a new guest draft, or an expired one started over. */
  predicate Issues(db: Db, access: CartAccess, now: Time) {
    access.GuestCart?
    && (ExistingDraft(db, access.cartId).None?
        || IsExpiredGuestDraft(db.drafts[ExistingDraft(db, access.cartId).value], access, now))
  }

  lemma IssuedIsRemembered(w: World, access: CartAccess, raw: Option<Capability>, key: Key, checkout: CanonicalDraft,
                           now: Time, freshId: DraftId) returns (id: DraftId)
    requires Inv(w) && freshId !in w.db.drafts && Issues(w.db, access, now)
    requires SaveDraft(w.db, access, raw, key, checkout, now, freshId).Ok?
    ensures var saved := SaveDraft(w.db, access, raw, key, checkout, now, freshId).value;
            && saved.issued.Some?
            && saved.issued.value
                 == Capability(access.rawToken, key, Fingerprint(access, checkout), now + GUEST_CHECKOUT_LIFETIME_MS)
            && Remembers(saved.db, id, access.cartId,
                         StoredCapability(saved.issued.value, saved.issued.value.expiresAt),
                         key, DraftRequest(Fingerprint(access, checkout), saved.view))
            && id in saved.db.drafts && saved.db.drafts[id].userId.None?
  {
    hide BuildQuote, PreviewDiscount, UpdateExisting, CasesOk, KeysOk, OrderIndexOk, CartsOk, CatalogueOk, OrdersOk;
    var existing := ExistingDraft(w.db, access.cartId);
    id := if existing.Some? then existing.value else freshId;
  }

  lemma RememberedAnswer(
      db: Db, access: CartAccess, key: Key, checkout: CanonicalDraft, now: Time, freshId: DraftId, id: DraftId,
      stored: StoredCapability, view: DraftView)
    requires access.GuestCart? && checkout.paymentMethod != CashOnDelivery
    requires ExistingDraft(db, access.cartId) == Some(id) && CartOpen(db, access, now) && now < stored.expiresAt
    requires stored.digest == Capability(access.rawToken, key, Fingerprint(access, checkout), stored.expiresAt)
    requires Remembers(db, id, access.cartId, stored, key, DraftRequest(Fingerprint(access, checkout), view))
    requires db.drafts[id].userId.None?
    ensures SaveDraft(db, access, None, key, checkout, now, freshId) == Ok(Saved(db, view, Some(stored.digest)))
  {
    hide WriteDraft, HasHeldAttempt;
    assert db.drafts[id := db.drafts[id]] == db.drafts;
  }

  lemma ExistingIsOwn(w: World, id: DraftId)
    requires Inv(w) && id in w.db.drafts
    ensures ExistingDraft(w.db, w.db.drafts[id].cartId) == Some(id)
  {
    hide CasesOk, KeysOk, OrderIndexOk, AttemptsOwned, CartsOk, CatalogueOk, OrdersOk;
  }

  /**
   * The guest whose save issued a capability can lose it and get it back: at any later point of any run in which drafts
   * are only saved before it expires, repeating the same request without it answers with the same quote and the same
   * capability, and writes nothing, as long as no account has taken the draft over.
   */
  lemma IssuerAlwaysRecovers(
      w: World, access: CartAccess, raw: Option<Capability>, key: Key, checkout: CanonicalDraft, now: Time,
      freshId: DraftId, steps: seq<Step>, later: Time, laterId: DraftId) returns (id: DraftId)
    requires Reachable(w) && freshId !in w.db.drafts && Issues(w.db, access, now)
    requires SaveDraft(w.db, access, raw, key, checkout, now, freshId).Ok?
    requires SavesBefore(steps, now + GUEST_CHECKOUT_LIFETIME_MS) && later < now + GUEST_CHECKOUT_LIFETIME_MS
    ensures var w' := Run(Next(w, SaveDraftStep(access, raw, key, checkout, now, freshId)), steps);
            var first := SaveDraft(w.db, access, raw, key, checkout, now, freshId).value;
            id in w'.db.drafts
            && (w'.db.drafts[id].userId.None? && CartOpen(w'.db, access, later) ==>
                  SaveDraft(w'.db, access, None, key, checkout, later, laterId)
                    == Ok(Saved(w'.db, first.view, first.issued)))
  {
    hide Inv, Next, SaveDraft, Issues, Remembers, Reachable;
    ReachableHolds(w);
    id := IssuedIsRemembered(w, access, raw, key, checkout, now, freshId);
    var step := SaveDraftStep(access, raw, key, checkout, now, freshId);
    var first := SaveDraft(w.db, access, raw, key, checkout, now, freshId).value;
    var stored := StoredCapability(first.issued.value, first.issued.value.expiresAt);
    var request := DraftRequest(Fingerprint(access, checkout), first.view);
    KeepsStep(w, step);
    SavedStep(w, step);
    RunRemembers(Next(w, step), steps, id, access.cartId, stored, key, request);
    RecoveredLater(Run(Next(w, step), steps), access, key, checkout, later, laterId, id, stored, first.view);
    SavableMethod(w.db, access, raw, key, checkout, now, freshId);
  }

  lemma SavedStep(w: World, step: Step)
    requires step.SaveDraftStep? && step.freshId !in w.db.drafts
    requires SaveDraft(w.db, step.access, step.raw, step.key, step.draft, step.now, step.freshId).Ok?
    ensures Next(w, step).db
         == SaveDraft(w.db, step.access, step.raw, step.key, step.draft, step.now, step.freshId).value.db
  {
    hide SaveDraft;
  }

  lemma SavableMethod(db: Db, access: CartAccess, raw: Option<Capability>, key: Key, checkout: CanonicalDraft,
                      now: Time, freshId: DraftId)
    requires Issues(db, access, now) && SaveDraft(db, access, raw, key, checkout, now, freshId).Ok?
    ensures access.GuestCart? && checkout.paymentMethod != CashOnDelivery
  {
    hide WriteDraft, UpdateExisting;
  }

  lemma RecoveredLater(
      w: World, access: CartAccess, key: Key, checkout: CanonicalDraft, later: Time, laterId: DraftId, id: DraftId,
      stored: StoredCapability, view: DraftView)
    requires Inv(w) && later < stored.expiresAt
    requires access.GuestCart? ==>
      stored.digest == Capability(access.rawToken, key, Fingerprint(access, checkout), stored.expiresAt)
    requires Remembers(w.db, id, access.cartId, stored, key, DraftRequest(Fingerprint(access, checkout), view))
    ensures id in w.db.drafts
    ensures w.db.drafts[id].userId.None? && CartOpen(w.db, access, later) && access.GuestCart?
            && checkout.paymentMethod != CashOnDelivery ==>
      SaveDraft(w.db, access, None, key, checkout, later, laterId) == Ok(Saved(w.db, view, Some(stored.digest)))
  {
    hide Inv, SaveDraft, CartOpen;
    ExistingIsOwn(w, id);
    if w.db.drafts[id].userId.None? && CartOpen(w.db, access, later) && access.GuestCart?
       && checkout.paymentMethod != CashOnDelivery
    {
      RememberedAnswer(w.db, access, key, checkout, later, laterId, id, stored, view);
    }
  }
}
