/** Concrete runs in which late, lost or reordered answers leave an attempt in an unforeseen state. */
module LateEvents {
  import opened Basics
  import opened Money
  import opened Records
  import opened PaymentAttempts
  import opened StripePayments
  import opened CheckoutDrafts
  import opened Protocol
  import opened CaptureSafety
  import opened Reconciliation
  import opened StorageChecks

  // the one attempt, its session and its intent; the one product and cart
  const ID: AttemptId := 0
  const SESSION_ID: SessionId := 11
  const REFERENCE: PaymentReference := 21
  const PRODUCT_ID: ProductId := 0
  const CART_ID: CartId := 0

  const PRODUCT := Product(0, Labels("", "", Each), EUR, true, None, None, AmountRules(None, 1, 1, Kit), 100, 1, 5)
  const CART := Cart(None, 7, 1_000, [CartLine(0, 1)])
  const CHECKOUT := CanonicalDraft(StripeDebitCard, 3)
  const ACCESS := GuestCart(0, 7)
  const CAPABILITY := Capability(7, 1, DraftFingerprint(0, None, CHECKOUT), 86_400_000)
  const DRAFT := Draft(0, None, 1, CHECKOUT, Some(StoredCapability(CAPABILITY, 86_400_000)), 0, 0)
  const PRICING := Pricing(NoDiscount, 0, 0, 100, 500, 600)
  const LINE := Line(0, 0, Labels("", "", Each), Kit, 100, 1, 1, 100)
  const ATTEMPT := Attempt(
    0, 1, None, 9, AttemptFingerprint(0, 1, None), 3, EUR, PRICING, [LINE], 0, Prepared, None, None, None, None, 0)

  const STOCKED := EMPTY_DB.(products := map[0 := PRODUCT])
  const FILLED := STOCKED.(carts := map[0 := CART])
  const VIEW := DraftView(Quote(PRICING, Ready, 0), CHECKOUT, Some(86_400_000), 0, 0)
  const DRAFTED := FILLED.(
    drafts := map[0 := DRAFT], draftOfCart := map[0 := 0],
    draftRequests := map[(0, 1) := DraftRequest(DraftFingerprint(0, None, CHECKOUT), VIEW)])
  const PREPARED := DRAFTED.(attempts := [ATTEMPT])

  lemma SamplePrices()
    ensures LineTotalMinor(100, 1, 1) == Ok(100)
    ensures CheckoutPricing(100, false) == Ok(PRICING)
    ensures IsValidOrderAmount(1, PRODUCT.rules)
  {
    LineTotalIsNearestCent(100, 1, 1, 100);
  }

  lemma SampleLines()
    ensures QuoteLines(map[0 := PRODUCT], [CartLine(0, 1)], 0, Running(0, Ready)) == Ok(Running(100, Ready))
  {
    hide LineTotalMinor, CheckoutPricing, IsValidOrderAmount;
    SamplePrices();
    var items := [CartLine(0, 1)];
    assert items[1..] == [];
    assert QuoteLines(map[0 := PRODUCT], [], 0, Running(100, Ready)) == Ok(Running(100, Ready));
    assert AddMoneyMinor(0, 100) == Ok(100);
    assert CheckoutLineOutcome(Some(PRODUCT), 1, 0) == Available;
  }

  lemma SampleQuote()
    ensures BuildQuote(map[0 := PRODUCT], [CartLine(0, 1)], 0, false) == Ok(Quote(PRICING, Ready, 0))
  {
    hide LineTotalMinor, CheckoutPricing, IsValidOrderAmount, QuoteLines;
    SamplePrices();
    SampleLines();
  }

  lemma SampleSeal()
    ensures CartByProduct([CartLine(0, 1)]) == [CartLine(0, 1)]
    ensures SealLines(map[0 := PRODUCT], [CartLine(0, 1)], 0, 0) == Ok(PricedLines([LINE], 100))
  {
    hide LineTotalMinor, CheckoutPricing, IsValidOrderAmount;
    SamplePrices();
    var items := [CartLine(0, 1)];
    assert items[1..] == [];
    assert SortBy(items[1..], CartLineKey) == [];
    assert CheckoutLineOutcome(Lookup(map[0 := PRODUCT], 0), 1, 0) == Available;
    assert PriceLine(PRODUCT, CartLine(0, 1)) == Ok(LINE);
    assert SealLines(map[0 := PRODUCT], [], 0, 100) == Ok(PricedLines([], 100));
    assert AddMoneyMinor(0, 100) == Ok(100);
    assert [LINE] + [] == [LINE];
  }

  lemma SampleSave()
    ensures SaveDraft(FILLED, ACCESS, None, 1, CHECKOUT, 0, 0) == Ok(Saved(DRAFTED, VIEW, Some(CAPABILITY)))
  {
    hide BuildQuote;
    SampleQuote();
    assert WithoutRequests(FILLED.draftRequests, 0) == map[];
    assert !PreviewDiscount(FILLED, DRAFT);
  }

  /** Under every key the draft has not been used with, it gives one more attempt of the same kind. */
  lemma SamplePrepare(attempts: seq<Attempt>, key: Key)
    requires FindAttempt(attempts, 0, key).None?
    ensures Prepare(DRAFTED.(attempts := attempts), PrepareInput(0, 0, Some(CAPABILITY), key, Guest), 0)
         == Ok(WithId(DRAFTED.(attempts := attempts + [ATTEMPT.(key := key)]), |attempts|))
  {
    hide SealLines, CartByProduct, CheckoutPricing, FindAttempt;
    SamplePrices();
    SampleSeal();
    assert CartProductsExist(DRAFTED.products, [CartLine(0, 1)]);
    var db := DRAFTED.(attempts := attempts);
    assert SealAttempt(db, PrepareInput(0, 0, Some(CAPABILITY), key, Guest), DRAFT, AttemptFingerprint(0, 1, None), 0)
      == Ok(WithId(DRAFTED.(attempts := attempts + [ATTEMPT.(key := key)]), |attempts|));
  }

  const NO_PROVIDER := Provider(map[], map[], {})

  function At(db: Db, provider: Provider): World { World(db, provider, map[0 := 5]) }

  const START := At(PREPARED, NO_PROVIDER)

  const OPENING: seq<Step> := [
    EditProduct(PRODUCT_ID, PRODUCT), EditCart(CART_ID, CART), SaveDraftStep(ACCESS, None, 1, CHECKOUT, 0, 0),
    PrepareStep(PrepareInput(0, 0, Some(CAPABILITY), 9, Guest), 0)]

  lemma SampleStocks()
    ensures Next(INITIAL, EditProduct(PRODUCT_ID, PRODUCT)) == At(STOCKED, NO_PROVIDER)
  {
  }

  lemma SampleFills()
    ensures Next(At(STOCKED, NO_PROVIDER), EditCart(CART_ID, CART)) == At(FILLED, NO_PROVIDER)
  {
  }

  /** A guest's draft for one unit of one product is reachable. */
  lemma DraftIsReachable()
    ensures Reachable(At(DRAFTED, NO_PROVIDER))
  {
    hide SaveDraft;
    SampleStocks();
    SampleFills();
    SampleSave();
    assert Next(At(FILLED, NO_PROVIDER), OPENING[2]) == At(DRAFTED, NO_PROVIDER);
    hide Next;
    ThreeSteps(INITIAL, OPENING[0], OPENING[1], OPENING[2]);
    assert Run(INITIAL, [OPENING[0], OPENING[1], OPENING[2]]) == At(DRAFTED, NO_PROVIDER);
  }

  /** The attempt prepared from it, before anything else happens to it. */
  lemma StartIsReachable()
    ensures Reachable(START)
  {
    hide Prepare, Reachable;
    DraftIsReachable();
    assert FindAttempt([], 0, 9).None?;
    SamplePrepare([], 9);
    assert [] + [ATTEMPT] == [ATTEMPT];
    assert Next(At(DRAFTED, NO_PROVIDER), OPENING[3]) == START;
    hide Next;
    OneStep(At(DRAFTED, NO_PROVIDER), OPENING[3]);
    ReachableOn(At(DRAFTED, NO_PROVIDER), [OPENING[3]]);
  }

  // ----- A stale authorisation revives a cancelled attempt -----

  const EXPIRY: Time := 1_860_000
  const SESSION := Session(11, EXPIRY, DraftOwner(0), EUR, 600, SessionOpen)
  const PENDING_ATTEMPT := ATTEMPT.(
    pendingAt := Some(0), sessionExpiresAt := Some(EXPIRY), sessionId := Some(11), status := Pending)
  const OPENED := Provider(map[0 := SESSION], map[0 := Intent(21, Open, {Open})], {})
  const CANCELED := Provider(map[0 := SESSION.(status := SessionComplete)],
                             map[0 := Intent(21, IntentCanceled, {Open, RequiresCapture, IntentCanceled})], {})
  const CANCELLED_DB := PREPARED.(
    attempts := [PENDING_ATTEMPT.(reference := Some(21), status := Cancelled)], receipts := map[1 := 1])

  const PAYMENT: seq<Step> := [
    CreateSession(ID, SESSION_ID), RecordSession(ID, 0), OpenIntent(ID, REFERENCE), AuthorizeIntent(ID),
    CancelIntent(ID)]

  function Snapshot(status: IntentStatus): IntentSnapshot {
    IntentSnapshot(false, 21, Some(Metadata(true, 0, DraftOwner(0))), EUR, 600, status, true,
                   if status == RequiresCapture then 600 else 0, if status == IntentSucceeded then 600 else 0)
  }

  const CANCEL_EVENT := Event(1, 1, IntentObject(PaymentCanceled, Snapshot(IntentCanceled)))
  const LATE_EVENT := Event(2, 2, IntentObject(CapturableUpdated, Snapshot(RequiresCapture)))

  const WAITING_DB := PREPARED.(attempts := [PENDING_ATTEMPT])
  const WITH_SESSION := Provider(map[0 := SESSION], map[], {})
  const AUTHORISED := Provider(map[0 := SESSION.(status := SessionComplete)],
                               map[0 := Intent(21, RequiresCapture, {Open, RequiresCapture})], {})

  lemma SessionIsRecorded()
    ensures Next(START, CreateSession(ID, SESSION_ID)) == At(PREPARED, WITH_SESSION)
    ensures Next(At(PREPARED, WITH_SESSION), RecordSession(ID, 0)) == At(WAITING_DB, WITH_SESSION)
  {
    assert NewSession(ATTEMPT, 11) == SESSION;
    assert PREPARED.attempts[0 := PENDING_ATTEMPT] == [PENDING_ATTEMPT];
  }

  lemma IntentIsOpened(db: Db)
    ensures Next(At(db, WITH_SESSION), OpenIntent(ID, REFERENCE)) == At(db, OPENED)
  {
  }

  lemma IntentIsAuthorised(db: Db)
    ensures Next(At(db, OPENED), AuthorizeIntent(ID)) == At(db, AUTHORISED)
  {
    assert {Open} + {RequiresCapture} == {Open, RequiresCapture};
  }

  lemma IntentIsCancelled()
    ensures Next(At(WAITING_DB, AUTHORISED), CancelIntent(ID)) == At(WAITING_DB, CANCELED)
  {
    assert {Open, RequiresCapture} + {IntentCanceled} == {Open, RequiresCapture, IntentCanceled};
  }

  lemma PaymentIsAuthorisedAndCancelled()
    ensures Run(START, PAYMENT) == At(WAITING_DB, CANCELED)
  {
    hide Next;
    SessionIsRecorded();
    IntentIsOpened(WAITING_DB);
    IntentIsAuthorised(WAITING_DB);
    IntentIsCancelled();
    TwoSteps(START, PAYMENT[0], PAYMENT[1]);
    ThreeSteps(At(WAITING_DB, WITH_SESSION), PAYMENT[2], PAYMENT[3], PAYMENT[4]);
    RunAppend(START, PAYMENT[..2], PAYMENT[2..]);
    assert PAYMENT[..2] + PAYMENT[2..] == PAYMENT;
    assert PAYMENT[..2] == [PAYMENT[0], PAYMENT[1]] && PAYMENT[2..] == [PAYMENT[2], PAYMENT[3], PAYMENT[4]];
  }

  lemma CancellationIsRecorded()
    ensures ProcessWebhook(WAITING_DB, CANCEL_EVENT, 0) == Ok(WithAction(CANCELLED_DB, None))
  {
    var attached := PENDING_ATTEMPT.(reference := Some(21));
    var db := PREPARED.(attempts := [attached]);
    assert WAITING_DB.attempts[0 := attached] == [attached];
    assert AttachReference(WAITING_DB, 0, 21, 0) == Ok(db);
    var cancelled := attached.(status := Cancelled);
    assert db.attempts[0 := cancelled] == [cancelled];
    assert ReleaseUnpaidPayment(db, 0, CancelledUnpaid, 0) == Ok(PREPARED.(attempts := [cancelled]));
  }

  lemma BothMessagesAreGenuine()
    ensures GenuineEvent(CANCELED, CANCEL_EVENT) && GenuineEvent(CANCELED, LATE_EVENT)
  {
  }

  lemma LateAuthorisationAllocates()
    ensures ProcessWebhook(CANCELLED_DB, LATE_EVENT, 0).Ok?
    ensures var db := ProcessWebhook(CANCELLED_DB, LATE_EVENT, 0).value.db; |db.attempts| == 1 && Revived(db, 0)
  {
    hide LineTotalMinor, IsValidOrderAmount;
    SamplePrices();
    assert [LINE][1..] == [];
    assert SortBy([LINE][1..], LineKey) == [];
    assert LinesByProduct([LINE]) == [LINE];
    assert AllAvailable(CANCELLED_DB.products, [LINE], 0);
    assert TakeStock(map[0 := PRODUCT.(stockAmount := 4)], []).Some?;
    assert TakeStock(CANCELLED_DB.products, [LINE]).Some?;
    assert !CartTaken(CANCELLED_DB.orders, CART_ID);
    var allocation := AllocateInventory(CANCELLED_DB, 0, 0);
    assert allocation.Ok? && 0 in allocation.value.db.allocations;
  }

  /** "A cancelled attempt has no live allocation" fails: the provider's two messages may arrive in the wrong order. */
  lemma StaleAuthorisationRevives() returns (w: World)
    ensures Reachable(w) && |w.db.attempts| == 1 && Revived(w.db, ID)
  {
    hide Reachable, ProcessWebhook, GenuineEvent, Revived;
    StartIsReachable();
    PaymentIsAuthorisedAndCancelled();
    CancellationIsRecorded();
    BothMessagesAreGenuine();
    LateAuthorisationAllocates();
    var paid := Run(START, PAYMENT);
    ReachableOn(START, PAYMENT);
    var first, second := WebhookStep(CANCEL_EVENT, 0), WebhookStep(LATE_EVENT, 0);
    w := Run(paid, [first, second]);
    ReachableOn(paid, [first, second]);
    assert Next(paid, first) == paid.(db := CANCELLED_DB);
    assert Next(Next(paid, first), second).db == ProcessWebhook(CANCELLED_DB, LATE_EVENT, 0).value.db;
    TwoSteps(paid, first, second);
  }

  // ----- An authorised payment that the reconciliation job never looks at -----

  const LOST: seq<Step> := [MarkUnresolved(ID, 0), CreateSession(ID, SESSION_ID), OpenIntent(ID, REFERENCE)]
  const OTHER_EVENT := Event(3, 3, IntentObject(OtherIntentEvent, Snapshot(Open)))
  const UNRESOLVED := ATTEMPT.(status := ReconciliationRequired)

  const UNRESOLVED_DB := PREPARED.(attempts := [UNRESOLVED])

  lemma AnswerIsLost()
    ensures Next(START, MarkUnresolved(ID, 0)) == At(UNRESOLVED_DB, NO_PROVIDER)
  {
    assert PREPARED.attempts[0 := UNRESOLVED] == [UNRESOLVED];
  }

  lemma UnseenSessionIsOpened()
    ensures Next(At(UNRESOLVED_DB, NO_PROVIDER), CreateSession(ID, SESSION_ID)) == At(UNRESOLVED_DB, WITH_SESSION)
  {
    assert NewSession(UNRESOLVED, 11) == SESSION;
  }

  lemma SessionAnswerIsLost()
    ensures Run(START, LOST) == At(UNRESOLVED_DB, OPENED)
  {
    hide Next;
    AnswerIsLost();
    UnseenSessionIsOpened();
    IntentIsOpened(UNRESOLVED_DB);
    ThreeSteps(START, LOST[0], LOST[1], LOST[2]);
  }

  lemma OtherEventAttaches()
    ensures ProcessWebhook(UNRESOLVED_DB, OTHER_EVENT, 0).Ok?
    ensures var db := ProcessWebhook(UNRESOLVED_DB, OTHER_EVENT, 0).value.db;
            |db.attempts| == 1 && OutOfSight(db, 0) && db.attempts[0].status == Pending
    ensures GenuineEvent(OPENED, OTHER_EVENT)
  {
  }

  /**
   * The answer that created the session is lost, a harmless message attaches the intent, the customer authorises, and
   * the authorisation message is lost: no run of the reconciliation job, at any time, selects this attempt.
   */
  lemma AuthorisedPaymentCanBeOutOfSight() returns (w: World)
    ensures Reachable(w) && |w.db.attempts| == 1 && IntentIs(w, ID, RequiresCapture)
    ensures forall now: Time :: !IsCandidate(w.db, ID, now)
  {
    hide Reachable, ProcessWebhook, GenuineEvent, Next, IsCandidate;
    StartIsReachable();
    SessionAnswerIsLost();
    OtherEventAttaches();
    var lost := Run(START, LOST);
    ReachableOn(START, LOST);
    var first, second := WebhookStep(OTHER_EVENT, 0), AuthorizeIntent(ID);
    w := Run(lost, [first, second]);
    ReachableOn(lost, [first, second]);
    TwoSteps(lost, first, second);
    AttachedThenAuthorised();
    forall now: Time ensures !IsCandidate(w.db, ID, now) { OutOfSightIsNoCandidate(w.db, 0, now); }
  }

  lemma AttachedThenAuthorised()
    requires ProcessWebhook(UNRESOLVED_DB, OTHER_EVENT, 0).Ok? && GenuineEvent(OPENED, OTHER_EVENT)
    ensures var attached := ProcessWebhook(UNRESOLVED_DB, OTHER_EVENT, 0).value.db;
            && Next(At(UNRESOLVED_DB, OPENED), WebhookStep(OTHER_EVENT, 0)) == At(attached, OPENED)
            && Next(At(attached, OPENED), AuthorizeIntent(ID)) == At(attached, AUTHORISED)
  {
    hide ProcessWebhook, GenuineEvent;
    IntentIsAuthorised(ProcessWebhook(UNRESOLVED_DB, OTHER_EVENT, 0).value.db);
  }

  lemma OutOfSightIsNoCandidate(db: Db, a: AttemptId, now: Time)
    requires a < |db.attempts| && OutOfSight(db, a) && (db.attempts[a].status == Prepared ==> a !in db.allocations)
    ensures !IsCandidate(db, a, now)
  {
  }

  // ----- A process that dies between preparing an attempt and recording its session -----

  const UNRECORDED: seq<Step> := [CreateSession(ID, SESSION_ID), OpenIntent(ID, REFERENCE), AuthorizeIntent(ID)]

  /** The session is created and paid, but its answer never reaches the database: the attempt is only prepared. */
  lemma PreparedPaymentCanBeOutOfSight() returns (w: World)
    ensures Reachable(w) && |w.db.attempts| == 1
    ensures AttemptIs(w, ID, Prepared) && IntentIs(w, ID, RequiresCapture)
    ensures forall now: Time :: !IsCandidate(w.db, ID, now)
  {
    hide Reachable, Next, IsCandidate;
    StartIsReachable();
    SessionIsRecorded();
    IntentIsOpened(PREPARED);
    IntentIsAuthorised(PREPARED);
    ThreeSteps(START, UNRECORDED[0], UNRECORDED[1], UNRECORDED[2]);
    ReachableOn(START, UNRECORDED);
    w := At(PREPARED, AUTHORISED);
    forall now: Time ensures !IsCandidate(w.db, ID, now) { OutOfSightIsNoCandidate(w.db, 0, now); }
  }

  // ----- A pass that ends in disagreement -----

  /**
   * The lost answer once more, with an authorised intent: the job selects the attempt, and its pass has nothing to ask.
   */
  lemma PassCanEndInDisagreement(now: Time) returns (w: World)
    ensures Reachable(w) && Retrievable(w, ID) && IntentIs(w, ID, RequiresCapture)
    ensures IsCandidate(w.db, ID, now)
    ensures !Agrees(Run(w, ReconcileSteps(w, ID, now)), ID)
  {
    hide Reachable, Next, ReconcileSteps, Run, Agrees;
    StartIsReachable();
    SessionAnswerIsLost();
    IntentIsAuthorised(UNRESOLVED_DB);
    ReachableOn(START, LOST);
    w := At(UNRESOLVED_DB, AUTHORISED);
    OneStep(At(UNRESOLVED_DB, OPENED), AuthorizeIntent(ID));
    ReachableOn(At(UNRESOLVED_DB, OPENED), [AuthorizeIntent(ID)]);
    ReconcilePassConverges(w, 0, now, now);
  }
}
