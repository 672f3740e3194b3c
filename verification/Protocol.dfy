/**
 * The payment protocol: one database, the payment provider, and every atomic step either of them can take.
 *
 * A transaction is one step. What a worker read earlier is a step parameter, so a stale webhook, a delayed answer, a
 * second worker and a crash between two transactions are all just other interleavings of steps. A step whose guard
 * fails, or whose transaction is rejected, leaves the world as it was.
 */
module Protocol {
  import opened Basics
  import opened Money
  import opened Records
  import opened PaymentAttempts
  import opened StripePayments
  import opened CashOrders
  import opened CheckoutDrafts

  const SESSION_LIFETIME_MS: int := 31 * 60 * 1_000

  // ----- The provider -----

  datatype Session = Session(
    id: SessionId, expiresAt: Time, owner: OwnerReference, currency: Currency, amount: int, status: SessionStatus)

  /** `seen` is every status the intent has had: what an old snapshot or a late event may still report. */
  datatype Intent = Intent(reference: PaymentReference, status: IntentStatus, seen: set<IntentStatus>)

  /** At most one session an attempt (the creation is idempotent) and one intent a session. */
  datatype Provider = Provider(
    sessions: map<AttemptId, Session>,
    intents: map<AttemptId, Intent>,
    tickets: set<AttemptId>)      // attempts whose capture was handed to a worker

  datatype World = World(db: Db, provider: Provider, baseline: map<ProductId, int>)

  /** Floor of a millisecond time to whole seconds, back in milliseconds. */
  function WholeSeconds(t: Time): Time { t - t % 1_000 }

  /** What the provider is asked to charge: the products after discount, and the delivery. */
  function SessionLineItems(attempt: Attempt): seq<int> {
    [attempt.pricing.itemSubtotalMinor - attempt.pricing.discountMinor, attempt.pricing.shippingMinor]
  }

  function NewSession(attempt: Attempt, id: SessionId): Session {
    var items := SessionLineItems(attempt);
    Session(id, WholeSeconds(attempt.quotedAt) + SESSION_LIFETIME_MS, OwnerReferenceOf(attempt), EUR,
            items[0] + items[1], SessionOpen)
  }

  /** The provider echoes amounts and metadata faithfully; only the status of a snapshot can be old. */
  function IntentEcho(session: Session, intent: Intent, id: AttemptId, status: IntentStatus): IntentSnapshot {
    IntentSnapshot(false, intent.reference, Some(Metadata(true, id, session.owner)), session.currency, session.amount,
                   status, true, if status == RequiresCapture then session.amount else 0,
                   if status == IntentSucceeded then session.amount else 0)
  }

  predicate GenuineIntent(provider: Provider, snapshot: IntentSnapshot) {
    && snapshot.metadata.Some?
    && var id := snapshot.metadata.value.attemptId;
       && id in provider.intents && id in provider.sessions
       && snapshot.status in provider.intents[id].seen
       && snapshot == IntentEcho(provider.sessions[id], provider.intents[id], id, snapshot.status)
  }

  predicate GenuineSession(provider: Provider, snapshot: SessionSnapshot) {
    && snapshot.metadata.Some?
    && var id := snapshot.metadata.value.attemptId;
       && id in provider.sessions
       && (snapshot.intentId.Some? ==>
             id in provider.intents && snapshot.intentId == Some(provider.intents[id].reference))
       && (snapshot.status == SessionExpired ==> provider.sessions[id].status == SessionExpired)
       && var s := provider.sessions[id];
          snapshot == SessionSnapshot(false, s.id, id, Some(Metadata(true, id, s.owner)), s.currency, s.amount,
                                      snapshot.intentId, snapshot.unpaid, snapshot.status, s.expiresAt)
  }

  /** A signed event: its body is a genuine snapshot, and its type names the change that snapshot shows. */
  predicate GenuineEvent(provider: Provider, event: Event) {
    match event.body
    case OtherObject => true
    case IntentObject(kind, snapshot) =>
      GenuineIntent(provider, snapshot) && (kind == PaymentCanceled ==> snapshot.status == IntentCanceled)
    case SessionObject(kind, snapshot) =>
      GenuineSession(provider, snapshot) && (kind == CheckoutExpired ==> snapshot.status == SessionExpired)
  }

  // ----- Steps -----

  datatype Step =
    // the API
    | PrepareStep(input: PrepareInput, now: Time)
    | RecordSession(id: AttemptId, now: Time)
    | RecordIntent(id: AttemptId, now: Time)
    | WebhookStep(event: Event, now: Time)
    | ApplyStateStep(id: AttemptId, status: IntentStatus, now: Time)
    | RequestCaptureStep(id: AttemptId, now: Time)
    | MarkUnresolved(id: AttemptId, now: Time)
    | ReleaseExpired(id: AttemptId, now: Time)
    | CashOrderStep(context: OrderContext, checkout: CheckoutInput, now: Time)
    | SaveDraftStep(access: CartAccess, raw: Option<Capability>, key: Key, draft: CanonicalDraft, now: Time,
                    freshId: DraftId)
    // the provider and its customers
    | CreateSession(id: AttemptId, session: SessionId)
    | OpenIntent(id: AttemptId, reference: PaymentReference)
    | AuthorizeIntent(id: AttemptId)
    | CaptureIntent(id: AttemptId)
    | CancelIntent(id: AttemptId)
    | ExpireSession(id: AttemptId)
    // everything else the shop lets people do
    | EditCart(cartId: CartId, cart: Cart)
    | EditProduct(productId: ProductId, product: Product)
    | SetActiveUsers(users: set<UserId>)

  function Commit(w: World, outcome: Outcome<Db>): World {
    if outcome.Ok? then w.(db := outcome.value) else w
  }

  function CommitAction(w: World, outcome: Outcome<WithAction>): World {
    if outcome.Ok? then w.(db := outcome.value.db) else w
  }

  function SetIntent(w: World, id: AttemptId, status: IntentStatus): World
    requires id in w.provider.intents
  {
    var intent := w.provider.intents[id];
    w.(provider := w.provider.(intents :=
      w.provider.intents[id := intent.(status := status, seen := intent.seen + {status})]))
  }

  function SetSession(w: World, id: AttemptId, status: SessionStatus): World
    requires id in w.provider.sessions
  {
    w.(provider := w.provider.(sessions := w.provider.sessions[id := w.provider.sessions[id].(status := status)]))
  }

  predicate ReferenceUnused(provider: Provider, reference: PaymentReference) {
    forall a :: a in provider.intents ==> provider.intents[a].reference != reference
  }

  predicate ValidCartLines(products: map<ProductId, Product>, items: seq<CartLine>) {
    && (forall i :: 0 <= i < |items| ==> items[i].productId in products && 1 <= items[i].amount <= MAX_COMMERCE_AMOUNT)
    && (forall i, j :: 0 <= i < j < |items| ==> items[i].productId != items[j].productId)
  }

  predicate SlugUnused(products: map<ProductId, Product>, productId: ProductId, slug: Slug) {
    forall q :: q in products && q != productId ==> products[q].slug != slug
  }

  /** The snapshot a worker holds: the attempt's own intent, with a status it has or once had. */
  function HeldSnapshot(provider: Provider, id: AttemptId, status: IntentStatus): IntentSnapshot
    requires id in provider.intents && id in provider.sessions
  {
    IntentEcho(provider.sessions[id], provider.intents[id], id, status)
  }

  predicate CanShow(provider: Provider, id: AttemptId, status: IntentStatus) {
    id in provider.intents && id in provider.sessions && status in provider.intents[id].seen
  }

  function NextTicket(w: World, id: AttemptId, outcome: Outcome<CaptureTicket>): World {
    if outcome.Rejected? then w
    else
      var w' := w.(db := outcome.value.db);
      if outcome.value.reference.Some? then w'.(provider := w.provider.(tickets := w.provider.tickets + {id})) else w'
  }

  function Next(w: World, step: Step): World {
    match step
    case PrepareStep(input, now) =>
      var r := Prepare(w.db, input, now);
      if r.Ok? then w.(db := r.value.db) else w
    case RecordSession(id, now) =>
      if id in w.provider.sessions then
        var s := w.provider.sessions[id];
        Commit(w, MarkProviderSessionCreated(w.db, id, s.id, s.expiresAt, now))
      else w
    case RecordIntent(id, now) =>
      if id in w.provider.intents && id < |w.db.attempts| && w.db.attempts[id].sessionId.Some?
      then Commit(w, MarkPending(w.db, id, w.provider.intents[id].reference, now)) else w
    case WebhookStep(event, now) =>
      if GenuineEvent(w.provider, event) then CommitAction(w, ProcessWebhook(w.db, event, now)) else w
    case ApplyStateStep(id, status, now) =>
      if CanShow(w.provider, id, status)
      then CommitAction(w, ApplyIntentState(w.db, HeldSnapshot(w.provider, id, status), id, now)) else w
    case RequestCaptureStep(id, now) => NextTicket(w, id, RequestCapture(w.db, id, now))
    case MarkUnresolved(id, now) => w.(db := MarkAttemptReconciliation(w.db, id, now))
    case ReleaseExpired(id, now) =>
      if id in w.provider.sessions && w.provider.sessions[id].status == SessionExpired
      then Commit(w, ReleaseDefinitiveOutcome(w.db, id, CancelledUnpaid, now)) else w
    case CashOrderStep(context, checkout, now) =>
      var r := CreateCashOrder(w.db, context, checkout, now);
      if r.Ok? then w.(db := r.value.db) else w
    case SaveDraftStep(access, raw, key, draft, now, freshId) =>
      if freshId in w.db.drafts then w
      else
        var r := SaveDraft(w.db, access, raw, key, draft, now, freshId);
        if r.Ok? then w.(db := r.value.db) else w
    case CreateSession(id, session) =>
      if id < |w.db.attempts| && id !in w.provider.sessions
      then w.(provider := w.provider.(sessions := w.provider.sessions[id := NewSession(w.db.attempts[id], session)]))
      else w
    case OpenIntent(id, reference) =>
      if id in w.provider.sessions && w.provider.sessions[id].status == SessionOpen
         && id !in w.provider.intents && ReferenceUnused(w.provider, reference)
      then w.(provider := w.provider.(intents := w.provider.intents[id := Intent(reference, Open, {Open})]))
      else w
    case AuthorizeIntent(id) =>
      if id in w.provider.sessions && w.provider.sessions[id].status == SessionOpen
         && id in w.provider.intents && w.provider.intents[id].status == Open
      then SetSession(SetIntent(w, id, RequiresCapture), id, SessionComplete)
      else w
    case CaptureIntent(id) =>
      if id in w.provider.tickets && id in w.provider.intents && w.provider.intents[id].status == RequiresCapture
      then SetIntent(w, id, IntentSucceeded) else w
    case CancelIntent(id) =>
      if id in w.provider.intents && w.provider.intents[id].status in {Open, RequiresCapture}
      then SetIntent(w, id, IntentCanceled) else w
    case ExpireSession(id) =>
      if id in w.provider.sessions && w.provider.sessions[id].status == SessionOpen
      then SetSession(w, id, SessionExpired) else w
    case EditCart(cartId, cart) =>
      if ValidCartLines(w.db.products, cart.items) then w.(db := w.db.(carts := w.db.carts[cartId := cart])) else w
    case EditProduct(p, product) =>
      if product.stockAmount >= 0 && SlugUnused(w.db.products, p, product.slug) then
        var before := if p in w.db.products then w.db.products[p].stockAmount else 0;
        var reset := (if p in w.baseline then w.baseline[p] else 0) + product.stockAmount - before;
        w.(db := w.db.(products := w.db.products[p := product]), baseline := w.baseline[p := reset])
      else w
    case SetActiveUsers(users) => w.(db := w.db.(activeUsers := users))
  }

  function Run(w: World, steps: seq<Step>): World
    decreases |steps|
  {
    if steps == [] then w else Run(Next(w, steps[0]), steps[1..])
  }

  const EMPTY_DB := Db({}, map[], map[], map[], map[], map[], [], map[], [], map[], map[], map[])

  const INITIAL := World(EMPTY_DB, Provider(map[], map[], {}), map[])

  ghost predicate Reachable(w: World) {
    exists steps: seq<Step> :: w == Run(INITIAL, steps)
  }

  lemma {:induction false} RunAppend(w: World, steps: seq<Step>, more: seq<Step>)
    ensures Run(w, steps + more) == Run(Run(w, steps), more)
    decreases |steps|
  {
    if steps == [] {
      assert steps + more == more;
    } else {
      assert (steps + more)[1..] == steps[1..] + more;
      RunAppend(Next(w, steps[0]), steps[1..], more);
    }
  }

  /** Anything that runs on from a reachable world is reachable. */
  lemma ReachableOn(w: World, more: seq<Step>)
    requires Reachable(w)
    ensures Reachable(Run(w, more))
  {
    var steps :| w == Run(INITIAL, steps);
    RunAppend(INITIAL, steps, more);
  }
}
