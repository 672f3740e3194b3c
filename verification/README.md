# Hop & Barley: verified models of the shop's stateful cores

A Dafny project beside the shop's code. It models the parts whose correctness depends on the order of events: card
payment against a provider, stock, the first-purchase discount, checkout drafts, cash orders, crash-safe releases,
login sessions, rate limiting, cart merging, and the money and price-text arithmetic they share. `dafny verify
dfyconfig.toml` checks everything.

## How it is built

**Transactions, then a protocol, then programs.**

- `Records` holds the tables. `PaymentAttempts`, `StripePayments`, `CashOrders` and `CheckoutDrafts` give each database
  transaction as a function from tables to tables or to a rejection, branch by branch as the services do.
- `Protocol` puts these next to the payment provider. Every transaction, every provider call and every customer action
  is one step. A step carries whatever its worker read earlier, so a late, duplicated or reordered webhook, two
  workers at once and a crash between two transactions are all just orders of steps. `Reachable` means: some finite
  sequence of steps from an empty shop leads here.
- `ProtocolSafety` states the invariant, one attempt at a time, on a `Case` (the attempt's own rows and its own provider
  objects). `ProtocolSteps` and `ProtocolRuns` prove that every step keeps it. `Evolution` states what a step never
  undoes. The theorems over all runs follow: `CaptureSafety`, `Reconciliation`, `StockConservation`, `DiscountSafety`,
  `WebhookReplays`, `QuoteEqualsCharge`, `DraftIdempotency`, `CashOrderExactness`, `Isolation`, `Revival`,
  `ReconciliationJob`. `LateEvents`, `StarvedJob` and `HeldDiscount` are concrete runs.
- `Database`, `PaymentAttemptService`, `StripePaymentService`, `OrdersService` and `CheckoutService` are the services as
  programs: a class whose fields are the tables, methods that overwrite rows one after the other in loops, and a
  rollback when a guard fails. Each method is proved to have exactly the effect of its transaction function.

**Releases.** `ReleaseStore` models `deploy/receive-release.py` as a list of stages with at most one durable change each;
a crash or an external failure is a command that stops before a stage. `ReleaseHistory`, `ReleaseRecovery` and
`ReleaseRollback` prove what all runs keep and where interrupted commands end. `Receiver` is the program over mutable
files, links and tags. A field says how many more stages the process lives to run; whatever its value, the program has
run exactly those when it ends.

**Smaller cores.** `Sessions` and `SessionService`, `RateLimits`, `CartMerge`, `PriceText`, `Money`.

## Assumptions

- A transaction commits as a whole or not at all (the services run them serializably and retry).
- The provider: `succeeded` and `canceled` are final and exclude each other; an intent is captured only by a capture
  call, which needs a committed capture request; an expired session never has an authorised intent; amounts and metadata
  are echoed as they were sent; only the status in a snapshot may be old; one session for an attempt and one intent for
  a session; references are fresh.
- Hashes and capability digests are injective, so they are modelled by what they are computed from. Fresh ids are new.
- Releases run under the server's exclusive lock. A single file write, link or rename is atomic, as `persist_json`
  and the links' renames make it.
- Session and limiter theorems about runs assume a clock that does not go back.

## What turned out not to hold

Each of these has a concrete input or reachable run that breaks it, and a theorem that says for all inputs when it
breaks.

- *A cancelled attempt has no live allocation.* `allocateInventory` does not look at the attempt's status. A step revives
  a cancelled attempt exactly if it delivers or applies an authorisation, however stale, while the attempt has a
  reference, has no allocation, all its lines are still available, and no order that is not cancelled has its cart
  (`Revival.RevivesExactlyWhen`; a run: `LateEvents.StaleAuthorisationRevives`). Its money can never be captured, and one reconciliation pass takes the stock
  back (`Revival.RevivalEndsInOnePass`). The database's deferred checks refuse exactly these transactions
  (`StorageChecks.ChecksFailExactlyWhenRevived`, `StorageChecks.CheckedRunsNeverRevive`).
- *Every undecided attempt is eventually reconciled by the job.* It fails in two ways. An undecided attempt matches the
  query, at some time and from then on, exactly unless it was only prepared, or is pending with neither a session nor a
  live allocation (`Reconciliation.UndecidedIsCandidateUnlessOutOfSight`; runs:
  `LateEvents.PreparedPaymentCanBeOutOfSight`, `LateEvents.AuthorisedPaymentCanBeOutOfSight`). And the query takes only
  the oldest `limit` rows, while a pass over an attempt with neither reference nor session writes nothing: the job reaches
  a candidate exactly if fewer than `limit` such stuck attempts are older (`ReconciliationJob.JobReachesUnlessStarved`; a
  run for every `limit`: `StarvedJob.PaidAttemptIsNeverReached`).
- *Authorised money is captured or given back.* A unique index allows a cart one order that is not cancelled, and nothing
  checks it before the money is authorised. Allocation throws exactly if the attempt has no allocation yet, all its lines
  are available and its cart has such an order already (`Reconciliation.AllocationRejectsExactlyWhenBlocked`). As long as
  that is so whenever the attempt's turn comes, the job neither captures nor cancels, however often it runs
  (`ReconciliationJob.JobNeverSettles`); an order that is paid, or due on delivery, keeps the cart for ever
  (`CaptureSafety.SettledOrderKeepsTheCart`). Two keys on one draft are enough: once the first payment is settled, no run
  of the job settles the second (`StarvedJob.SecondPaymentIsNeverSettled`).
- *One reconciliation pass always ends in agreement with the provider.* It does exactly unless the attempt is undecided
  and has neither reference nor session, or its money is authorised and the cart blocks it as just said
  (`Reconciliation.ReconcilePassConverges`; runs: `LateEvents.PassCanEndInDisagreement`,
  `StarvedJob.SecondPaymentIsNeverSettled`).
- *A draft that quotes `ready` can always be turned into an attempt.* It can, at the same price, exactly if no open attempt
  of the account holds the first-purchase discount, be it of another checkout or an earlier one of the same draft
  (`QuoteEqualsCharge.QuoteIsWhatIsSealed`; a run: `HeldDiscount.ReadyQuoteCanBeRefused`).
- *Signing in merges a guest's cart unless it grows too long.* When the account has a cart, the guest's row is deleted, and
  foreign keys refuse that while an order, even a cancelled one, or a payment attempt refers to it. Of two valid carts a
  merge is rejected exactly for more than 50 lines or for that (`CartMerge.MergeIsRejectedExactlyWhen`; a guest who has
  only tried to pay: `CartMerge.TriedPaymentBlocksMerge`).

## Model

| member | source | states |
|---|---|---|
| `Protocol.ReachableOn` | apps/api/src/payments/stripe-payment.service.ts:240-340 | whatever runs on from a reachable world stays reachable, so every theorem about reachable worlds also speaks about crashes followed by any later work |
| `ProtocolRuns.ReachableHolds` | apps/api/src/payments/stripe-payment.service.ts:368-894 | the full invariant (each attempt with its allocation, order, claim, session and intent; keys; drafts; carts; stock; cash orders; one live order a cart) in every reachable world |
| `ProtocolRuns.KeepsStep` | apps/api/src/payments/stripe-payment.service.ts:368-894 | every step of the services, the provider, the customers and the administrators keeps the invariant |
| `ProtocolRuns.KeepsWebhook` | apps/api/src/payments/stripe-payment.service.ts:368-531 | any genuine event, however old the status it reports, keeps the invariant |
| `ProtocolRuns.KeepsPrepare` | apps/api/src/payments/payment-attempt.service.ts:137-309 | sealing a checkout keeps the invariant |
| `ProtocolRuns.KeepsCashOrder` | apps/api/src/orders/orders.service.ts:116-306 | placing a cash order keeps the invariant |
| `ProtocolRuns.KeepsSaveDraft` | apps/api/src/checkout/checkout.service.ts:175-364 | saving a draft keeps the invariant |
| `ProtocolSteps.KeepsAllocate` | apps/api/src/payments/stripe-payment.service.ts:579-683 | allocating stock for an intent that was ever authorised keeps the invariant, whatever the attempt's status |
| `ProtocolSteps.KeepsRequestCapture` | apps/api/src/payments/stripe-payment.service.ts:720-747 | a capture reaches the provider only with a committed, live, dated capture request behind it |
| `ProtocolSteps.KeepsFinalize` | apps/api/src/payments/stripe-payment.service.ts:765-820 | once the provider has captured, settling meets no failing guard, keeps the invariant and ends with the attempt succeeded |
| `ProtocolSteps.FinalizeResult` | apps/api/src/payments/stripe-payment.service.ts:765-820 | the exact rows a settlement leaves: paid order, captured allocation, succeeded attempt, consumed claim, cart without the bought lines |
| `ProtocolSteps.PaidOrderMatches` | apps/api/src/payments/payment-attempt.service.ts:605-671 | the order written from the attempt's snapshot always passes the comparison with that snapshot at settlement |
| `ProtocolSteps.ResortedLinesAgree` | apps/api/src/payments/payment-attempt.service.ts:673-696 | sorting both line lists again by distinct product id gives the same list, so the pointwise comparison succeeds |
| `ProtocolSteps.KeepsReleaseUnpaid` | apps/api/src/payments/stripe-payment.service.ts:822-869 | once the provider has cancelled, releasing meets no failing guard, keeps the invariant and ends with the attempt cancelled |
| `ProtocolSteps.ReleaseResult` | apps/api/src/payments/stripe-payment.service.ts:822-869 | the exact rows a release leaves: stock back, allocation released, order cancelled, attempt cancelled, claim released |
| `ProtocolSteps.KeepsReleaseDefinitive` | apps/api/src/payments/payment-attempt.service.ts:437-478 | ending an attempt whose money can no longer be captured keeps the invariant |
| `Evolution.StepEvolves` | apps/api/src/payments/payment-attempt.service.ts:311-478 | no step changes a sealed snapshot, replaces an attached reference or session, leaves a finished status, or takes back a capture request |
| `Evolution.CardStepRows` | apps/api/src/payments/stripe-payment.service.ts:368-894 | card steps touch no draft, no replay table and add no attempt |
| `CaptureSafety.CapturedMoneyHasItsAllocation` | apps/api/src/payments/stripe-payment.service.ts:720-869 | if the provider captured an intent, its allocation exists, has a capture request date, is not released, and its order is not cancelled, in every interleaving |
| `CaptureSafety.LockStep` | apps/api/src/payments/stripe-payment.service.ts:765-869 | attempt succeeded iff allocation captured iff order paid; allocation released iff order cancelled; each only after the provider's matching final answer |
| `CaptureSafety.FinishedStaysFinished` | apps/api/src/payments/payment-attempt.service.ts:311-345 | over every run, references, finished attempts, captured and released allocations, paid orders, sealed lines and prices stay what they are |
| `CaptureSafety.RunsEvolve` | apps/api/src/payments/payment-attempt.service.ts:311-478 | the two-state relation of `Evolution` holds between the ends of every run |
| `Reconciliation.AvailableLinesCanBeTaken` | apps/api/src/payments/stripe-payment.service.ts:619-639 | once every line is `available` the guarded decrement loop cannot fail part-way |
| `CaptureSafety.OneOrderHoldsTheCart` | apps/api/prisma/migrations/20260910120000_add_stripe_sandbox_orchestration/migration.sql:26-31 | in every reachable world, over card and cash orders alike, at most one order of a cart is not cancelled |
| `CaptureSafety.SettledOrderKeepsTheCart` | apps/api/prisma/migrations/20260910120000_add_stripe_sandbox_orchestration/migration.sql:26-31 | over every run, a cart with a paid order or a cash order stays taken: nothing cancels either |
| `Reconciliation.AllocationRejectsExactlyWhenBlocked` | apps/api/src/payments/stripe-payment.service.ts:579-683 | under the invariant `allocateInventory` throws iff there is no allocation yet, every line is available, and an order that is not cancelled has the cart; otherwise it allocates, asks for the capture again, or asks for a cancellation |
| `Reconciliation.TerminalIntentConverges` | apps/api/src/payments/stripe-payment.service.ts:533-577 | when the provider has decided, applying its current answer meets no failing guard and leaves attempt, allocation, order and claim in agreement with it |
| `Reconciliation.ReconcilePassConverges` | apps/api/src/payments/stripe-payment.service.ts:281-340 | from every reachable world one pass over an authorised, captured or cancelled intent ends in agreement with it, exactly unless the attempt is undecided with neither reference nor session, or the intent is authorised while the cart blocks its allocation; repeating the last answer changes nothing |
| `Reconciliation.LostActionLeavesCandidate` | apps/api/src/payments/stripe-payment.service.ts:240-267 | an action lost in a crash right after its transaction leaves a row that matches the job's query, or the provider has already cancelled |
| `Reconciliation.LostWebhookActionLeavesCandidate` | apps/api/src/payments/stripe-payment.service.ts:342-366 | the same for an action decided by a webhook |
| `Reconciliation.UndecidedIsCandidateUnlessOutOfSight` | apps/api/src/payments/stripe-payment.service.ts:244-267 | once its session time is over, an undecided attempt of any status matches the query from then on, exactly unless it was only prepared or is pending with neither session nor live allocation; then it never matches |
| `ReconciliationJob.PageTakesTheOldest` | apps/api/src/payments/stripe-payment.service.ts:244-267 | a row is on the page iff it matches the query and fewer than `limit` matching rows are older by (updatedAt, id) |
| `ReconciliationJob.NothingToAskStays` | apps/api/src/payments/stripe-payment.service.ts:281-286 | a pass over an attempt with neither reference nor session writes nothing, so it keeps its place |
| `ReconciliationJob.PassMoves` | apps/api/src/payments/stripe-payment.service.ts:281-340 | a pass over any other candidate whose own session is over, the handler around it included, settles it for good or writes it, which puts it behind everything older |
| `ReconciliationJob.JobNeverReaches` | apps/api/src/payments/stripe-payment.service.ts:240-279 | with `limit` stuck attempts older than a row, no runs of the job, however many and whenever, take that row, whatever else happens between them that leaves it and the older rows alone |
| `ReconciliationJob.JobReaches` | apps/api/src/payments/stripe-payment.service.ts:240-279 | with fewer, and once no older candidate waits for a session, one of at most as many runs as it has older candidates, and one more, takes it, whatever else happens between them that leaves it and the older rows alone |
| `ReconciliationJob.JobReachesUnlessStarved` | apps/api/src/payments/stripe-payment.service.ts:240-279 | the two together: later runs take a candidate iff fewer than `limit` stuck attempts are older |
| `ReconciliationJob.Worker.ReconcileOutstanding` | apps/api/src/payments/stripe-payment.service.ts:240-279 | the loop over the page it read once is `JobRun` |
| `ReconciliationJob.JobNeverSettles` | apps/api/src/payments/stripe-payment.service.ts:240-279 | while every pass over an authorised, unallocated attempt finds another order on its cart, and nothing else touches it between the runs, any number of runs leaves its money authorised: neither captured nor cancelled, nothing allocated |
| `ReconciliationJob.BlockedPassMarks` | apps/api/src/payments/stripe-payment.service.ts:273-278 | such a pass throws and is caught: it asks the provider for nothing, and writes the attempt's own row only |
| `StarvedJob.SecondPaymentIsNeverSettled` | apps/api/src/payments/stripe-payment.service.ts:619-683 | a reachable world with two paid attempts of one draft, the first one settled: the second matches the query, no pass over it ends in agreement, and for every `limit` no runs of the job capture or cancel it |
| `StarvedJob.PaidAttemptIsNeverReached` | apps/api/src/payments/stripe-payment.service.ts:240-287 | for every `limit`, a reachable world with an authorised payment that one pass would settle and no run of the job ever takes, while the older rows are left alone |
| `Revival.RevivesExactlyWhen` | apps/api/src/payments/stripe-payment.service.ts:579-592 | a step revives an attempt iff it delivers or applies an authorisation of it while it is cancelled with a reference, has no allocation, its lines are available and its cart has no live order; no other step does |
| `Revival.NewAttemptsAreNotRevived` | apps/api/src/payments/payment-attempt.service.ts:236-309 | an attempt a step creates is not revived |
| `Revival.RunRevivesByAStep` | apps/api/src/payments/stripe-payment.service.ts:579-592 | every run that ends with an attempt revived contains such a step |
| `Revival.RevivalEndsInOnePass` | apps/api/src/payments/stripe-payment.service.ts:822-869 | a revived attempt's intent is cancelled, it matches the job's query, and one pass releases its stock |
| `Isolation.CardStepLeavesOthers` | apps/api/src/payments/stripe-payment.service.ts:368-894 | a card step leaves the row and the allocation of every other attempt as they were, and the provider's sessions |
| `LateEvents.StaleAuthorisationRevives` | apps/api/src/payments/stripe-payment.service.ts:579-592 | a concrete reachable run in which a cancelled attempt holds stock again |
| `LateEvents.PreparedPaymentCanBeOutOfSight` | apps/api/src/payments/stripe-payment.service.ts:244-267 | a concrete reachable run with authorised money on an attempt that is only prepared and never matches the query |
| `LateEvents.PassCanEndInDisagreement` | apps/api/src/payments/stripe-payment.service.ts:281-286 | a concrete reachable run with authorised money after which a pass has nothing to ask and settles nothing |
| `LateEvents.AuthorisedPaymentCanBeOutOfSight` | apps/api/src/payments/stripe-payment.service.ts:244-267 | a concrete reachable run with authorised money on a pending attempt that never matches the query |
| `LateEvents.StartIsReachable` | apps/api/src/checkout/checkout.service.ts:175-364 | a guest can fill a cart, save a draft and prepare an attempt: the protocol's worlds are not empty |
| `StorageChecks.ChecksFailExactlyWhenRevived` | apps/api/prisma/migrations/20260910120000_add_stripe_sandbox_orchestration/migration.sql:315-457 | in every reachable world the allocation and claim checks fail for an attempt iff it is cancelled and holds a live allocation |
| `StorageChecks.CheckedRunsNeverRevive` | apps/api/prisma/migrations/20260910120000_add_stripe_sandbox_orchestration/migration.sql:459-683 | with the checks at every commit all runs are runs of the protocol and none revives a cancelled attempt |
| `StorageChecks.ClaimChecksPass` | apps/api/prisma/migrations/20260910120000_add_stripe_sandbox_orchestration/migration.sql:536-683 | apart from a revived attempt, the claim and order check always passes |
| `StockConservation.StockIsConserved` | apps/api/src/payments/stripe-payment.service.ts:631-857 | in every reachable world, for every product, shelf plus reservations plus cash sales equals the baseline, and no stock is negative |
| `StockConservation.StockReturnsOnlyWhenCanceled` | apps/api/src/payments/stripe-payment.service.ts:822-857 | a step that puts stock back released an allocation whose intent the provider has cancelled |
| `StockConservation.EditIsConserved` | apps/api/src/admin/admin-product-creation.service.ts:186-265 | an administrator's stock edit moves shelf and baseline alike |
| `DiscountSafety.OneDiscountPerUser` | apps/api/src/payments/payment-attempt.service.ts:292-300 | a user holds or has spent at most one claim, and a claim's status is a function of its attempt's status |
| `DiscountSafety.DiscountedOrderIsFirst` | apps/api/src/payments/payment-attempt.service.ts:698-715 | when a discounted order becomes paid, its user had no paid order before |
| `DiscountSafety.OneDiscountedOrder` | apps/api/src/payments/payment-attempt.service.ts:698-715 | of any two paid orders of one user at most one is discounted |
| `DiscountSafety.ReachableDiscount` | apps/api/src/payments/payment-attempt.service.ts:590-602 | an account pays full price only after a paid order, and holds an unspent claim only before |
| `WebhookReplays.RepeatsDoNotMatter` | apps/api/src/payments/stripe-payment.service.ts:368-428 | any run and the run without its repeats end in the same world |
| `WebhookReplays.AcceptedOnce` | apps/api/src/payments/stripe-payment.service.ts:409-425 | no event id is accepted twice in any run |
| `WebhookReplays.SpentForEver` | apps/api/src/payments/stripe-payment.service.ts:1128-1137 | an accepted id has no effect at any later point of any run, with any payload |
| `QuoteEqualsCharge.QuoteIsWhatIsSealed` | apps/api/src/payments/payment-attempt.service.ts:204-309 | at one state and time, `prepare` creates an attempt iff the draft quotes `ready` and no open attempt of the account holds the discount; the sealed prices are the quote's |
| `HeldDiscount.ReadyQuoteCanBeRefused` | apps/api/src/payments/payment-attempt.service.ts:698-715 | a concrete reachable run in which a draft quotes `ready` while its own earlier attempt holds the discount, and another key is refused |
| `QuoteEqualsCharge.SealIsBoundedSum` | apps/api/src/payments/payment-attempt.service.ts:204-232 | sealing succeeds iff all lines are available and their sum fits, in the order of product ids |
| `QuoteEqualsCharge.QuoteIsBoundedSum` | apps/api/src/checkout/checkout.service.ts:577-623 | a quote is `ready` iff all lines are available and their sum fits, in the order of the cart |
| `QuoteEqualsCharge.PreviewIsGate` | apps/api/src/checkout/checkout.service.ts:625-661 | the draft's discount preview is what `canClaimFirstPurchaseDiscount` decides, unless an open attempt of the account, be it of this draft, holds the claim |
| `QuoteEqualsCharge.HeldQuoteIsSealed` | apps/api/src/checkout/checkout.service.ts:663-703 | while a claim is held the draft's quote is the sealed numbers and their time |
| `QuoteEqualsCharge.HeldDraftShowsSealed` | apps/api/src/checkout/checkout.service.ts:143-173 | `getDraft` then succeeds for everyone with access and shows exactly these |
| `QuoteEqualsCharge.ProviderChargesTheTotal` | apps/api/src/payments/stripe-gateway.service.ts:60-92 | the provider's two line items add up to the sealed total, which is what it echoes, captures and the order records |
| `QuoteEqualsCharge.ResumeOnlyUnchanged` | apps/api/src/payments/payment-attempt.service.ts:172-186 | a repeated key resumes its attempt iff the draft has the version and owner it was sealed with, conflicts otherwise, and never writes |
| `DraftIdempotency.ReplayedSaveChangesNothing` | apps/api/src/checkout/checkout.service.ts:199-319 | a replayed save answers with the first quote and changes neither fields nor version; another body under the key conflicts |
| `DraftIdempotency.LiveCapabilityIsNeverExtended` | apps/api/src/checkout/checkout.service.ts:199-319 | while a guest capability is live no step extends or replaces it, and an owned draft keeps its owner |
| `DraftIdempotency.OnlyTheIssuerRecovers` | apps/api/src/checkout/checkout.service.ts:484-508 | without access a guest gets a capability back only with the request that issued it, and nothing is written |
| `DraftIdempotency.IssuerAlwaysRecovers` | apps/api/src/checkout/checkout.service.ts:484-508 | over every run within the lifetime the issuing request recovers the same capability and the same quote |
| `DraftIdempotency.StepKeepsDraft` | apps/api/src/checkout/checkout.service.ts:199-319 | versions never decrease, an equal version means equal fields, and recorded answers stay, except when an expired guest draft starts over |
| `CashOrderExactness.AvailableIffExactlyTheCart` | apps/api/src/orders/orders.service.ts:323-364 | all outcomes are `available` iff the submitted items are the cart's slug and amount lines, in any order, and each line is available |
| `CashOrderExactness.OrderedIffExactlyTheCart` | apps/api/src/orders/orders.service.ts:116-306 | an order is placed iff the items are the cart, available, and the sums fit; it holds the cart's lines, totals and pricing |
| `CashOrderExactness.PricedLinesCanBeTaken` | apps/api/src/orders/orders.service.ts:200-251 | the cash order's decrement loop cannot fail once its lines are available |
| `CashOrderExactness.RetryGetsTheSameOrder` | apps/api/src/orders/orders.service.ts:446-456 | the same canonical checkout under the same or an unused key gets the same order and writes nothing |
| `CashOrderExactness.NeverOrderedTwice` | apps/api/src/orders/orders.service.ts:127-152 | after a cash order, no run and no request ever creates another for the cart or takes stock for it again |
| `Records.TakeStockFailsOnlyOnShortage` | apps/api/src/payments/stripe-payment.service.ts:631-639 | for distinct products the guarded loop fails iff some line alone exceeds its stock |
| `Records.TakeStockEffect` | apps/api/src/payments/stripe-payment.service.ts:631-639 | the loop changes each product's stock by exactly its line and nothing else |
| `Records.ReturnStockEffect` | apps/api/src/payments/stripe-payment.service.ts:844-849 | the returning loop adds exactly each line and changes nothing else |
| `Records.LinesByProductKeeps` | apps/api/src/payments/payment-attempt.service.ts:673-696 | sorting lines by product loses, adds and duplicates none |
| `Money.LineTotalIsNearestCent` | apps/api/src/catalog/product-amount.ts:40-65 | a line total is accepted iff inputs and result are in range, and it is the nearest cent to price times amount over basis, ties up |
| `Money.LineTotalMonotone` | apps/api/src/catalog/product-amount.ts:40-65 | a larger amount never costs less |
| `Money.AddAllIsBoundedTotal` | apps/api/src/catalog/product-amount.ts:67-73 | repeated bounded addition succeeds iff the exact total fits, and gives it |
| `Money.SubtotalIgnoresLineOrder` | apps/api/src/catalog/product-amount.ts:67-73 | permuting the lines changes neither acceptance nor sum |
| `Money.RoundingErrorIsBounded` | apps/api/src/catalog/product-amount.ts:40-65 | k separately rounded lines are at most k/2 cents from the exact sum |
| `Money.PricingIsExact` | apps/api/src/checkout/checkout-pricing.ts:25-65 | pricing succeeds iff the amounts fit; the discount is the nearest cent to 6 percent, between 0 and the subtotal, and total = subtotal - discount + shipping |
| `Database.Tables.DecrementStock` | apps/api/src/payments/stripe-payment.service.ts:631-639 | the row-by-row loop is `TakeStock`, and reports the first shortage |
| `Database.Tables.InsertOrder` | apps/api/prisma/migrations/20260910120000_add_stripe_sandbox_orchestration/migration.sql:26-31 | an order is inserted iff it is cancelled or its cart has no other that is not |
| `Database.Tables.IncrementStock` | apps/api/src/payments/stripe-payment.service.ts:844-849 | the row-by-row loop is `ReturnStock` |
| `PaymentAttemptService.Attempts.Prepare` | apps/api/src/payments/payment-attempt.service.ts:137-309 | the program has exactly the effect of `Prepare` on the tables, and none when it is rejected |
| `PaymentAttemptService.Attempts.SealItems` | apps/api/src/payments/payment-attempt.service.ts:204-232 | the accumulating loop seals the lines and subtotal of `SealLines` |
| `PaymentAttemptService.Attempts.MarkPending` | apps/api/src/payments/payment-attempt.service.ts:311-345 | the program is `MarkPending` |
| `PaymentAttemptService.Attempts.MarkProviderSessionCreated` | apps/api/src/payments/payment-attempt.service.ts:347-397 | the program is `MarkProviderSessionCreated` |
| `PaymentAttemptService.Attempts.ReleaseDefinitiveOutcome` | apps/api/src/payments/payment-attempt.service.ts:437-478 | the program is `ReleaseDefinitiveOutcome`, claim included |
| `PaymentAttemptService.Attempts.MarkSucceeded` | apps/api/src/payments/payment-attempt.service.ts:480-603 | the program is `MarkSucceeded`, claim included |
| `StripePaymentService.Payments.ProcessWebhook` | apps/api/src/payments/stripe-payment.service.ts:368-428 | the program has exactly the effect of `ProcessWebhook`, and none when it throws |
| `StripePaymentService.Payments.ApplyIntentEvent` | apps/api/src/payments/stripe-payment.service.ts:430-485 | the program is `ApplyIntentEvent` |
| `StripePaymentService.Payments.ApplySessionEvent` | apps/api/src/payments/stripe-payment.service.ts:487-531 | the program is `ApplySessionEvent` |
| `StripePaymentService.Payments.ApplyIntentState` | apps/api/src/payments/stripe-payment.service.ts:533-577 | the program is `ApplyIntentState`, rolled back when it throws |
| `StripePaymentService.Payments.AllocateInventory` | apps/api/src/payments/stripe-payment.service.ts:579-683 | the program with its loops and the insert that the index may refuse is `AllocateInventory` |
| `StripePaymentService.Payments.RequestCapture` | apps/api/src/payments/stripe-payment.service.ts:720-747 | the program is `RequestCapture` |
| `StripePaymentService.Payments.FinalizeCapturedPayment` | apps/api/src/payments/stripe-payment.service.ts:765-820 | the program with its cart loop is `FinalizeCapturedPayment` |
| `StripePaymentService.Payments.ReleaseUnpaidPayment` | apps/api/src/payments/stripe-payment.service.ts:822-869 | the program with its stock loop is `ReleaseUnpaidPayment` |
| `StripePaymentService.Payments.MarkAttemptReconciliation` | apps/api/src/payments/stripe-payment.service.ts:871-894 | the program is `MarkAttemptReconciliation` |
| `StripePaymentService.Payments.AttachReference` | apps/api/src/payments/stripe-payment.service.ts:964-996 | the program is `AttachReference` |
| `OrdersService.Orders.Create` | apps/api/src/orders/orders.service.ts:116-306 | the program has exactly the effect of `CreateCashOrder`, and none when it is rejected |
| `OrdersService.Orders.AllocationOutcomes` | apps/api/src/orders/orders.service.ts:323-364 | the map-filling and reporting loops give the outcomes of the specification, in order |
| `OrdersService.Orders.PlaceOrder` | apps/api/src/orders/orders.service.ts:162-306 | pricing, decrementing and writing the order is `PlaceOrder` |
| `CheckoutService.Checkout.SaveDraft` | apps/api/src/checkout/checkout.service.ts:175-364 | the program has exactly the effect of `SaveDraft`, and none when it is rejected |
| `CheckoutService.Checkout.BuildQuote` | apps/api/src/checkout/checkout.service.ts:577-623 | the loop with its running subtotal and status is `BuildQuote` |
| `ReleaseHistory.HistoryHolds` | deploy/receive-release.py:523-636 | over all runs of deploys, rollbacks and crashes: finalized implies success implies deployment implies candidate, of one identity and the first three equal; `current`, `previous` and `latest.json` name successful releases; `initial-complete.json` equals `initial.json` |
| `ReleaseHistory.RecordsAreWrittenOnce` | deploy/receive-release.py:273-278 | a release record, once written, has the same value after every later run |
| `ReleaseHistory.PlainDeployWaits` | deploy/receive-release.py:550-551 | before the initial deployment is complete a plain deploy changes nothing at all |
| `ReleaseHistory.KeepsHistory` | deploy/receive-release.py:523-636 | every stage that passes its guard keeps the history |
| `ReleaseHistory.MovesOn` | deploy/receive-release.py:523-636 | every stage establishes what the next one relies on |
| `ReleaseHistory.ServerKeeps` | deploy/receive-release.py:379-397 | any log of interrupted commands keeps the history and takes no record back |
| `ReleaseRecovery.FinishesIffAccepted` | deploy/receive-release.py:523-636 | an uninterrupted deploy finishes iff conditions that can be checked beforehand hold, and then reaches its goal |
| `ReleaseRecovery.RunningAgainRecovers` | deploy/receive-release.py:474-636 | after a crash at any stage the same command reaches the goal of the first run, with `previous` being the release that was current before; the one refusal leaves at most the pending marker |
| `ReleaseRecovery.EveryAttemptRecovers` | deploy/receive-release.py:474-636 | the same after any number of interrupted attempts |
| `ReleaseRecovery.GoalStays` | deploy/receive-release.py:523-636 | no stage moves the goal, except that writing the deployment record fixes its time |
| `ReleaseRecovery.GoalsDifferInTimeOnly` | deploy/receive-release.py:612-622 | goals of one start differ in `deployed_at` only, and not even there once it is recorded |
| `ReleaseRecovery.DeployingTwiceIsOnce` | deploy/receive-release.py:523-636 | deploying the deployed release again changes nothing |
| `ReleaseRollback.RollbackFinishesIffOpen` | deploy/receive-release.py:379-397 | a rollback finishes iff its opening checks pass, then names exactly the target in links, tags and `latest.json`; a refused one changes nothing |
| `ReleaseRollback.EveryRollbackRecovers` | deploy/receive-release.py:379-397 | however often and wherever it is interrupted, repeating a rollback is never refused and ends where an uninterrupted one would |
| `ReleaseRollback.RollbackUndoesDeploy` | deploy/receive-release.py:281-294 | rolling back to the release that was current before a deploy restores `current` and `latest.json`, keeps the undone release as `previous`, and no record changes |
| `Receiver.Server.DeployRelease` | deploy/receive-release.py:523-636 | for every length of life the program leaves exactly what that many stages leave, reports refusal or completion exactly when they do, keeps the history, and when it finishes the deploy was acceptable and the goal is reached |
| `Receiver.Server.RollbackRelease` | deploy/receive-release.py:379-397 | the same for a rollback and its goal |
| `Receiver.Server.Publish` | deploy/receive-release.py:304-313 | aliases, success record, latest tags, `latest.json` and links are written in the order of the stages |
| `Receiver.Server.PromoteLinks` | deploy/receive-release.py:281-294 | the two links are replaced in the order of the stages |
| `Receiver.Server.ReconcileAliases` | deploy/receive-release.py:263-270 | the loop over the images follows the alias stages and refuses a different image |
| `Receiver.Server.ReconcilePending` | deploy/receive-release.py:474-483 | the pending marker is taken over as its stage says |
| `Receiver.Server.LoadDeployment` | deploy/receive-release.py:509-520 | a recorded deployment is accepted as its stage says |
| `Receiver.Server.ClearPendingMarker` | deploy/receive-release.py:486-489 | the marker is removed as its stage says |
| `Sessions.NeverMoreThanFive` | apps/api/src/auth/session/session.service.ts:47-149 | from an empty table on, no run leaves a user with more than five live sessions at any later time |
| `Sessions.AtMostFiveLive` | apps/api/src/auth/session/session.service.ts:82-134 | the cap, once it holds, holds after every run and at any later time |
| `Sessions.RoomIsMade` | apps/api/src/auth/session/session.service.ts:97-119 | making room leaves at most four live sessions, revives none, and revokes only sessions older than all that stay |
| `Sessions.DeadStaysDead` | apps/api/src/auth/session/session.service.ts:158-260 | a session that is not live never becomes live again and keeps its user |
| `Sessions.IdleAccuracy` | apps/api/src/auth/session/session.service.ts:185-218 | over runs in which the session may be used again, one accepted at t stays accepted up to t+23h45m unless revoked, expired or its user changed, and is rejected from 24 hours after its last touch |
| `Sessions.UsedSessionStaysAccepted` | apps/api/src/auth/session/session.service.ts:185-218 | the accepting half for one use, whether or not that use wrote `lastSeenAt` |
| `Sessions.UnusedSessionIsRejected` | apps/api/src/auth/session/session.service.ts:185-200 | the rejecting half |
| `SessionService.Service.Issue` | apps/api/src/auth/session/session.service.ts:47-149 | the program that revokes and inserts rows is `Issue` |
| `Sessions.UsesDoNotDisturb` | apps/api/src/auth/session/session.service.ts:198-218 | whatever other requests touch between read and guarded update, authentication accepts exactly the sessions it would accept alone |
| `Sessions.TurnedAwayForAReason` | apps/api/src/auth/session/session.service.ts:158-230 | whatever else runs in between, a session is turned away only if a read finds it unacceptable or both guarded updates miss |
| `SessionService.Service.TryOnce` | apps/api/src/auth/session/session.service.ts:158-218 | one attempt, with other transactions between its read and its guarded update, is `TryOnce` |
| `SessionService.Service.Authenticate` | apps/api/src/auth/session/session.service.ts:151-230 | with its one retry it is `AuthenticateAmong`; among mere uses it accepts exactly what `Accepts` says |
| `SessionService.Service.RevokeCurrent` | apps/api/src/auth/session/session.service.ts:232-249 | the program is `RevokeCurrent` |
| `SessionService.Service.RevokeAll` | apps/api/src/auth/session/session.service.ts:251-260 | the program revokes every unrevoked row of the user and counts them |
| `RateLimits.NoWindowExceedsItsLimit` | apps/api/src/auth/login-rate-limiter.ts:14-41 | for any stream of requests no identity has more than its limit accepted in any minute or hour, and at most 10,000 identities are tracked |
| `RateLimits.ConsumeRefinesHistory` | apps/api/src/auth/login-rate-limiter.ts:14-57 | pruning and forgetting never change a decision the full history would give, capacity refusals aside |
| `RateLimits.ConsumeStaysWithinCapacity` | apps/api/src/auth/login-rate-limiter.ts:14-41 | a request never pushes the number of tracked identities over the bound |
| `RateLimits.SlidingWindowBuckets.Consume` | apps/api/src/auth/login-rate-limiter.ts:14-41 | the program over its mutable map is `ConsumeAttempt` |
| `RateLimits.SlidingWindowBuckets.PruneExpired` | apps/api/src/auth/login-rate-limiter.ts:43-51 | the pruning loop is `Prune` |
| `RateLimits.RegistrationRateLimiter.Consume` | apps/api/src/auth/registration-rate-limiter.ts:11-46 | the registration limiter is the same algorithm with limits 5 and 20 |
| `RateLimits.LoginRateLimiter.ConsumeIp` | apps/api/src/auth/login-rate-limiter.ts:60-77 | counting an address leaves the account buckets alone |
| `RateLimits.LoginRateLimiter.ConsumeAccount` | apps/api/src/auth/login-rate-limiter.ts:60-77 | counting an account leaves the address buckets alone |
| `CartMerge.MergeTakesTheLarger` | apps/api/src/cart/cart.service.ts:182-297 | in every successful branch, adoption included, the account has the larger amount of each product and at most 50 lines, and no row that others refer to is deleted |
| `CartMerge.MergeTwiceIsOnce` | apps/api/src/cart/cart.service.ts:182-297 | retrying a finished merge finds nothing to do |
| `CartMerge.MergeIsRejectedExactlyWhen` | apps/api/src/cart/cart.service.ts:229-295 | if both carts are valid now, a merge is rejected iff the guest is active and the union has more than 50 products, or the account has a cart and an order or a payment attempt refers to the guest's |
| `CartMerge.TriedPaymentBlocksMerge` | apps/api/prisma/migrations/20260910100000_add_first_purchase_discount_claims/migration.sql:314-317 | a guest with one line and no order, whose draft has a payment attempt, can be adopted by an account without a cart but never merged into an existing one |
| `CartMerge.LargerIgnoresOrder` | apps/api/src/cart/cart.service.ts:206-295 | the merge of items is commutative, associative and idempotent |
| `CartMerge.CartService.MergeGuestIntoAccount` | apps/api/src/cart/cart.service.ts:182-297 | the program with its merging loop, and the delete that foreign keys may refuse, is `MergeGuest`; a refused merge changes nothing |
| `CartMerge.CartService.DeleteGuest` | apps/api/prisma/migrations/20260826120000_add_orders/migration.sql:141-144 | the guest's row goes iff neither an order nor a payment attempt refers to it |
| `CartMerge.CartService.Merged` | apps/api/src/cart/cart.service.ts:206-295 | the loop that fills the `merged` map computes the pointwise larger items |
| `CartMerge.CartService.Add` | apps/api/src/cart/cart.service.ts:354-401 | on either cart, adding succeeds iff the cart is open (no order, and not expired for a guest), the new amount is valid and there is room; it changes one line, and otherwise nothing |
| `CartMerge.CartService.Update` | apps/api/src/cart/cart.service.ts:403-430 | on either cart, updating succeeds iff the cart is open, the line exists and the amount is valid; it changes one line, and otherwise nothing |
| `PriceText.NormalizedIsPrinted` | apps/web/src/features/admin/admin-product-create-validation.ts:238-246 | what the form sends for a money text is what the shop prints for its minor units |
| `PriceText.FormAndApiAgree` | apps/api/src/admin/admin-product-creation.service.ts:307-319 | the API accepts a normalised text iff the form does, with the same minor units |
| `PriceText.PrintedPriceReadsBack` | apps/web/src/lib/format-price.ts:39-56 | printing any accepted amount and reading it back, in form or API, gives that amount |
| `PriceText.NormalFormIsCanonical` | apps/web/src/features/admin/admin-product-create-validation.ts:238-246 | two money texts normalise alike iff they are the same amount |

## Left out

- HTTP controllers, guards, DTOs, OpenAPI, React and Next.js: no state of their own.
- The webhook signature, session cookies, token formats, HMAC, SHA-256 and Argon2: fresh values and injective digests.
- Row locks, advisory locks and serialization retries: a transaction is one atomic step.
- The other unique indexes: every write they could refuse comes after a lookup of the same key, or the invariant rules it out (one claim a user: `DiscountSafety.OneDiscountPerUser`; distinct references, one allocation and one order an attempt: `ProtocolRuns.ReachableHolds`); the provider's session ids are fresh.
- The row checks and the triggers on single rows: not modelled. The two consistency checks at commit are, in `StorageChecks`; the foreign keys only where rows are deleted, in `CartMerge`.
- The deletion of a guest's cart is no step of `Protocol`: it is refused for every cart that an order or an attempt refers to.
- `startCheckout`'s error handling: its transactions and provider calls are separate steps, and its failure branches are the orders of steps in which later ones are missing.
- `currentStatus`, `findAccessibleAttempt` and the status DTOs: read-only.
- `releaseReason`, `reconciliationRequiredAt` and similar audit columns: written and never read by the modelled code.
- DEFINITIVELY_FAILED attempts: no caller in the repository releases with `failed`, and the invariant proves the status unused.
- A customer's contact fields: one opaque value that enters snapshots and fingerprints.
- `purgeExpiredGuestDrafts` and the normalisation of replay snapshots written by older versions: not modelled.
- The order of product slugs (`localeCompare`): slugs are ranks in that order.
- Administrator edits of `stockAmount`: they reset the conservation baseline by the same amount.
- `validate_release_source`, image archive inspection, downloaded deploy files, the contents of `release.env`, Compose restarts and health checks: external calls that succeed or stop the command.
- Migrations inside one deploy: each is one stage; a crash inside a single migration is the migration tool's concern.
- Removal of images from the Docker host: a loaded image stays loaded.
- Failed retrieves in a pass of the job: the passes of `ReconciliationJob` are those in which the provider answers. A failed one only marks the attempt, which also moves it back; with neither reference nor session nothing is asked.
- Steps between two runs of the job that touch the row in question or an older one: excluded by `ReconciliationJob.Undisturbed`. A customer's own retry or a late webhook can still move a stuck attempt.
- The time in `updatedAt`: a row carries the time its transaction was given. Attempt ids, which break ties, are numbers in the order of creation.
- Product eligibility during a merge is a catalogue given to `MergeGuest`; the cart's expiry refresh and `getCart` are not modelled beyond the expiry test.
- The other fields of the product form, and minor units beyond JavaScript's exact integers, which no accepted price reaches.
- Floating-point formatting through `Intl.NumberFormat`: only the exact decimal text is modelled.
