# A verified model of the ride-hailing platform's protocols

MyUber is a set of Go services, each with its own state. Rides are requested, matched to drivers through
Redis, driven, recorded, and billed; events travel between the services over Kafka, written to an outbox in
the same transaction as the state they tell about. This project models the parts of it whose correctness
depends on every interleaving or every input, and proves what the services rely on.

Five cores are modelled.

1. **Billing.** `BillingTables`, `Ledger` and `BillingCommands` give the tables and the effect of every
   transaction; `BillingService` and `LedgerStore` carry the transactions out statement by statement.
   `BillingProtocol` lets any number of workers, webhook deliveries and consumers run against them, with
   crashes, leases that expire under live workers, and a finalizing transaction split into the lock on the
   payment row, the read of the invoice outside the transaction, and the commit. `BillingTheorems` states
   what holds after every run, `BillingVerdicts` what each answer of the provider does to the books and that
   the handlers take the protocol's steps, `BillingLeases` what a lease is worth, `BillingIntents` that
   intent ids stay apart; `ChargeOnce` adds a provider that decides each idempotency key once;
   `ChargeSweeps` and `ChargeBudget` prove that collection ends, and `Stranding` says exactly when an open
   invoice drops out of it.
2. **Tracks.** `Simplify` is the in-place Ramer-Douglas-Peucker recursion, `SimplifyGeometry` what its
   tolerance means in the plane, `Polyline` the Encoded Polyline Algorithm Format at precision 5 with its
   int64 arithmetic.
3. **Matching.** `MatchingKeys` holds the Redis keys and commands. `AcceptRace` interleaves accept calls
   with everything else one command at a time, and `AcceptHistory` says what a winner has been through.
   `Matching` gives the whole handlers, `MatchingService` runs them, `MatchingHandlers` proves what they do
   with their rules and that they are steps of the runs, `MatchingRuns` what runs of whole handlers keep,
   `MatchingPool` what the fall-back pool and concurrent offers come to, `CancelTwice` is a run that goes
   wrong, and `Ranking` ranks and selects the drivers.
4. **Tracking.** `Tracking` has the handlers that open and close a ride's tracking window, `TrackingRace`
   their rendezvous one Redis command at a time, `TrackingStamps` when the window opens.
5. **Delivery.** `Rides` is the ride's life in the ride service, `RideHistory` its diagram and the origin of
   its events, `Outbox` the outbox table and worker, `OutboxTiming` any number of outbox workers with a
   clock, `OutboxSteps` that its steps are the worker's, `OutboxEdge` and `OutboxStarvation` the runs that
   show its results to be sharp, `Consumer` the Kafka consumer loop, and `DeliveryChain` puts rides, topics,
   consumers and billing together; `ChainOrigins` follows an invoice's amount back to the client's request
   or cancellation.

`Int64` has the wrap-around arithmetic, `Clock` the timestamps, `Sequences` and `Wrappers` stock definitions.

## How to read it

Each service's handlers appear twice: as a function from the old state to the new one, which the protocol
proofs reason about, and as a method of a class that performs the statements or commands in the source's
order and is proved to compute that function. State machines are a `Step` datatype, a total `Next` function
and `Run` over a sequence of steps; the main theorems are about `Run` of any sequence. What a function is
for is stated beside it without its formula: an outcome in the tables, a distance in the plane, a round
trip, an exact condition, or the step of a run that it is.

Some results are about what the code does not do. For each there is the exact condition and a run that
meets it.

- **Small charges cannot be invoiced.** The ledger entry table refuses an amount of zero, so a fare whose
  commission rounds to zero is refused (`Ledger.T1StorableIff` says exactly which), and because the consumer
  retries in place, such an event stops its partition for good (`DeliveryChain.RefusedChargeBlocks`; a run in
  `DeliveryChain.ShortRideBlocksBilling`).
- **A repeated ride.cancelled can put a driver online while he drives**: exactly when the driver of the
  cancelled ride is out on another one (`MatchingRuns.RepeatedCancelConservesIff`; a run in
  `CancelTwice.RepeatedCancelHappens`).
- **Parked outbox rows keep their place** at the head of the claim query, so that batchSize of them starve
  the rows behind (`OutboxTiming.StarvedForever`), and for every setting a run gets there
  (`OutboxStarvation.StarvationHappens`).
- **The outbox lease needs 999 ms of slack**, because its timestamp drops the fraction of a second; the bound
  is exact to the millisecond for every setting (`OutboxEdge.ExclusionIff`).
- **A webhook's late "processing" strands an open invoice**, since it clears the schedule without a guard:
  exactly such a clearing strands it (`Stranding.StrandedIff`), and for good exactly when none of its payments
  is left to resolve (`Stranding.StrandedForGoodIff`; a run in `Stranding.LateProcessingHappens`).
- **Deltas of 2^62 and more do not survive the polyline format**: exactly the tracks without such a delta
  come back (`Polyline.RoundTripIff`).

Where code and comments differ, the model follows the code. The comment in the ledger repository says that
an account lost to a concurrent insert is read back; inside a Postgres transaction the unique violation has
already aborted that transaction, so the posting as a whole is retried instead. The finalizers' comments
speak of invoices that are no longer open at that point; `BillingTheorems.ClosedBranchesUnreachable` shows
that this does not happen.

## Model

| member | source | states |
|---|---|---|
| Ledger.ValidateLegs | services/billing-service/internal/domain/ledger.go:54-71 | accepts exactly the leg lists of one currency whose int64 debit and credit totals agree; reports a mixed currency first |
| Ledger.T1AlwaysValidates | services/billing-service/internal/application/command/create_invoice_from_ride.go:134-174 | the opening legs pass validation for every int64 amount and commission, wrap-around included |
| Ledger.SplitIsCommission | services/billing-service/internal/application/command/create_invoice_from_ride.go:155-156 | for 0 to 10000 basis points and amounts up to MaxInt64/10000 the fee is amount*bps/10000, lies between 0 and the amount, and fee and payable add up |
| Ledger.StoredSplitIsExact | services/billing-service/internal/application/command/create_invoice_from_ride.go:155-156 | whenever all opening legs are storable, fee and payable add up to the amount exactly, even if the product wrapped |
| Ledger.T1StorableIff | services/billing-service/internal/application/command/create_invoice_from_ride.go:134-174 | for every int64 amount and commission: the ledger table takes a ride fare's opening legs exactly when the wrapped product is at least 10000 and below 10000 times the amount, and a cancellation fee's when it is positive |
| Ledger.T1StorableInRange | services/shared/migrations/sql/0006_billing.up.sql:159 | without overflow that means a fee of at least one minor unit and a commission below 100 % |
| Ledger.SmallFareIsRefused | services/shared/migrations/sql/0006_billing.up.sql:159 | a fare of 4 minor units at 20 % cannot be invoiced at all: its fee rounds to 0, which the entry table refuses |
| LedgerStore.Store.GetOrCreateAccount | services/billing-service/internal/persistence/ledger_postgres_repository.go:61-103 | returns the one account row of a (type, owner, currency) key, adding it only when missing; account rows stay free of duplicates |
| LedgerStore.Store.PostTransaction | services/billing-service/internal/persistence/ledger_postgres_repository.go:28-59 | the loop over legs leaves tables that represent the old log plus one transaction, exactly when validation and the table accept every leg |
| LedgerStore.QueryIsBalance | services/billing-service/internal/persistence/ledger_postgres_repository.go:105-126 | for every log the balance query over account and entry rows computes credits minus debits; the accounts without owner and of the nil owner come out as one |
| BillingService.CreateInvoiceFromRide | services/billing-service/internal/application/command/create_invoice_from_ride.go:80-127 | commits the invoice and its opening transaction together; a second (ride, type) is a successful no-op; a refused posting leaves nothing |
| BillingVerdicts.CreatingOpensOnce | services/billing-service/internal/application/command/create_invoice_from_ride.go:80-127 | a repeated command changes nothing and succeeds; a first one opens an invoice on its terms, due at once, and posts it exactly when the ledger takes the charge, and otherwise fails |
| BillingService.FinalizeChargeFailed | services/billing-service/internal/application/command/finalize_charge_failed.go:75-155 | guarded failure, then retry with back-off or write-off with its posting and event, decided on a read made outside the transaction |
| BillingService.Backoff | services/billing-service/internal/application/command/finalize_charge_failed.go:157-169 | the back-off for an attempt: clamped into the configured list, one minute when the list is empty |
| BillingService.FinalizeChargeSucceeded | services/billing-service/internal/application/command/finalize_charge_succeeded.go:71-149 | guarded success, paid invoice, posting and event with the fee split commit together or not at all |
| BillingService.ClaimInvoice | services/billing-service/internal/workers/charge_worker.go:161-233 | skips a leased attempt, resumes an expired one under its old key with a new lease, or starts the next numbered attempt |
| BillingService.BuildClaim | services/billing-service/internal/workers/charge_worker.go:235-258 | rebuilds the claim from the payment row; without a method an immediate failure, with a missing row a skip |
| BillingService.ClaimDue | services/billing-service/internal/workers/charge_worker.go:125-157 | the claim loop commits all claims of the sweep, skipping invoices with missing rows, or undoes the whole batch |
| BillingLeases.LeaseKeepsOut | services/billing-service/internal/workers/charge_worker.go:161-174 | once a payment with a method is handed out, every sweep of its invoice before the lease ends is turned away and changes nothing |
| BillingLeases.EndedLeaseResumes | services/billing-service/internal/workers/charge_worker.go:175-181 | from the moment the lease ends the same payment is handed out again under its old key, with a new lease |
| BillingLeases.MissingRowsSkip | services/billing-service/internal/workers/charge_worker.go:235-258 | a payment whose method or customer is gone is leased again but not handed out |
| BillingLeases.NextAttemptStarts | services/billing-service/internal/workers/charge_worker.go:183-233 | with nothing under way the next numbered attempt starts on the invoice's terms: to be charged, to be failed for want of a method, or kept back for want of a customer; a stale count aborts |
| BillingLeases.SweptAreUnderway | services/billing-service/internal/workers/charge_worker.go:125-157 | a batch leaves every invoice of its sweep with an attempt under way that is leased or waits to be failed, whether or not it was handed out |
| BillingLeases.OneClaimPerLease | services/billing-service/internal/workers/charge_worker.go:125-181 | in every run no sweep within the configured lease, less a second, hands out a payment that a sweep has handed out |
| BillingService.AbortSticks | services/billing-service/internal/workers/charge_worker.go:123-157 | an error in one invoice abandons the batch whatever invoices follow |
| BillingService.StubProvider.Charge | services/billing-service/internal/infrastructure/payment/stub/stub_provider.go:25-45 | a key is decided once, by the payment method's prefix; every replay gets that first answer |
| BillingVerdicts.StubDecides | services/billing-service/internal/infrastructure/payment/stub/stub_provider.go:25-45 | the prefix of the payment method decides between the two declines and acceptance, whatever follows it |
| BillingService.Resolve | services/billing-service/internal/workers/charge_worker.go:273-331 | applies the provider's answer: finalize either way, or mark processing and clear the schedule only if that update won |
| BillingVerdicts.AcceptedPays | services/billing-service/internal/workers/charge_worker.go:296-304 | from any good state the worker and the webhook book an accepted charge as succeeded under its intent id and its invoice as paid, unless another payment holds the intent id |
| BillingVerdicts.RefusedRetries | services/billing-service/internal/workers/charge_worker.go:322-331 | a refused charge, or one that requires action, is booked as failed with its code; the invoice is due again after the scheduled back-off, or written off when the budget is used up |
| BillingVerdicts.PendingClears | services/billing-service/internal/workers/charge_worker.go:305-321 | a processing answer marks a pending payment under a free intent id and clears the schedule; otherwise the worker changes nothing |
| BillingVerdicts.HandlersCommit | services/billing-service/internal/interfaces/http/handler/webhook_handler.go:99-130 | whatever happened since the lock and the read, what worker and webhook make of an answer is the commit step of the protocol with the outcome of that answer |
| BillingVerdicts.HandlersAreSteps | services/billing-service/internal/workers/charge_worker.go:273-331 | undisturbed, that is a lock, a read and a commit |
| BillingService.Inbox.Apply | services/billing-service/internal/interfaces/http/handler/webhook_handler.go:74-97 | a processed event id changes nothing; otherwise the effect is applied and the event marked, and if the effect fails, or marking after it, the delivery is an error and the event stays unmarked |
| BillingService.ReappliedIsSame | services/billing-service/internal/interfaces/http/handler/webhook_handler.go:92-97 | an event applied again, because marking it failed after its effect was committed, changes nothing more |
| BillingService.Dispatch | services/billing-service/internal/interfaces/http/handler/webhook_handler.go:99-130 | the event's payment is found by intent and resolved; a processing event clears the schedule whether or not its update won |
| BillingService.FindByIntent | services/billing-service/internal/persistence/payment_postgres_repository.go:55-64 | finds a payment with the intent id exactly when one exists |
| BillingIntents.LookupIsUnique | services/billing-service/internal/persistence/payment_postgres_repository.go:55-64 | in every reachable state the lookup finds the one payment that has the intent id |
| BillingIntents.TakenIntentIsRefused | services/billing-service/internal/persistence/payment_postgres_repository.go:78-107 | marking or finalizing a second payment under an intent id fails and changes nothing |
| BillingTables.UnresolvedAttempt | services/billing-service/internal/persistence/payment_postgres_repository.go:40-53 | finds an invoice's pending or processing payment exactly when one exists |
| BillingSteps.CreateKeepsGood | services/billing-service/internal/application/command/create_invoice_from_ride.go:80-127 | creating an invoice keeps the billing invariant: uniqueness, coupling, attempt budget, books, records |
| BillingSteps.FailKeepsGood | services/billing-service/internal/application/command/finalize_charge_failed.go:75-155 | finalizing a failure keeps the invariant when the outside read is as old as the row lock allows |
| BillingSteps.SucceedKeepsGood | services/billing-service/internal/application/command/finalize_charge_succeeded.go:71-149 | finalizing a success keeps the invariant, and fails only on a taken intent id |
| BillingSteps.MarkProcessingKeepsGood | services/billing-service/internal/persistence/payment_postgres_repository.go:78-90 | marking a payment as processing keeps the invariant |
| BillingSteps.ClaimOneKeepsGood | services/billing-service/internal/workers/charge_worker.go:161-233 | claiming keeps the invariant even when the sweep's attempt count is stale |
| BillingSteps.StaleCountIsCaught | services/billing-service/internal/workers/charge_worker.go:183-218 | a stale attempt count collides with an existing attempt number or key, so that no second row for one attempt appears |
| BillingSteps.KeysDistinct | services/billing-service/internal/workers/charge_worker.go:183-187 | no two payments share an idempotency key |
| BillingProtocol.SweepKeepsGood | services/billing-service/internal/workers/charge_worker.go:125-157 | a whole sweep, over any due rows and any other workers' claims, keeps the invariant |
| BillingProtocol.NextSound | services/billing-service/internal/workers/charge_worker.go:125-331 | every step of workers, webhooks, consumers, crashes and lease expiries keeps the invariant, the three-step finalizers included |
| BillingProtocol.RunSound | services/billing-service/internal/workers/charge_worker.go:74-106 | the invariant holds after every run |
| BillingTheorems.BalancesFollowInvoices | services/billing-service/internal/persistence/ledger_postgres_repository.go:28-59 | in every reachable state each balance of the posted transactions is a total over invoices: open ones per client, paid, written off, fare shares per driver, fees |
| BillingTheorems.QueryIsExact | services/billing-service/internal/persistence/ledger_postgres_repository.go:105-126 | in every reachable state the query, over any rows that represent the ledger, tells every client's, driver's and platform account apart, a nil owner included |
| BillingTheorems.QueriesFollowInvoices | services/billing-service/internal/persistence/ledger_postgres_repository.go:105-126 | so the rows' balance query returns those invoice totals for all six kinds of account in every reachable state |
| BillingTheorems.AccountsSumToZero | services/billing-service/internal/persistence/ledger_postgres_repository.go:28-59 | in every reachable state the balances of all accounts of a currency sum to zero |
| BillingTheorems.OneUnresolvedPayment | services/billing-service/internal/persistence/payment_postgres_repository.go:40-53 | an invoice has at most one unresolved payment, and only while it is open |
| BillingTheorems.PaidIffOneSucceeded | services/billing-service/internal/application/command/finalize_charge_succeeded.go:78-105 | an invoice is paid exactly when one of its payments succeeded, and no second one did |
| BillingTheorems.WrittenOffAfterFailures | services/billing-service/internal/application/command/finalize_charge_failed.go:110-129 | a written-off invoice was attempted and every attempt failed |
| BillingTheorems.PostedAndEmittedOnce | services/billing-service/internal/application/command/finalize_charge_succeeded.go:107-147 | each invoice has one opening posting; one payment posting and completed event iff paid; one write-off posting and failed event iff uncollectible |
| BillingTheorems.ClosedBranchesUnreachable | services/billing-service/internal/application/command/finalize_charge_failed.go:95-101 | when a finalizer commits, the invoice it read and the invoice it updates are open: neither "no longer open" branch is ever taken |
| BillingTheorems.AttemptsAreNumbered | services/billing-service/internal/workers/charge_worker.go:183-187 | attempts of an invoice are numbered 1..n without gap, keys are pairwise distinct, and n is at most max(1, maxAttempts) |
| BillingTheorems.EventRepeatsPostedSplit | services/billing-service/internal/application/command/finalize_charge_succeeded.go:117-130 | the fee and payable of payment.completed are the ones posted when the invoice was opened, for both invoice types |
| ChargeOnce.AtMostOneCharge | services/billing-service/internal/workers/charge_worker.go:167-186 | with a provider that decides each key once, at most one attempt of an invoice is ever accepted, whatever leases expire under live workers |
| ChargeOnce.BooksMatchProvider | services/billing-service/internal/application/command/finalize_charge_succeeded.go:71-149 | a paid invoice was accepted by the provider; a written-off one was refused under every key |
| ChargeOnce.ChargesTheInvoice | services/billing-service/internal/workers/charge_worker.go:335-362 | every provider call asks for the invoice's amount and currency under a key of that invoice |
| ChargeOnce.SuccessAlwaysCommits | services/billing-service/internal/persistence/payment_postgres_repository.go:92-107 | the unique index on intent ids never turns an accepted charge away: the finalizer commits and the invoice is paid |
| ChargeOnce.MRunBacked | services/billing-service/internal/workers/charge_worker.go:167-258 | every resolved payment of every run is backed by the provider's verdict on its key |
| Stranding.OpenMeansScheduled | services/billing-service/internal/application/command/finalize_charge_failed.go:103-108 | an open invoice whose own schedule no pending outcome cleared has a retry scheduled in every reachable state |
| Stranding.StepStrandsIff | services/billing-service/internal/interfaces/http/handler/webhook_handler.go:118-122 | clearing its schedule while it is open is the only step that strands an invoice, and committing the outcome of one of its payments the only one that ends that |
| Stranding.StrandedIff | services/billing-service/internal/interfaces/http/handler/webhook_handler.go:118-122 | in every run an invoice is stranded exactly when such a clearing hit it while open and no outcome of its payments was committed since |
| Stranding.StrandedUntilResolved | services/billing-service/internal/persistence/invoice_postgres_repository.go:159-184 | from any sound state a stranded invoice is due in no later sweep until one of its payments is finalized |
| Stranding.StrandedForGoodIff | services/billing-service/internal/persistence/invoice_postgres_repository.go:159-184 | a clearing strands an open invoice in every continuation exactly when no payment of it is unresolved at that moment |
| Stranding.ProcessingEventClears | services/billing-service/internal/interfaces/http/handler/webhook_handler.go:118-122 | a processing event for a found payment is the guarded mark followed by the unguarded clearing, and a taken intent id undoes both |
| Stranding.LateProcessingStrands | services/billing-service/internal/interfaces/http/handler/webhook_handler.go:99-122 | a processing event for a payment that failed already, with nothing else under way, strands the open invoice in every continuation |
| Stranding.LateProcessingHappens | services/billing-service/internal/interfaces/http/handler/webhook_handler.go:99-122 | a concrete run gets there: create, claim, processing, declined with a retry scheduled, and then the late event that the lookup by intent finds |
| ChargeSweeps.RoundSettles | services/billing-service/internal/workers/charge_worker.go:161-331 | one sweep that reaches the provider pays the invoice, schedules the next attempt, or writes the invoice off at the last one, whatever other invoices' transactions are open |
| ChargeSweeps.SweepsFinish | services/billing-service/internal/application/command/finalize_charge_failed.go:103-119 | from any reachable state at most max(1, maxAttempts) such sweeps end in paid or uncollectible, and paid only after an accepted one |
| ChargeBudget.StepSpends | services/billing-service/internal/workers/charge_worker.go:125-331 | under any interleaving no step of anyone gives an invoice more to go through, and each attempt started and each outcome committed uses some up |
| ChargeBudget.EffortIsBounded | services/billing-service/internal/workers/charge_worker.go:125-331 | in every run at most 2*max(1, maxAttempts) steps start an attempt of an invoice or commit the outcome of one, and a run with that many has settled it |
| ChargeBudget.TurnsFinish | services/billing-service/internal/application/command/finalize_charge_failed.go:103-119 | as many ready sweeps as there are allowed attempts settle the invoice, with any activity of webhooks, workers and other invoices before each of them |
| ChargeSweeps.DueEventually | services/billing-service/internal/persistence/invoice_postgres_repository.go:159-184 | a scheduled open invoice is due, with its lease expired, from some moment on |
| Simplify.RdpRange | services/location-service/internal/domain/simplify.go:50-70 | in place: sets exactly the flags of the recursively chosen points strictly inside its range and touches no other |
| Simplify.SimplifyRDP | services/location-service/internal/domain/simplify.go:11-30 | returns the points selected by the chain of kept indices; a track of fewer than three points unchanged |
| Simplify.FarthestIsUnique | services/location-service/internal/domain/simplify.go:55-63 | the loop's strict comparison picks the first point of greatest deviation, and only that one |
| Simplify.Dist2NonNegative | services/location-service/internal/domain/simplify.go:72-81 | squared distances are never negative, degenerate chord included |
| SimplifyGeometry.Dist2IsLeastGap | services/location-service/internal/domain/simplify.go:72-81 | the distance is the least squared distance of the point to any point of the line through the ends, reached at a right angle, or to the one point when they coincide |
| Simplify.KeepsEndpoints | services/location-service/internal/domain/simplify.go:16-29 | the result is a subsequence of the track with both its endpoints |
| Simplify.DroppedIsClose | services/location-service/internal/domain/simplify.go:50-70 | every dropped point lies within epsilon of the chord between its nearest kept neighbours |
| SimplifyGeometry.DroppedIsNear | services/location-service/internal/domain/simplify.go:11-70 | every point missing from the simplified track lies within epsilon of the line through the points kept on either side of it |
| SimplifyGeometry.KeptIsSplit | services/location-service/internal/domain/simplify.go:50-70 | every point that stays, the ends apart, is farther than epsilon from the whole line between two points that stay, and none between those is farther |
| SimplifyGeometry.NegativeKeepsAll | services/location-service/internal/domain/simplify.go:65-69 | with a negative epsilon nothing is dropped |
| Simplify.KeptStaysKept | services/location-service/internal/domain/simplify.go:50-70 | on a kept selection every range splits at the same point again and nothing is dropped |
| Simplify.Idempotent | services/location-service/internal/domain/simplify.go:11-30 | simplifying the result again with the same epsilon returns it unchanged |
| Simplify.LooserKeepsLess | services/location-service/internal/domain/simplify.go:65-69 | a larger epsilon keeps a subset of the points |
| Polyline.EncodePolyline | services/location-service/internal/domain/polyline.go:9-24 | the loop writes the wrapped deltas of the rounded coordinates, each zig-zagged and cut into 5-bit chunks |
| Polyline.EncodeUnsignedNumber | services/location-service/internal/domain/polyline.go:54-60 | appends exactly the chunks of the number |
| Polyline.DecodeSignedNumber | services/location-service/internal/domain/polyline.go:62-78 | int64 shifts and ors give the wrapped sum of the chunks, un-zig-zagged; stops where the text ends inside a number |
| Polyline.DecodePolyline | services/location-service/internal/domain/polyline.go:27-37 | accumulates the decoded deltas into coordinates |
| Polyline.UnsignedRoundTrip | services/location-service/internal/domain/polyline.go:54-78 | decoding an encoded number gives it back and consumes exactly its bytes, whatever follows |
| Polyline.ZigZagRoundTrip | services/location-service/internal/domain/polyline.go:46-52 | zig-zag is undone for every number whose double fits 64 bits |
| Polyline.BytesArePrintable | services/location-service/internal/domain/polyline.go:54-60 | every byte of an encoded number lies in 63..126 |
| Polyline.EncodedLength | services/location-service/internal/domain/polyline.go:54-60 | a number below 32^k takes at most k bytes |
| Polyline.RoundingError | services/location-service/internal/domain/polyline.go:39-44 | rounding moves a coordinate by at most half of 1e-5 |
| Polyline.DeltaIsShort | services/location-service/internal/domain/polyline.go:46-60 | a delta between valid coordinates takes at most six printable bytes |
| Polyline.RoundTripIff | services/location-service/internal/domain/polyline.go:9-37 | for every track of coordinates that round to int64: decoding its encoding gives back the rounded points exactly when each wrapped delta still fits after doubling |
| Polyline.RoundTrip | services/location-service/internal/domain/polyline.go:9-37 | then each decoded point is off by at most 0.5e-5, with no drift along the track |
| Polyline.ValidRoundTrip | services/location-service/internal/domain/polyline.go:9-37 | every track of points on the map comes back |
| Polyline.HugeStepIsLost | services/location-service/internal/domain/polyline.go:46-52 | a point 5*10^13 degrees out, whose rounded coordinate is an int64, does not come back |
| Polyline.EncodingIsCompact | services/location-service/internal/domain/polyline.go:9-24 | an encoded track is printable and at most twelve bytes a point |
| Polyline.EncodingIsInjective | services/location-service/internal/domain/polyline.go:9-24 | tracks with such deltas and equal encodings round to equal tracks |
| Outbox.Selected | services/billing-service/internal/persistence/outbox_postgres_repository.go:51-88 | at most `limit` rows, all due and unlocked |
| Outbox.SelectedIff | services/billing-service/internal/persistence/outbox_postgres_repository.go:61-66 | a row is in the batch exactly when it is due, unlocked and fewer than `limit` such rows were created before it |
| Outbox.Worker.GetUnprocessedBatch | services/billing-service/internal/persistence/outbox_postgres_repository.go:51-88 | the scan returns the query's batch in creation order |
| Outbox.Worker.ClaimBatch | services/common/outbox/worker.go:120-146 | leases exactly the unparked rows of the batch and returns them; parked rows stay as they are |
| Outbox.Worker.PublishOne | services/common/outbox/worker.go:150-186 | a failed publish raises the retry count, a successful one marks the row, a lost write changes nothing |
| Outbox.Worker.ProcessBatch | services/common/outbox/worker.go:107-116 | one tick: claim, then finish each claimed row in order |
| Outbox.FinishedRowwise | services/common/outbox/worker.go:107-186 | a tick gives each claimed row its own outcome once and leaves every other row alone |
| OutboxSteps.ClaimIsSelectAndCommit | services/common/outbox/worker.go:118-146 | the timed claim takes and leases exactly the batch that the worker claims |
| OutboxSteps.WriteIsPublishOne | services/common/outbox/worker.go:150-186 | the timed write does to its row what the worker's publish of that row does |
| Outbox.OldestIsClaimedIff | services/common/outbox/worker.go:118-146 | the oldest due unparked unlocked row is claimed exactly when fewer than batchSize parked rows stand before it |
| Outbox.ParkedRowsStarve | services/common/outbox/worker.go:130-135 | a row behind batchSize parked rows is claimed by no tick that finds no row locked |
| OutboxTiming.DefaultsSuffice | services/common/outbox/worker.go:14-25 | the default settings meet the bound exactly for claim delays up to nineteen seconds and a millisecond |
| OutboxTiming.StepKeeps | services/common/outbox/worker.go:104-186 | every claim, publish, write, crash and passing of time keeps workers' rows apart and inside their leases |
| OutboxTiming.TimedExclusion | services/common/outbox/worker.go:104-186 | if claim delay, 999 ms and batchSize*2*publishTimeout fit in the lease, no two workers ever publish or write one row at once |
| OutboxEdge.ExclusionIff | services/common/outbox/worker.go:104-186 | for every setting the bound is exact: two workers never meet on a row in any run if and only if it holds; a millisecond short of it, a run brings them together on the last row of a batch |
| OutboxEdge.TruncationMatters | services/common/outbox/worker.go:128 | in particular a lease of exactly the publish and write time of a batch is too short |
| OutboxTiming.OutboxAccounting | services/common/outbox/worker.go:150-186 | in every run a processed row was delivered, and failed publishes are retries plus lost and pending retry writes |
| OutboxTiming.ParkedForever | services/common/outbox/worker.go:130-135 | under the bound retries never exceed maxRetries and a parked row never changes |
| OutboxTiming.StarvedForever | services/common/outbox/worker.go:118-146 | under the bound a row behind batchSize parked rows is never claimed again by a tick that finds no row locked |
| OutboxStarvation.StarvationHappens | services/common/outbox/worker.go:118-186 | for every setting some run gets there from the empty table: maxRetries recorded failures of each row of a batch, with a fresh row behind |
| OutboxStarvation.StarvationLasts | services/common/outbox/worker.go:118-146 | and in every continuation of that run the fresh row is claimed by no tick that finds no row locked |
| Ranking.MinMax | services/matching-service/internal/domain/ranking.go:21-36 | the loop finds the smallest and the largest value |
| Ranking.ScoreAll | services/matching-service/internal/domain/ranking.go:38-51 | the scoring loop computes 0.5 of the flipped normal distance plus 0.5 of the normal rating, 0.5 for a spread of zero |
| Ranking.RankCandidates | services/matching-service/internal/domain/ranking.go:12-59 | returns the candidates in the stable descending order of their scores, or of their ratings without distances |
| Ranking.RankedIsPermutation | services/matching-service/internal/domain/ranking.go:12-59 | no candidate is lost or repeated |
| Ranking.OrderIsUnique | services/matching-service/internal/domain/ranking.go:53 | there is only one stable order, so any stable sort gives this one |
| Ranking.ScoresInUnit | services/matching-service/internal/domain/ranking.go:38-51 | scores lie between 0 and 1 |
| Ranking.BestFirst | services/matching-service/internal/domain/ranking.go:53-58 | the result is non-increasing in score and equal scores keep their input order |
| Ranking.DominatorComesFirst | services/matching-service/internal/domain/ranking.go:38-58 | a candidate no farther and rated no lower, one strictly, always precedes the other |
| Ranking.EarlierTradesWell | services/matching-service/internal/domain/ranking.go:38-58 | distance and rating count alike: of two candidates the one ranked first gives up no larger share of the one spread than it gains of the other |
| Ranking.SelectOfferTargets | services/matching-service/internal/domain/selection.go:5-17 | the first `max` eligible candidates in order; all of them for a negative `max` |
| Ranking.OffersRespectDominance | services/matching-service/internal/domain/selection.go:5-17 | no offer goes to a driver while an eligible driver who dominates him goes without |
| AcceptRace.StepKeeps | services/matching-service/internal/application/command/accept_ride.go:61-159 | every interleaving of Redis commands keeps one holder per ride in agreement with the claim key |
| AcceptRace.SingleWinner | services/matching-service/internal/application/command/accept_ride.go:106-113 | at most one accept call ever wins a ride |
| AcceptRace.WinnerIsTheDriver | services/matching-service/internal/application/command/accept_ride.go:106-158 | the winner's driver is the one in accepted_by, in the ride hash and in any published event |
| AcceptRace.EverythingAgrees | services/matching-service/internal/application/command/accept_ride.go:116-158 | whatever was lost on the way, hash and events agree with the claim and a ride has at most one event |
| AcceptHistory.WinnerPassedChecks | services/matching-service/internal/application/command/accept_ride.go:70-104 | a winner was the driver's own user and held the ride's offer, and the ride was known, not cancelled and not taken, each at the moment of the run when the call looked |
| AcceptHistory.RefusalsHaveReasons | services/matching-service/internal/application/command/accept_ride.go:70-113 | each refusal is given exactly when its check fails, and up to there a call only reads |
| AcceptHistory.WinnerIsAnnounced | services/matching-service/internal/application/command/accept_ride.go:140-158 | while the broker takes every event, whoever has won is announced |
| AcceptHistory.WinnersPath | services/matching-service/internal/application/command/accept_ride.go:106-158 | from the claim to its end a call leaves out none of its commands |
| AcceptHistory.AloneIsTheHandler | services/matching-service/internal/application/command/accept_ride.go:61-159 | a call of the race that nothing interferes with writes and answers exactly what the whole handler does |
| Matching.OffersCountedOnce | services/matching-service/internal/infrastructure/cache/offer_redis_repository.go:182-192 | one round counts at most one notification for a driver, and only with a fresh offer |
| MatchingService.Matcher.AcceptRide | services/matching-service/internal/application/command/accept_ride.go:61-159 | the checks in order, then claim, rating, hash, pending, offer and pool; the event only if the broker takes it |
| MatchingHandlers.AcceptWinsIff | services/matching-service/internal/application/command/accept_ride.go:61-113 | a call wins exactly when its caller is the driver's user, the ride is known, not cancelled and not taken, and the driver holds its offer; any other call changes nothing |
| MatchingHandlers.WinningWrites | services/matching-service/internal/application/command/accept_ride.go:106-138 | what winning writes to each key, and that it leaves everything else alone |
| MatchingService.Matcher.CancelRide | services/matching-service/internal/application/command/cancel_ride.go:39-72 | sets the flag, drops the retry, gives an accepted driver back with the cached rating, marks the ride |
| MatchingHandlers.CancelEndsSearch | services/matching-service/internal/application/command/cancel_ride.go:39-72 | a cancelled ride has no retry, cannot be accepted by anyone, and is marked; offers and claims stay as they are |
| MatchingService.Matcher.TryAccept | services/matching-service/internal/infrastructure/cache/offer_redis_repository.go:112-114 | the first SET NX wins and later ones change nothing |
| MatchingService.Matcher.TryOffer | services/matching-service/internal/infrastructure/cache/offer_redis_repository.go:42-52 | takes the slot only when it was free, then records the driver; either command may fail |
| MatchingService.Matcher.TopOnlineDrivers | services/matching-service/internal/infrastructure/cache/driver_shift_redis_repository.go:45-55 | at most `limit` online drivers in the set's order |
| MatchingPool.TopOnlineIsBest | services/matching-service/internal/infrastructure/cache/driver_shift_redis_repository.go:45-55 | in descending order of ratings, nobody left out is rated above anybody picked, and nobody is left out while there is room |
| MatchingPool.FallbackGoesByRating | services/matching-service/internal/application/command/broadcast_offers.go:216-232 | without the location service the pool is in descending order of ratings |
| MatchingPool.FallbackWidens | services/matching-service/internal/application/command/broadcast_offers.go:216-232 | it holds at most five drivers for each attempt, and nobody is left out while it holds fewer, or who is rated above anyone in it |
| MatchingService.Matcher.RadiusForAttempt | services/matching-service/internal/application/command/broadcast_offers.go:44-50 | 5 km and 2 more per attempt, capped at 15, a cap that no allowed attempt reaches |
| MatchingService.Matcher.IntersectOnline | services/matching-service/internal/application/command/broadcast_offers.go:242-262 | the drivers found that are online, with rating and last reported distance |
| MatchingHandlers.NearbyPoolIff | services/matching-service/internal/application/command/broadcast_offers.go:236-265 | the pool of an answered discovery is exactly the drivers found online, with the distance that was reported last |
| MatchingService.Matcher.TryLocationDiscovery | services/matching-service/internal/application/command/broadcast_offers.go:236-265 | an answer gives the ranked online drivers, anything else the signal to fall back |
| MatchingService.Matcher.SelectCandidates | services/matching-service/internal/application/command/broadcast_offers.go:216-232 | geo discovery when it answers, else the top online drivers by rating |
| MatchingService.Matcher.FindExcluded | services/matching-service/internal/application/command/broadcast_offers.go:125-160 | exactly the not-yet-offered candidates that are busy or rate-limited |
| MatchingService.Matcher.OfferToAll | services/matching-service/internal/application/command/broadcast_offers.go:169-195 | every target is tried: a free slot is taken, recorded and counted as far as the commands get, and a failure stops none of the others |
| MatchingPool.SideBySideIsOneByOne | services/matching-service/internal/application/command/broadcast_offers.go:169-195 | sent concurrently, in any interleaving of their commands and breaking off anywhere, the offers to distinct drivers end in the same keys as one after the other |
| MatchingService.Matcher.BroadcastOffers | services/matching-service/internal/application/command/broadcast_offers.go:91-212 | drops, fails or offers and re-arms; an error before the offers or on the last write leaves the retry as it was, one offer's error is reported after the retry is armed |
| MatchingHandlers.BroadcastReachesTargets | services/matching-service/internal/application/command/broadcast_offers.go:169-195 | within its attempts a broadcast offers the ride to every driver it picked, as far as the commands of that offer get through |
| MatchingHandlers.SuccessReachesAll | services/matching-service/internal/application/command/broadcast_offers.go:169-212 | a broadcast that reports no error has completed every offer, and an error has its reason |
| MatchingHandlers.NearbyOffersRespectDominance | services/matching-service/internal/application/command/broadcast_offers.go:116-167 | no driver found is offered the ride while a free one who dominates him goes without |
| MatchingHandlers.NobodyLeftOut | services/matching-service/internal/application/command/broadcast_offers.go:162-167 | while fewer than five got an offer no free driver of the pool goes without |
| MatchingHandlers.GivesUpIff | services/matching-service/internal/application/command/broadcast_offers.go:103-114 | the failure is announced exactly when the broadcast fails a ride that was still searching |
| MatchingService.Matcher.RetryOne | services/matching-service/internal/workers/match_retry_worker.go:91-122 | drops a claimed ride's entry, leaves an entry that is not due, else broadcasts the next attempt |
| MatchingHandlers.RetryGoesOn | services/matching-service/internal/workers/match_retry_worker.go:91-122 | a due retry of a ride that is looking for its driver re-arms the next attempt for thirty seconds up to the fifth, and then fails the ride and drops its entry |
| MatchingHandlers.RetryIsStep | services/matching-service/internal/workers/match_retry_worker.go:117 | what the worker does with an entry, for the targets it computes for the next attempt, is the retry step of the runs |
| MatchingHandlers.FirstBroadcastIsStep | services/matching-service/internal/application/command/broadcast_offers.go:91-212 | and the first broadcast of a ride is their first-broadcast step |
| MatchingService.Matcher.Sweep | services/matching-service/internal/workers/match_retry_worker.go:62-87 | retries each entry listed at the start of the sweep |
| MatchingService.RetryLeavesOthers | services/matching-service/internal/workers/match_retry_worker.go:62-87 | retrying one ride leaves the other rides' entries as listed, whatever it offers |
| Matching.SkippedIff | services/matching-service/internal/application/command/broadcast_offers.go:125-167 | the two maps skip exactly the drivers offered before, busy, or at their rate limit |
| Matching.TargetsAreFree | services/matching-service/internal/application/command/broadcast_offers.go:116-167 | at most five targets, all online, not offered this ride before, without an offer and below the rate limit |
| Matching.BroadcastFrame | services/matching-service/internal/application/command/broadcast_offers.go:91-212 | a broadcast changes no claim, no pool, no other ride, and offers only to online drivers |
| Matching.BroadcastArms | services/matching-service/internal/application/command/broadcast_offers.go:204-211 | an error keeps the pending entry; otherwise it is re-armed for a searching ride within its attempts and dropped for any other |
| Matching.BroadcastKeepsRateLimit | services/matching-service/internal/application/command/broadcast_offers.go:149-160 | no round pushes a driver past three notifications |
| MatchingRuns.AcceptConserves | services/matching-service/internal/application/command/accept_ride.go:116-138 | accepting moves the driver from the pool to the ride, rating included |
| MatchingRuns.CancelConserves | services/matching-service/internal/application/command/cancel_ride.go:39-72 | the first cancellation moves the driver back with the rating he had |
| MatchingRuns.RepeatedCancelConservesIff | services/matching-service/internal/application/command/cancel_ride.go:55-69 | a repeated cancellation keeps the pool right exactly when the driver is not out on another ride |
| CancelTwice.RepeatedCancelHappens | services/matching-service/internal/application/command/cancel_ride.go:39-72 | a concrete run gets there: ride 1 accepted and cancelled, ride 2 accepted by the same driver, and cancelling ride 1 again puts him online while he drives |
| CancelTwice.HandlerPicksDriver | services/matching-service/internal/application/command/broadcast_offers.go:91-167 | the targets of that run's broadcasts are those that the handler computes |
| MatchingRuns.DriversAreConserved | services/matching-service/internal/infrastructure/cache/driver_shift_redis_repository.go:57-71 | with each cancellation delivered once, online drivers and drivers of live rides are always exactly the initial pool, disjointly, with their ratings |
| MatchingRuns.NoSilentStall | services/matching-service/internal/application/command/broadcast_offers.go:204-211 | a searching, unclaimed, uncancelled ride always has a pending entry or a first broadcast still owed |
| MatchingRuns.DueRetryProgresses | services/matching-service/internal/workers/match_retry_worker.go:91-122 | a due retry raises the attempt or drops the entry of a ride that is claimed, cancelled, failed or unknown |
| MatchingRuns.RetriesRunOut | services/matching-service/internal/workers/match_retry_worker.go:91-122 | each due retry uses up one of the attempts left, and nothing but a new request gives one back |
| MatchingRuns.SettledWhenRetriesRunOut | services/matching-service/internal/application/command/broadcast_offers.go:103-114 | once the due retries reach the attempts left the ride is claimed, cancelled, failed or unknown |
| Tracking.DriverRoundTripIff | services/location-service/internal/infrastructure/cache/tracking_redis_repository.go:159-175 | the pending driver's text round-trips exactly when the id holds no separator |
| Tracking.StoredDriverIsRead | services/location-service/internal/infrastructure/cache/tracking_redis_repository.go:163-175 | a bare driver, or one with a malformed time, is read with the handler's own time; any other with the time stored |
| Tracking.Cut | services/location-service/internal/infrastructure/cache/tracking_redis_repository.go:165-175 | splits at the first separator, if there is one |
| Tracking.Repository.RecordRideRequested | services/location-service/internal/infrastructure/cache/tracking_redis_repository.go:44-59 | sets its key and opens the window if the driver is known |
| Tracking.Repository.RecordRideAccepted | services/location-service/internal/infrastructure/cache/tracking_redis_repository.go:61-75 | sets its key and opens the window if the client is known |
| Tracking.Repository.CompleteWindow | services/location-service/internal/infrastructure/cache/tracking_redis_repository.go:79-93 | participants, both reverse lookups and index set, pending keys dropped |
| Tracking.Repository.CloseWindow | services/location-service/internal/infrastructure/cache/tracking_redis_repository.go:97-114 | drops the ride's keys and the lookups of the participants it found |
| Tracking.CloseUndoes | services/location-service/internal/infrastructure/cache/tracking_redis_repository.go:95-114 | closing leaves nothing of the ride, undoes the lookups and is idempotent |
| Tracking.CompleteKeepsOthers | services/location-service/internal/infrastructure/cache/tracking_redis_repository.go:79-93 | opening a window leaves every other ride's keys and every other person's lookup alone |
| Tracking.CloseKeepsOthers | services/location-service/internal/infrastructure/cache/tracking_redis_repository.go:97-114 | so does closing one |
| Tracking.RequestLastOpensIff | services/location-service/internal/infrastructure/cache/tracking_redis_repository.go:44-59 | with the request last, the window names the right driver exactly when his id holds no separator |
| Tracking.EitherOrderOpens | services/location-service/internal/infrastructure/cache/tracking_redis_repository.go:44-93 | the two events open the same window in either order |
| TrackingRace.Rendezvous | services/location-service/internal/infrastructure/cache/tracking_redis_repository.go:44-93 | once a handler of each event has finished, in any interleaving with duplicates and crashes, the window is open with the right people, lookups and index |
| TrackingStamps.WindowOpensAtAcceptance | services/location-service/internal/infrastructure/cache/tracking_redis_repository.go:44-93 | in every interleaving the window's opening time is that of a delivered acceptance, never a handler's own clock |
| TrackingStamps.AloneIsTheHandler | services/location-service/internal/infrastructure/cache/tracking_redis_repository.go:44-93 | a handler of the race that nothing interferes with writes exactly what the whole handler does |
| TrackingRace.PendingOutlivesTheWindow | services/location-service/internal/infrastructure/cache/tracking_redis_repository.go:77-93 | a pending key disappears only after participants, lookups and index are written |
| TrackingRace.OpenStaysOpen | services/location-service/internal/infrastructure/cache/tracking_redis_repository.go:77-93 | late duplicates leave an open window as it is |
| TrackingRace.NotBothWait | services/location-service/internal/infrastructure/cache/tracking_redis_repository.go:44-75 | two handlers cannot both miss each other |
| Rides.Service.CancelRide | services/ride-service/internal/application/command/cancel_ride.go:65-124 | not found, forbidden, conflict or a failing fee calculator change nothing; else status and one event commit together |
| RideHistory.CancelChargesFee | services/ride-service/internal/application/command/cancel_ride.go:83-97 | a cancellation with a driver assigned appends a row with the calculated fee and currency |
| RideHistory.StatusMovesIff | services/ride-service/internal/persistence/ride_postgres_repository.go:109-201 | a ride changes status exactly along the diagram, moved by its own client or driver |
| RideHistory.RepliesSayWhy | services/ride-service/internal/application/command/cancel_ride.go:65-90 | each reply is given exactly for its reason, for starting, completing and cancelling |
| RideHistory.RowHasOrigin | services/ride-service/internal/application/command/cancel_ride.go:92-117 | every row of the outbox was left by a step of the run that was allowed to, with the contents of that step |
| RideHistory.CancelledRowHasFee | services/ride-service/internal/application/command/cancel_ride.go:83-97 | a cancellation row with a driver repeats the fee of the client's cancelling step |
| RideHistory.CompletedRowHasQuote | services/ride-service/internal/application/command/complete_ride.go:60-105 | a completion row charges the price of the client's request |
| Rides.Service.CompleteRide | services/ride-service/internal/application/command/complete_ride.go:60-112 | only the ride's driver can complete it, only while in progress, with one event carrying the estimated price |
| Rides.Service.StartRide | services/ride-service/internal/application/command/start_ride.go:53-96 | only the ride's driver can start it, only when matched |
| Rides.Service.MarkRideMatched | services/ride-service/internal/persistence/ride_postgres_repository.go:109-117 | assigns the driver only to a requested ride |
| Rides.Service.FailRide | services/ride-service/internal/persistence/ride_postgres_repository.go:122-130 | fails only a requested ride |
| Rides.Service.MarkRideBilled | services/ride-service/internal/persistence/ride_postgres_repository.go:135-143 | sets the bill once |
| Rides.OneTerminalEvent | services/ride-service/internal/application/command/cancel_ride.go:65-117 | a ride leaves at most one completed or cancelled row, never both, and the row tells what the ride's row says |
| Rides.AnnouncedIffEnded | services/ride-service/internal/application/command/complete_ride.go:60-105 | such a row exists exactly when the ride has ended |
| Rides.StepKeepsEnded | services/ride-service/internal/persistence/ride_postgres_repository.go:145-201 | an ended ride keeps its row but for the bill, although the writes themselves are unconditional |
| Consumer.Runner.HandleOne | services/common/kafkaconsumer/runner.go:136-163 | poison is committed unhandled, a failed handler is not committed |
| Consumer.Runner.Run | services/common/kafkaconsumer/runner.go:97-132 | the fetch and retry loops advance the cursor as one attempt after the other does |
| Consumer.NothingSkipped | services/common/kafkaconsumer/runner.go:93-132 | in every run with failures, lost commits and restarts, everything below the cursor was handled or is poison |
| Consumer.MovesOnIff | services/common/kafkaconsumer/runner.go:113-163 | the cursor moves past a message exactly when it is poison or the handler accepted it |
| Consumer.ConsumesAll | services/common/kafkaconsumer/runner.go:97-132 | with a handler that accepts and a broker that stores, as many attempts as messages take the consumer to the end |
| Consumer.LostCommitHandlesTwice | services/common/kafkaconsumer/runner.go:113-122 | at least once and not at most once: a message whose commit was lost is handled again after a restart |
| Consumer.CursorAdvances | services/common/kafkaconsumer/runner.go:113-122 | the committed cursor never moves back |
| Consumer.RefusalBlocks | services/common/kafkaconsumer/runner.go:113-130 | a handler that keeps refusing a message stops its partition there |
| DeliveryChain.StepKeeps | services/billing-service/internal/application/command/create_invoice_from_ride.go:80-127 | every step of rides, publishing, consuming and billing keeps the chain's invariant |
| DeliveryChain.OneInvoicePerRide | services/billing-service/internal/application/command/create_invoice_from_ride.go:80-116 | under any duplicated publishes and deliveries a ride has at most one invoice, and it bills the type, amount, people and currency of the one completed or cancelled event that ended the ride |
| DeliveryChain.CommittedMeansInvoiced | services/common/kafkaconsumer/runner.go:97-132 | an event below the committed cursor that asks for a charge has its invoice |
| ChainOrigins.InvoiceHasOrigin | services/billing-service/internal/application/command/create_invoice_from_ride.go:80-116 | in every run of the chain an invoice bills the fee calculated when the client cancelled, or the price quoted when the client requested the ride |
| ChainOrigins.CommittedIsBilled | services/common/kafkaconsumer/runner.go:97-132 | once its offset is committed, a completed ride and a cancellation with a fee have been invoiced to the letter |
| ChainOrigins.EndingsAreDelivered | services/common/outbox/worker.go:150-186 | publishing the row of an ended ride puts it on the topic of its kind |
| DeliveryChain.RefusedChargeBlocks | services/billing-service/internal/application/command/create_invoice_from_ride.go:80-127 | once an event whose opening posting the ledger refuses is on a topic, no turn, restart or redelivery of any continuation moves the next or committed offset past it, and its charge never has an invoice |
| DeliveryChain.ShortRideBlocksBilling | services/billing-service/internal/application/command/create_invoice_from_ride.go:134-174 | a concrete run gets there: at 20 % one completed ride of 4 minor units, published once, keeps the completed-rides consumer at offset 0 in every continuation |
| DeliveryChain.RefusedTurn | services/common/kafkaconsumer/runner.go:113-130 | a turn on such an event changes nothing on its topic |

## Left out

- BillingProtocol.NextSound: the order, limit and row locks of the due-invoice query are not modelled; a sweep may return any due rows once each, with attempt counts no newer than the table's, which covers them.
- LedgerStore.Store.GetOrCreateAccount: the race of two transactions for a new account is not modelled; the loser's transaction is one that rolls back.
- ChargeOnce.AtMostOneCharge: a provider that charges after reporting a transport error, or that changes its verdict on a key, is outside this claim; the ledger and coupling theorems do not assume anything of the provider.
- ChargeSweeps.SweepsFinish: assumes a provider that never answers "processing" and the customer and payment method rows that the claim looks up; between the steps of one sweep, lock, read and commit nothing else acts. `ChargeBudget.EffortIsBounded` holds without these assumptions, but says that the work for an invoice is bounded, not that somebody does it.
- ChargeBudget.EffortIsBounded: claims that only renew the lease of an attempt under way are not counted, and their number is not bounded.
- Stranding.LateProcessingHappens: the run uses one set of configuration values.
- BillingTheorems.EventRepeatsPostedSplit: the commission rate is one configuration value for the whole run; a restart with another rate between the opening and the payment of an invoice is not modelled.
- Simplify.DroppedIsClose: distances are exact reals compared by their squares, and the flat projection with its cosine is a parameter, so floating-point rounding is not modelled; the same holds for `Polyline.Round` and the scores in `Ranking`.
- Polyline.RoundTripIff: a coordinate that does not round to an int64 is left out, since its conversion from floating point is not defined.
- Polyline.DecodePolyline: a text that ends inside a number, on which the program panics, decodes to nothing.
- OutboxTiming.TimedExclusion: worker steps other than publishing, writing and claiming take no time of their own, and clocks count whole milliseconds.
- AcceptRace.SingleWinner: the one-hour expiry of the claim key is not modelled; offers may expire at any time.
- MatchingRuns.DriversAreConserved: holds for whole handlers without shift events; an accept that claims after the cancellation looked at the claim key is not covered.
- Matching.TargetsAreFree: the location service's answer is arbitrary, so the radius and limit it is asked for do not restrict it; the order of the online set is arbitrary too.
- Tracking.StoredDriverIsRead: a stored time in another zone, which the program would accept but never writes, counts as malformed, and the digits of a time are not looked at.
- MatchingService.Matcher.OfferToAll: the method offers one after the other; `MatchingPool.SideBySideIsOneByOne` covers the concurrent commands of one broadcast, without other handlers' commands between them.
- MatchingService.Matcher.TopOnlineDrivers: the set's order is a parameter; that it goes by rating is the hypothesis of `MatchingPool.TopOnlineIsBest`.
- MatchingService.Matcher.Sweep: no other handler runs between the entries of one sweep.
- TrackingRace.Rendezvous: keys do not expire and the window is not closed during the rendezvous, and no other ride shares its driver or client, since the reverse lookups hold one ride each.
- DeliveryChain.OneInvoicePerRide: the outbox worker is any number of publishes of any row in any order, which covers its leases and duplicates; one partition per topic.
- Consumer.Runner.Run: runs until a script of outcomes is used up, which stands for the cancelled context; two instances of one consumer group at once are not modelled.
- Row ids are positions in append-only tables instead of UUIDs; failure messages, trace contexts and other fields that no decision reads are dropped.
- HTTP handlers, decorators, metrics, tracing, configuration and the web user interface: no hard state.
- Ping ingest, archive chunking, paging, tokens, tariffs, summaries and listing queries would only add easy members.
- The driver service's status consumers and the WebSocket hub.
