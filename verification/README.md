# A verified model of a cafe point-of-sale backend

The backend prices baskets, moves orders through a state machine, takes money
through a payment gateway or in cash, gives it back, and reports on it. Most of
its correctness lives between functions: guarded updates that act on stale
reads, a gateway with its own state, a nightly rollup that caches live tables,
idempotency keys reserved inside the transaction they protect. This project
models that code in Dafny and proves what those parts guarantee together.

## How the model is built

* **Tables and transactions.** `Tables` gives each transaction as a function
  from a database to a database or to nothing (rolled back). `Store` gives the
  same transactions as the statements the program runs on mutable tables, each
  proved to do what `Tables` says. A table is a sequence of rows and a row's id is
  its position.
* **The protocol.** `Protocol` is a transition system over those transactions.
  One transaction is one step. Every read made before a transaction is held by a
  process as a snapshot that may go stale, a process may vanish between any two
  steps, and the gateway is a separate party whose intents are open until they
  succeed or are cancelled. Its events are truthful but may be late, repeated or
  out of order. `Invariants`, `Preservation` and `Theorems` prove what holds in
  every reachable state and along every run.
* **Services.** `Services` holds the request handlers and the two sweeps as
  methods over the store and the gateway. `ServiceRuns` proves that what each of
  them does is a run of the protocol, so every theorem about runs applies. The
  classes of `Idempotency`, `MenuCache` and `RefreshTokens` carry the same link in
  their contracts: each request takes its own transition system from a state to a
  state it reaches.
* **Effects.** `OrderEffects`, `Sweeps`, `Menu` and `DayFigures` say what requests and
  figures come to without the functions that compute them: which rows change and
  what they become, who a sweep deals with and how, what a line costs and why it is
  refused, and what each number of a report counts, for any condition that picks
  the rows meant and any column that reads the amount meant.
* **Reporting.** `Queries` states grouping and selection; a grouped query returns
  its groups in no particular order, so an aggregate is a relation. `DayAggregate`,
  `RollupRow`, `Reports`, `Reconciliation`, `Rollup`, `DayTotals` and `TopItems`
  follow the reporting code, and `Nights` is what it comes to over any history of
  nightly runs along a run of the protocol: days that failed, nights that never ran,
  and instances that overlap, each day read at one time and written at another. Rows
  are compared up to the order of tied items, which no query fixes.
* **Smaller cores.** `Pricing` and `PricingPasses`, `Vat`, `QueueNumber`,
  `Canonical` and `Idempotency`, `MenuCache`, `Pagination`, `RefreshTokens`.

## Where a property holds only under a condition

The code is kept as it is. Each failure is shown with a concrete run or input,
and bounded by the condition under which the property does hold.

* When the inbox processor reads a PAID order it sets the success aside, whichever
  payment paid the order, so a capture can leave no trace in the books
  (`SilentCapture.CaptureCanVanish`). Whether it does is decided at that read, by
  two facts anyone can look up: the order is PAID, and the payment the success
  names is not settled (`SilentCapture.ReadDecidesIff`). Every capture set aside is
  in the books if and only if no decision that came of such a read was applied
  (`SilentCapture.AccountedIff`).
* Closing an order does not always stop it from being charged. A payment that failed
  is no longer live, so nobody cancels its intent
  (`LeftOpen.FailedAttemptIsCharged`), and a payment row may land after the close
  (`LeftOpen.LateRowIsOpen`). A closed order becomes chargeable exactly at a close
  that finds another of its intents open, or at such an insert
  (`LeftOpen.StepExposesIff`, `LeftOpen.EverExposedIff`).
* Revoking a token family while a rotation of an unexpired token of it is in flight
  does not end it: the child is inserted afterwards and is live
  (`RefreshTokens.ReplayCanLeaveFamilyLive`, `RefreshTokens.RevokeEndsFamilyIff`).
* The list cursor keeps milliseconds of a timestamp stored in microseconds. Newest
  first, a page boundary loses the orders in between; oldest first, it repeats its
  own last order, and with one order per page it never ends
  (`Pagination.DescendingResumesIff`, `Pagination.AscendingResumesIff`). A whole
  traversal is complete if and only if every boundary of it is good
  (`Pagination.TraversalIsCompleteIff`).
* A 304 speaks of the version its poll read, and by the time it is sent a write may
  have moved that version on (`MenuCache.SupersededConfirmsStaleCopy`). What the client
  is left with is a fresh build, whenever nothing is owed, if and only if the header
  is no star and the version in the answer is still the current one
  (`MenuCache.TrustworthyIff`), which is to say that nothing moved the version between
  the poll's read and its comparison (`MenuCache.AnswerIsAsOfRead`). A star confirms
  any copy at all (`MenuCache.StarConfirmsStaleCopy`).
* A stored day is the live one, up to tied items, if and only if rolling it again
  would report no correction (`Nights.StoredIsLiveIff`), and an old row stands
  exactly while every run that still comes to the day fails on it
  (`Nights.StandsIff`). That two instances at work at once converge, as the job's
  own comment has it, needs one thing more: that the one to write last had not read
  the day earlier (`Nights.TotalsAreLive`, `Straggler.OverlapGoesStale`).
* An item renamed in the course of a day is not shown under its newer name but under
  the one that sold least that day (`TopItems.KeptNameSoldLeast`,
  `TopItems.RenameShowsIff`), because each day's list is ranked by what was sold.
* A floating-point quotient may be off by up to 1/40000 without changing the VAT,
  except below an exact half, where any error changes it
  (`Vat.DivisionErrorHarmless`, `Vat.HalfwayNeedsExactness`).

## Model

| member | source | states |
|---|---|---|
| Theorems.PaidExactlyOnce | src/payments/webhooks/payment-event-processor.service.ts:164-304 | in every reachable state of every interleaving, an order that took money has exactly one SUCCEEDED payment, for exactly its total, and any other order has none |
| Theorems.SucceededIsFinal | src/orders/expiry/order-expiry.service.ts:98-153 | a settled payment row never changes again along any run, although expiry writes its payment with no status guard |
| Theorems.CancelledNeverSettles | src/orders/cancel/cancel-order.service.ts:110-181 | a payment recorded CANCELLED has its intent cancelled at the gateway and settles in no continuation |
| Theorems.HistoryIsAPath | src/orders/state/transition-order.ts:41-74 | each order's history is one unbroken path of legal moves to its status, with at most six moves |
| Theorems.HistoryOnlyGrows | src/orders/state/transition-order.ts:62-71 | histories are append-only along every run |
| Theorems.RefundsBounded | src/payments/refunds/create-refund.service.ts:101-158 | with any concurrent refunds and moves, refunds of a payment stay within its amount, unsettled payments have none, and an order is REFUNDED exactly when its settled payment came back in full |
| Theorems.QueueNumbersExact | src/orders/order-number.ts:47-61 | each number from one to the day's counter is held by exactly one order of that day |
| Theorems.QueueNumbersBounded | src/orders/checkout/checkout-order.service.ts:66-87 | no number lies outside the counter, an order has a number exactly when it was ever queued, and a deadline exactly while it awaits payment |
| Theorems.LivePaymentsExclusive | src/database/schema/payments.ts:65-71 | two payments of an order are never both live, and no intent has two payments |
| Theorems.StepKeeps | src/payments/create/create-payment.service.ts:194-318 | one step of any request, of the gateway or of a delivery keeps the whole invariant and only grows what is final |
| Invariants.ProcessStable | src/orders/cancel/cancel-order.service.ts:72-94 | whatever other requests do, what a process relies on from a read made outside its transaction stays true |
| Preservation.MarkPaidKeeps | src/payments/webhooks/payment-event-processor.service.ts:244-304 | the success transaction keeps the invariant when its decision rests on a captured intent |
| Preservation.CloseKeeps | src/orders/expiry/order-expiry.service.ts:130-153 | closing an unpaid order keeps the invariant; the payment it overwrites cannot have settled |
| Preservation.TakeCashKeeps | src/payments/create/create-payment.service.ts:215-236 | taking cash keeps the invariant beside whatever gateway attempts the order has |
| Preservation.RefundKeeps | src/payments/refunds/create-refund.service.ts:101-158 | a refund on stale reads keeps the invariant; the last one moves the order along a legal edge |
| Preservation.CheckoutKeeps | src/orders/checkout/checkout-order.service.ts:41-91 | joining the queue keeps the invariant and claims a number no order of the day holds |
| OrderState.TrailClimbs | src/orders/state/order-state.ts:18-30 | every legal move climbs a rank, so a trail has at most seven rows |
| OrderState.StaffMovesUp | src/orders/state/order-state.ts:54-66 | the kitchen's moves are exactly one rank up among orders that took money, refunds excepted |
| OrderState.LegalMoves | src/orders/state/order-state.ts:19-42 | the legal moves are exactly: on to payment, through the kitchen, out before payment, a refund after it |
| QueueNumber.FormatInjective | src/orders/order-number.ts:17-21 | two different places in the queue never print alike |
| QueueNumber.FormatReadsBack | src/orders/order-number.ts:20-21 | a number prints as `A-` and at least three digits that read back as it |
| SilentCapture.ReadDecidesIff | src/payments/webhooks/payment-event-processor.service.ts:131-162 | the processor leaves its read of the order about to lose a capture exactly when the order is PAID and the payment its success agrees with is not settled |
| SilentCapture.LosingCarries | src/payments/webhooks/payment-event-processor.service.ts:144-162 | nothing anyone else does between that read and the commit changes it |
| SilentCapture.StepLosesIff | src/payments/webhooks/payment-event-processor.service.ts:160-162 | a step sets a capture aside outside the books exactly when it applies a decision about to lose one |
| SilentCapture.AccountedIff | src/payments/webhooks/decide-payment-outcome.ts:117-120 | over a whole run, every success set aside is in the books if and only if no decision was applied whose processor had read the order PAID and the payment its success names unsettled |
| SilentCapture.CaptureCanVanish | src/payments/webhooks/decide-payment-outcome.ts:117-120 | a reachable state in which a captured payment is processed and unsettled because cash paid the order first |
| SilentCapture.SilencedForever | src/payments/webhooks/payment-event-processor.service.ts:160-162 | a capture once set aside that way stays out of the books in every continuation |
| LeftOpen.StepExposesIff | src/orders/cancel/cancel-order.service.ts:110-175 | a step makes a closed order chargeable if and only if it closes an order one of whose intents is open, or inserts a payment with an open intent for an order that is closed |
| LeftOpen.EverExposedIff | src/orders/expiry/order-expiry.service.ts:98-153 | along a whole run an order is at some time closed and chargeable if and only if the run takes such a step for it |
| LeftOpen.OpenIsAnother | src/orders/cancel/cancel-order.service.ts:110-121 | the intent left open at a close belongs to a payment other than the one released, and one that is neither settled nor CANCELLED |
| LeftOpen.FailedAttemptIsCharged | src/orders/cancel/cancel-order.service.ts:110-147 | an attempt fails, the order is cancelled, the intent is captured after all, and its success is refused |
| LeftOpen.LateRowIsOpen | src/payments/create/create-payment.service.ts:277-318 | a payment row is inserted for an order cancelled since it was read |
| Store.Store.TransitionOrder | src/orders/state/transition-order.ts:41-97 | moves an order only from the stated status, clears the payment window when leaving it, appends the history row, and explains a refusal from the row as it is |
| Store.Store.NextOrderNumber | src/orders/order-number.ts:47-61 | one upsert returns the next number of the day and leaves all else alone |
| Store.Store.InsertPayment | src/payments/create/create-payment.service.ts:337-362 | inserts exactly when the amount is positive, the order exists, no live payment of it collides, and intent and idempotency key are new; a refusal says whether a unique index was the reason |
| Store.Store.StampEvent | src/payments/webhooks/payment-event-processor.service.ts:350-366 | an event gets one stamp and the payment it was about, and a second attempt changes nothing |
| Store.Store.RecordEvent | src/payments/webhooks/webhook-inbox.service.ts:46-61 | stores an event unless its id is stored already, and says which |
| Store.Store.CreateOrder | src/orders/orders.service.ts:141-340 | writes the priced order with its opening history row, or names the first refusal: channel, parked or paused device, basket, price shown; a draft takes no number and no deadline |
| Store.Store.Checkout | src/orders/checkout/checkout-order.service.ts:40-91 | the order moves first, and only then takes its number and its deadline |
| Store.Store.TakeCash | src/payments/create/create-payment.service.ts:215-236 | the settled payment and the move to PAID commit together or not at all, and a refusal names the statement that failed |
| Store.Store.MarkPaid | src/payments/webhooks/payment-event-processor.service.ts:258-272 | order, payment and inbox row move together or not at all |
| Store.Store.MarkPayment | src/payments/webhooks/payment-event-processor.service.ts:165-222 | a failure never overwrites a settled payment; the event is stamped either way |
| Store.Store.Cancel | src/orders/cancel/cancel-order.service.ts:147-197 | guarded move, then the guarded payment write, and whether that write landed |
| Store.Store.Expire | src/orders/expiry/order-expiry.service.ts:130-153 | the order moves and the payment handed in is written off with it, whatever its status, or nothing happens and the reason is named |
| Store.Store.SumRefunds | src/payments/refunds/create-refund.service.ts:118-123 | the sum already refunded of one payment |
| Store.Store.GiveBack | src/payments/refunds/create-refund.service.ts:101-179 | refuses more than is left and says how much that is, records the refund, and moves the order exactly when nothing is left |
| Services.Provider.CancelIntent | src/payments/provider/stripe-payment.provider.ts:110-126 | cancels unless the money was taken, and cancelling twice is harmless |
| Services.Services.ProcessEvent | src/payments/webhooks/payment-event-processor.service.ts:107-242 | applies exactly the decision on what it read, and reports whether it acted; `OrderEffects` says what that leaves in the tables in every case |
| Services.Services.DrainInbox | src/payments/webhooks/payment-event-processor.service.ts:76-98 | processes in turn whichever unprocessed events the query returns, up to a hundred, and counts those acted on |
| Services.FirstRowsAreABatch | src/payments/webhooks/payment-event-processor.service.ts:80-84 | there always is a batch such a query may return |
| Services.Services.ExpireOne | src/orders/expiry/order-expiry.service.ts:98-185 | asks the gateway first, and leaves the order alone if the money was taken or the gateway cannot say; otherwise intent, payment and order are closed together (`OrderEffects.CloseLive`) |
| Services.Services.ExpireOverdue | src/orders/expiry/order-expiry.service.ts:60-96 | sweeps one by one whichever overdue orders the query returns, up to two hundred, and counts those expired |
| Services.Services.Cancel | src/orders/cancel/cancel-order.service.ts:61-197 | hides another device's order, refuses a status past payment, answers apart an unreachable gateway and money already taken, otherwise closes the order and returns it |
| Services.Services.LoadPayableOrder | src/payments/create/create-payment.service.ts:144-184 | every reason an order cannot take money, in order, another device's order being one, or its price |
| Services.Services.PayCash | src/payments/create/create-payment.service.ts:194-258 | takes exactly the order's total, from staff only, and only against a sufficient tender; otherwise answers the first reason against it, a lost race with the payment that won |
| Services.Services.PayByGateway | src/payments/create/create-payment.service.ts:277-362 | opens the intent before the row, leaves only an open intent behind if the row is refused, and then names the payment that is live |
| Services.Services.Refund | src/payments/refunds/create-refund.service.ts:57-180 | captured money only, on its own business day, up to what is left of it; otherwise answers the first reason against it |
| Services.Services.ChangeStatus | src/orders/state/order-status.service.ts:29-74 | only the kitchen's own moves (`OrderEffects.KitchenMoves`), and only from where the order is; otherwise the error names both statuses, or that there is no such order |
| OrderEffects.SuccessPays | src/payments/webhooks/payment-event-processor.service.ts:164-242 | a matching success of an unpaid order makes it PAID, its payment SUCCEEDED with the rail it was paid by, and its event processed for that payment; nothing else changes |
| OrderEffects.SuccessOfPaidIsSetAside | src/payments/webhooks/decide-payment-outcome.ts:117-120 | a matching success of a PAID order changes only its event |
| OrderEffects.SuccessWaitsIff | src/payments/webhooks/decide-payment-outcome.ts:90-137 | a success is left unprocessed exactly when no payment agrees with it in intent, amount and currency, or the one that does is for an order neither PENDING_PAYMENT nor PAID |
| OrderEffects.FailureIsWritten | src/payments/webhooks/decide-payment-outcome.ts:66-88 | a failure or cancellation leaves its payment FAILED or CANCELLED and its event processed, unless the payment settled, when it waits |
| OrderEffects.FailureOfNoneWaits | src/payments/webhooks/decide-payment-outcome.ts:55-60 | one that names no payment waits |
| OrderEffects.OtherEventIsStamped | src/payments/webhooks/payment-event-processor.service.ts:147-162 | any other event is marked processed and nothing more |
| PaymentDecision.RefusedBecause | src/payments/webhooks/decide-payment-outcome.ts:46-137 | each reason for refusing an event, exactly when it is the first that holds |
| OrderEffects.DeliveryIsStored | src/payments/webhooks/webhook-inbox.service.ts:46-61 | a new event id becomes one waiting event, a known one changes nothing |
| OrderEffects.CloseUnpaid | src/orders/cancel/cancel-order.service.ts:110-197 | without a live payment the order closes, with its history row, and nothing else changes |
| OrderEffects.CloseLive | src/orders/expiry/order-expiry.service.ts:98-153 | with one, intent, payment and order are cancelled together and nothing else changes, or nothing changes at all if the gateway has the money or cannot be asked |
| OrderEffects.ClosedHasNoLivePayment | src/orders/expiry/order-expiry.service.ts:141-153 | an order closed by either door has no live payment left |
| OrderEffects.MayCancel | src/orders/cancel/cancel-order.service.ts:79-95 | what may be cancelled is what the table lets become CANCELLED, and for a device only its own |
| OrderEffects.NotPayableBecause | src/payments/create/create-payment.service.ts:144-184 | each reason an order takes no money, exactly when it is the first, or the order's own price |
| OrderEffects.CashPays | src/payments/create/create-payment.service.ts:194-258 | cash covering the total adds one settled cash payment of exactly the total and makes the order PAID; nothing else changes |
| OrderEffects.CashRefused | src/payments/create/create-payment.service.ts:194-258 | otherwise nothing is written and the first reason is answered |
| OrderEffects.GatewayOpens | src/payments/create/create-payment.service.ts:277-318 | a payable order gets a new open intent for its total and one pending payment behind it |
| OrderEffects.GatewayRefused | src/payments/create/create-payment.service.ts:337-362 | a row that cannot be inserted leaves the new intent behind, an order that is not payable leaves nothing |
| OrderEffects.RefundGivesBack | src/payments/refunds/create-refund.service.ts:101-179 | a refund within what is left adds one refund row, and makes the order REFUNDED exactly when it takes the last of it |
| OrderEffects.RefundRefused | src/payments/refunds/create-refund.service.ts:57-141 | any other refund writes nothing and is answered with the first reason against it |
| OrderEffects.KitchenMoves | src/orders/state/order-status.service.ts:29-74 | a kitchen move changes one order by one rank, with its history row, and is refused in every other case |
| OrderEffects.KitchenCompletes | src/orders/state/order-state.ts:54-58 | three moves take any PAID order to COMPLETED, with their three history rows |
| OrderEffects.AdmittedWhen | src/orders/orders.service.ts:141-213 | exactly which baskets become orders |
| OrderEffects.BasketRefusedBecause | src/orders/orders.service.ts:161-213 | each refusal of a basket, when it is the first |
| OrderEffects.OrderIsCreated | src/orders/orders.service.ts:141-169 | an admitted basket becomes one order with its price, currency, day, device and, unless it is a draft, the day's next number and its deadline |
| OrderEffects.DraftIsCheckedOut | src/orders/checkout/checkout-order.service.ts:40-91 | a draft, and nothing else, joins the queue with the day's next number and the deadline given |
| Sweeps.SweepExpires | src/orders/expiry/order-expiry.service.ts:60-153 | a sweep expires exactly the orders of its batch that the gateway did not hold back when it began, and leaves them no live payment, whatever it did with the others |
| Sweeps.SweepTakesAll | src/orders/expiry/order-expiry.service.ts:60-83 | up to two hundred overdue orders are all taken, and never more |
| Sweeps.SweepCounts | src/orders/expiry/order-expiry.service.ts:81-96 | the count reported is the number of orders expired |
| Sweeps.DrainTakesAll | src/payments/webhooks/payment-event-processor.service.ts:80-89 | up to a hundred waiting events are all taken, and never more |
| Sweeps.DrainCounts | src/payments/webhooks/payment-event-processor.service.ts:86-98 | the count reported is the number of events acted on at their turn |
| ServiceRuns.DrainRuns | src/payments/webhooks/payment-event-processor.service.ts:76-98 | a sweep of the inbox is a run of the protocol |
| ServiceRuns.DrainLeavesOnlyRefusals | src/payments/webhooks/payment-event-processor.service.ts:147-162 | after a sweep, an event of the batch is unprocessed exactly when it was refused at its turn |
| ServiceRuns.ExpireOverdueRuns | src/orders/expiry/order-expiry.service.ts:60-96 | the whole expiry sweep, over any batch the query may return, is a run of the protocol, although it acts on a scan that goes stale |
| ServiceRuns.ExpiresUnlessPaid | src/orders/expiry/order-expiry.service.ts:107-128 | an unpaid order is expired exactly when it has no live payment, or the gateway answers and has not charged it |
| ServiceRuns.CancelRuns | src/orders/cancel/cancel-order.service.ts:61-197 | a cancellation is a run of the protocol |
| ServiceRuns.PayCashRuns | src/payments/create/create-payment.service.ts:194-258 | a cash payment is a run of the protocol |
| ServiceRuns.PayByGatewayRuns | src/payments/create/create-payment.service.ts:277-318 | a gateway payment is a run of the protocol |
| ServiceRuns.RefundRuns | src/payments/refunds/create-refund.service.ts:57-180 | a refund is a run of the protocol |
| ServiceRuns.ChangeStatusRuns | src/orders/state/order-status.service.ts:29-74 | a kitchen move is a run of the protocol |
| Reconciliation.CapturedTotalFor | src/payments/provider/stripe-payment.provider.ts:160-181 | the captured total and the uncaptured intents, or nothing at all if one question goes unanswered |
| Reconciliation.Reconcile | src/payments/reconciliation/reconciliation.service.ts:101-144 | no report unless every intent was answered for; otherwise the report of the day's settled gateway payments, its delta the gateway's total less the books' |
| Reconciliation.ReportSays | src/payments/reconciliation/reconciliation.service.ts:101-145 | whatever the gateway answered: the books are the day's SUCCEEDED gateway payments, the gateway's side is the sum received, the delta is their difference |
| Reconciliation.DisagreementShows | src/payments/reconciliation/reconciliation.service.ts:73-79 | with every other intent captured as recorded, the delta is nonzero exactly when this one's is not, and an uncaptured one is missed by its whole amount |
| Reconciliation.NotCapturedIff | src/payments/reconciliation/reconciliation.service.ts:128-144 | an intent is listed as not captured if and only if its own answer is not a capture |
| Reconciliation.IntentsAsked | src/payments/reconciliation/reconciliation.service.ts:124-130 | one intent is asked about for each recorded payment, its own |
| Reconciliation.UnmatchedAre | src/payments/reconciliation/reconciliation.service.ts:131-134 | the events listed are exactly those still unprocessed, each once |
| Reconciliation.DeltaIsZero | src/payments/reconciliation/reconciliation.service.ts:101-144 | against a truthful gateway, any day in any reachable state reconciles with delta zero and nothing uncaptured, however late each answer |
| Reconciliation.IntentsAskedOnce | src/payments/reconciliation/reconciliation.service.ts:124-129 | no capture is counted twice |
| DayAggregate.AggregateDayIs | src/reporting/rollup/aggregate-day.ts:42-147 | the computed aggregate is one the five queries may return |
| RollupRow.FillBuckets | src/reporting/rollup/build-rollup-row.ts:68-82 | the breakdown holds each label's exact sum, and its values add up to the rows |
| RollupRow.BuildRollupRow | src/reporting/rollup/build-rollup-row.ts:60-107 | the row the parts come to; `DayFigures` says what each of its figures counts over the tables |
| DayFigures.RowCounts | src/reporting/rollup/build-rollup-row.ts:94-99 | each of the four counts is the number of the day's orders in the status it is named after |
| DayFigures.RowTotals | src/reporting/rollup/build-rollup-row.ts:79-106 | sales, VAT, revenue and refunds are the sums over the rows they name |
| DayFigures.MethodRevenue | src/reporting/rollup/build-rollup-row.ts:68-72 | a method is in the breakdown exactly when the day took money by that rail, with what it took |
| DayFigures.ItemFigures | src/reporting/rollup/aggregate-day.ts:92-148 | an item's quantity and revenue are what the day's sales hold of it under that name |
| DayFigures.EverySaleIsListed | src/reporting/rollup/build-rollup-row.ts:90-92 | every line of every sale has its item in the row |
| RollupRow.SortItems | src/reporting/rollup/build-rollup-row.ts:90-92 | a permutation in the comparator's order |
| RollupRow.SilentIff | src/reporting/rollup/describe-correction.ts:12-43 | nothing is reported exactly when every compared scalar agrees |
| DayFigures.CorrectionNames | src/reporting/rollup/describe-correction.ts:34-43 | a correction names every figure that moved, with what it was and what it is, and no other |
| CorrectionTheorems.SilentMeansUnchanged | src/reporting/rollup/describe-correction.ts:3-43 | over whole runs, silence about two aggregates of a day means the rows agree in everything, breakdown and items included, up to the order of tied items |
| CorrectionTheorems.SameRevenueSameSales | src/reporting/rollup/describe-correction.ts:6-10 | equal revenue alone forces equal breakdown, items, VAT and settled count |
| CorrectionTheorems.CountsAreExact | src/reporting/rollup/aggregate-day.ts:42-51 | each status count is the number of the day's orders in that status, zero when absent |
| CorrectionTheorems.DayVatIsClose | src/reporting/rollup/aggregate-day.ts:118-124 | at a constant rate a day's VAT is within half a unit per settled order of the exact VAT on its revenue |
| ReportTheorems.DayAddsUp | src/reporting/rollup/aggregate-day.ts:30-124 | for every day in every reachable state, revenue by order, by method, by item and in total agree; refunds and VAT each lie between zero and revenue |
| ReportTheorems.RevenueIsTotals | src/reporting/rollup/aggregate-day.ts:57-73 | settled payments and settled orders of a day correspond one to one and add up to the same |
| ReportTheorems.RefundsByPayment | src/reporting/rollup/aggregate-day.ts:77-87 | the day's refunds counted by row equal those counted by settled payment |
| ReportTheorems.HourlyEqualsDaily | src/reporting/reports/reports.service.ts:278-321 | in any range, a day's hours add up to its daily revenue and settled count |
| DayFigures.HourFigures | src/reporting/reports/reports.service.ts:283-321 | an hour's bucket is the sales of that day and hour, what they came to, how many they were and their average to the nearest unit |
| DayFigures.EverySaleHasItsHour | src/reporting/reports/reports.service.ts:283-321 | every sale of the range is in the bucket of its day and hour |
| DayFigures.DayBucketFigures | src/reporting/reports/shape-reports.ts:38-54 | a day's bucket is its row's revenue and sales, with the average exactly when there were any |
| Rollup.DailyRollups.RollDay | src/reporting/rollup/daily-rollup.service.ts:83-175 | refuses an open day, otherwise stores the row its queries came to as final and says what that changed |
| Rollup.DailyRollups.RollDays | src/reporting/rollup/daily-rollup.service.ts:207-224 | rolls each day on its own, so a failure costs only its own day, and counts both outcomes |
| Rollup.DailyRollups.RollUpYesterday | src/reporting/rollup/daily-rollup.service.ts:197-200 | one night: the target, then every day that needs it |
| Rollup.NightIs | src/reporting/rollup/daily-rollup.service.ts:248-275 | with any failures, a day the night visits without failing holds its new row and every other row is untouched |
| Rollup.NightRefreshesWindow | src/reporting/rollup/daily-rollup.service.ts:226-247 | unless it failed, every traded day of the last three has a new row and every traded day of the last thirty is finalized |
| Rollup.NightWrites | src/reporting/rollup/daily-rollup.service.ts:197-275 | a night writes exactly its target, the traded days of the three before it and those of the thirty before it without a final row, each unless it failed |
| DayTotals.DayTotals | src/reporting/reports/reports.service.ts:158-217 | refuses exactly when more than 31 requested days have no usable row; otherwise each day has its stored row or what its own queries return |
| DayTotals.RangeIsStored | src/reporting/reports/reports.service.ts:158-217 | over days in order a final row is what is reported, a day without one is computed, and more than 31 of those are refused |
| Nights.RowIsLastWrite | src/reporting/rollup/daily-rollup.service.ts:135-158 | whatever failed, never ran or overlapped, a stored row is final and is the one its last writer brought |
| Nights.AloneIsNight | src/reporting/rollup/daily-rollup.service.ts:197-224 | a run that has the table to itself leaves what the nightly job computes from the table it found |
| Nights.StandsIff | src/reporting/rollup/daily-rollup.service.ts:42-61 | a run's row is still the last one written if and only if every later run whose re-roll window holds the day, or which had chosen it before the row was there, failed on it |
| Nights.StoredIsLiveIff | src/reporting/rollup/describe-correction.ts:12-43 | however the runs of two instances overlap, a stored row is the live one, up to tied items, if and only if rolling the day again would report nothing |
| Nights.TotalsAreLive | src/reporting/reports/reports.service.ts:158-217 | along any run, if some nightly run was due a day and did not fail on it, the day has not changed since, and no run that read it earlier wrote it later, its reported totals are the live ones, stored or not |
| Nights.ApartHasNoStraggler | src/reporting/rollup/daily-rollup.service.ts:183-187 | runs that do not overlap leave no such straggler |
| Straggler.OverlapGoesStale | src/reporting/rollup/daily-rollup.service.ts:183-187 | two overlapping runs, neither failing: the older reading is written last, reported by nobody, and outside every later window |
| DayTotals.TopItemsReport | src/reporting/reports/reports.service.ts:323-347 | refused exactly when the totals are; otherwise the range is merged and ranked before it is cut |
| Nights.LeaderboardIsLive | src/reporting/reports/reports.service.ts:323-347 | from the nights to the board: reported and live leaderboards have as many places with as many sold at each, share every item that beats the last place with its id, quantity and revenue, hold the same items if there is room for all, and agree in rank at every place if no item goes by two names on one day |
| TopItems.MergeTopItems | src/reporting/reports/shape-reports.ts:71-113 | one entry per item with exact totals and its latest name, ranked, and only then cut |
| TopItems.LatestIs | src/reporting/reports/shape-reports.ts:95-100 | the name kept is that of the last entry among those of the item's latest day |
| TopItems.KeptNameSoldLeast | src/reporting/reports/shape-reports.ts:95-100 | of the names an item went by on its latest day, the one kept is the one ranked last, which sold least |
| TopItems.RenameShowsIff | src/reporting/reports/shape-reports.ts:95-100 | of two names on that day the second is kept if and only if it sold less, or as much and sorts later |
| TopItems.LeadsDetermined | src/reporting/reports/shape-reports.ts:104-106 | any two leaderboards of the same entries hold the same rank at every place |
| TopItems.MergePermutes | src/reporting/reports/shape-reports.ts:77-102 | reordered entries merge into the same items with the same quantity and revenue, names aside |
| TopItems.LeadsPermute | src/reporting/reports/shape-reports.ts:77-106 | reordering the items within days leaves on the leaderboard the quantity at every place, every item that beats the last place with its totals, and all items if there is room for them |
| TopItems.NamedLeadsPermute | src/reporting/reports/shape-reports.ts:71-113 | and with one name a day it leaves the rank at every place |
| TopItems.CutKeepsTheBest | src/reporting/reports/shape-reports.ts:104-106 | nothing left off the leaderboard outranks anything on it |
| TopItems.BoardHolds | src/reporting/reports/shape-reports.ts:104-113 | the board has a place for every item up to the limit, each with its merged totals, in rank order |
| TopItems.EntriesSum | src/reporting/reports/shape-reports.ts:77-78 | what is merged is every item of every day |
| TopItems.MergeConserves | src/reporting/reports/shape-reports.ts:77-102 | merging conserves revenue |
| TopItems.CuttingDaysIsWrong | src/reporting/reports/shape-reports.ts:66-69 | cutting each day first loses the best seller of a range |
| Pricing.OptionOrderIrrelevant | src/orders/pricing/order-pricing.ts:141-180 | reordering a line's options changes neither acceptance nor amount |
| Pricing.LineOrderIrrelevant | src/orders/pricing/order-pricing.ts:84-128 | reordering a basket's lines changes neither acceptance nor total |
| Pricing.QuoteIsConsistent | src/orders/pricing/order-pricing.ts:115-127 | lines add up to the total and the VAT lies between zero and it |
| PricingPasses.PriceOrder | src/orders/pricing/order-pricing.ts:84-128 | the passes of the program compute exactly the specified price or refusal |
| PricingPasses.PriceDecides | src/orders/pricing/order-pricing.ts:84-128 | a basket is priced exactly when every line is accepted, shape is refused before stock, and a refusal carries all violations, or all items and options out of stock |
| PricingPasses.LineViolationsEmpty | src/orders/pricing/order-pricing.ts:182-224 | a known line is clean exactly when its options are distinct, attached and within every group's bounds |
| PricingPasses.EveryViolationReported | src/orders/pricing/order-pricing.ts:91-94 | every line's violations reach the report under that line's index |
| PricingPasses.OutOfStockItemsAre | src/orders/pricing/order-pricing.ts:96-113 | exactly the unknown or sold-out items are named, once each |
| PricingPasses.OutOfStockOptionsAre | src/orders/pricing/order-pricing.ts:96-113 | exactly the sold-out options of known items are named, once each |
| PricingPasses.ResolveLine | src/orders/pricing/order-pricing.ts:141-180 | first mentions split into offered and unknown, and repeated ids once each |
| PricingPasses.ValidateSelections | src/orders/pricing/order-pricing.ts:182-224 | id problems, or else every bound that is broken |
| PricingPasses.FindOutOfStock | src/orders/pricing/order-pricing.ts:96-107 | the stock pass over resolved lines |
| PricingPasses.PriceLine | src/orders/pricing/order-pricing.ts:226-261 | unit price never below zero, times quantity, with its options |
| Menu.MayBeOrdered | src/orders/pricing/order-pricing.ts:89-113 | exactly which lines may be ordered, over the catalog's items, groups, bounds and stock |
| Menu.IdStandsFor | src/orders/pricing/order-pricing.ts:147-157 | an option id stands for the last option the item offers under it |
| Menu.LineIsPriced | src/orders/pricing/order-pricing.ts:226-253 | a unit costs base price and deltas, never below zero; a line so many of them, under the item's name |
| Menu.OptionsAreWritten | src/orders/pricing/order-pricing.ts:254-259 | each option is written with its group, name and price, in the order named |
| Menu.OrderIsPriced | src/orders/pricing/order-pricing.ts:115-127 | the total is what the lines come to and the tax in it is at the rate given |
| Menu.BadIdsAreReported | src/orders/pricing/order-pricing.ts:186-207 | ids named twice and ids not offered are each reported once, instead of any bounds |
| Menu.BoundsAreReported | src/orders/pricing/order-pricing.ts:209-223 | otherwise each group that got too few or too many is reported with its bounds and the count |
| Vat.VatWithinHalf | src/orders/pricing/order-pricing.ts:272-274 | the rounded VAT is within half a unit of the exact one |
| Vat.VatWithinTotal | src/orders/pricing/order-pricing.ts:272-274 | VAT lies between zero and the total |
| Vat.VatMonotone | src/orders/pricing/order-pricing.ts:272-274 | a dearer order never carries less VAT |
| Vat.DivisionErrorHarmless | src/orders/pricing/order-pricing.ts:272-274 | a quotient off by less than 1/40000 rounds alike for every rate up to 100%, unless it underestimates an exact half |
| Vat.HalfwayNeedsExactness | src/orders/pricing/order-pricing.ts:272-274 | below an exact half any error changes the result |
| CanonicalTheorems.CanonicalizeExact | src/orders/idempotency/request-hash.ts:35-50 | two bodies print the same text if and only if they are equal up to key order at every depth |
| CanonicalTheorems.ObjectSays | src/orders/idempotency/request-hash.ts:42-49 | an object says exactly its defined members, each with its value |
| CanonicalTheorems.RestSays | src/orders/idempotency/request-hash.ts:36-40 | an array says its items in order, and every other value itself |
| CanonicalTheorems.ObjectText | src/orders/idempotency/request-hash.ts:42-49 | its text lists them by ascending key |
| CanonicalTheorems.PreimageText | src/orders/idempotency/request-hash.ts:18-27 | what is hashed is the scope's length, a colon, the scope and the body |
| CanonicalTheorems.ValueFree | src/orders/idempotency/request-hash.ts:35-50 | a canonical text can be told from whatever follows it |
| CanonicalTheorems.QuotedFree | src/orders/idempotency/request-hash.ts:36-47 | a printed string, escapes and lone surrogates included, determines the string and what follows |
| CanonicalTheorems.PreimageExact | src/orders/idempotency/request-hash.ts:18-27 | scope and body are both determined by the text that is hashed |
| Idempotency.KeyStore.ReserveKey | src/orders/idempotency/idempotency.store.ts:37-49 | claims a free key and refuses a taken one |
| Idempotency.KeyStore.CompletedResponseFor | src/orders/idempotency/idempotency.store.ts:77-91 | the answer stored under a key; a bare reservation is none |
| Idempotency.KeyStore.ReplayKey | src/orders/idempotency/idempotency.store.ts:101-127 | the stored answer for an equal fingerprint, a conflict in every other case |
| Idempotency.KeyStore.Write | src/orders/orders.service.ts:100-138 | a whole request takes just these steps: reserve, work and commit one unit of work and its answer; or reserve and roll back, leaving no trace; or answer with what the key stands for; and what it returns is what the run records |
| Idempotency.CommitRuns | src/payments/create/create-payment.service.ts:380-401 | reserve, work, complete and commit, step by step, reach the state the request leaves |
| Idempotency.ReplayRuns | src/payments/create/create-payment.service.ts:404-419 | a request whose key is taken changes nothing and answers with the stored entity, or conflicts |
| Idempotency.RefusalRuns | src/payments/create/create-payment.service.ts:378-412 | a request whose work is refused reserves its key and rolls the reservation back |
| Idempotency.ReplayAnswersIff | src/orders/idempotency/idempotency.store.ts:77-127 | a key answers exactly a request with the same fingerprint that is done, with what it made; anything else conflicts |
| Idempotency.LookFirstAnswers | src/payments/create/create-payment.service.ts:117-128 | an answer found before validation is given for the same request, is a conflict for another, and without one the request goes on |
| Idempotency.TwiceIsOnce | src/orders/orders.service.ts:100-138 | a request sent again is answered with what the first made, and makes nothing |
| Idempotency.AtMostOnce | src/orders/idempotency/idempotency.store.ts:22-49 | within a key's lifetime at most one unit of work commits, whatever interleaves |
| Idempotency.AnswersAgree | src/payments/create/create-payment.service.ts:364-420 | every successful answer within a lifetime denotes the same committed entity and came from an equal fingerprint |
| Idempotency.SameRequest | src/orders/idempotency/request-hash.ts:18-50 | so the requests behind them had the same scope and said the same thing |
| Idempotency.CommittedKeyAnswers | src/orders/idempotency/idempotency.store.ts:118-126 | a committed key always has its response |
| Idempotency.RefusedLeavesKeyFree | src/orders/idempotency/idempotency.store.ts:33-35 | refused work leaves the table as it was and lets the next request through |
| Idempotency.HeldKeyBlocks | src/orders/idempotency/idempotency.store.ts:25-31 | while a transaction holds a key nobody else gets past the reservation |
| MenuCache.CurrentVersionIsFresh | src/catalog/menu/menu-cache.service.ts:47-94 | when no committed write awaits its bump, anything stored or served under the current version equals a fresh build |
| MenuCache.ConfirmedCopyIsFresh | src/catalog/menu/menu.controller.ts:40-65 | a 304 for the current version to any header but a star, when nothing is owed, lets the client keep only copies that equal a fresh build |
| MenuCache.AnswerIsAsOfRead | src/catalog/menu/menu.controller.ts:50-61 | every 304, whatever happened meanwhile, carries the version its poll read; if nothing was owed then, the named copies served by then equal the menu of then; and the version is still current exactly when nothing moved it in between |
| MenuCache.AnswerIsNamed | src/catalog/menu/menu.controller.ts:20-24 | a header answered 304 either names the version in the answer or is a star, never both |
| MenuCache.SupersededConfirmsStaleCopy | src/catalog/menu/menu.controller.ts:50-61 | for every matching header and every later version, a run in which a poll overtaken by a write confirms the copy that was replaced |
| MenuCache.TrustworthyIff | src/catalog/menu/menu.controller.ts:40-65 | for every header and version that match: what a 304 lets the client keep is always a fresh build if and only if the header is no star and the version is still current at the comparison |
| MenuCache.ListedMatchesIff | src/catalog/menu/menu.controller.ts:20-24 | a header listing validators, with any space around them, matches exactly when the current version is among theirs |
| MenuCache.NextBumpHeals | src/catalog/menu/menu-cache.service.ts:80-94 | after a failed bump, the next one that works makes the cache coherent again |
| MenuCache.FailedBumpGoesStale | src/catalog/menu/menu-cache.service.ts:27-31 | a failed bump leaves the old document under the current version |
| MenuCache.StarConfirmsStaleCopy | src/catalog/menu/menu.controller.ts:22-22 | every star, however padded, is confirmed over an old copy in a state where nothing is owed, at every version |
| MenuCache.LostCounterGoesStale | src/catalog/menu/menu-cache.service.ts:39-50 | losing the counter lets an old version, with its old document, become current again |
| MenuCache.Cache.DocumentFor | src/catalog/menu/menu.service.ts:80-89 | the rest of a poll is a run that answers with the cached document, or with a build it stores under the version it read |
| MenuCache.Cache.Get | src/catalog/menu/menu.controller.ts:40-65 | a whole poll is a run, with the store failing at any call: no body exactly for a matching validator, the cached document if there is one, a build otherwise; and what it answers is the response that run records |
| MenuCache.Cache.Intercept | src/catalog/menu/catalog-write.interceptor.ts:30-40 | a committed write and its bump are a run that moves the version by one if the bump worked, after which nothing is owed; a read or a failed handler moves nothing |
| Pagination.TraversalIsComplete | src/orders/query/orders-read.service.ts:122-155 | on fixed data with whole milliseconds, following the cursor terminates and yields the sorted filtered list exactly once, ties included |
| Pagination.TraversalIsCompleteIff | src/orders/query/orders-read.service.ts:122-155 | following the cursor ends with the sorted filtered list if and only if every page but the last ends in an order the printed cursor resumes after: an exact timestamp oldest first, an empty gap newest first |
| Pagination.ReturnedExactlyOnce | src/orders/query/orders-read.service.ts:302-329 | with data changing between pages, an order that matches throughout is returned on exactly one page |
| Pagination.PageHasNoRepeats | src/orders/query/orders-read.service.ts:138-145 | no page shows an order twice |
| Pagination.PageIs | src/orders/query/orders-read.service.ts:138-153 | a page is the first rows still to come, up to the limit, and has a cursor at its last exactly when more follow |
| Pagination.PageRuns | src/orders/query/orders-read.service.ts:138-143 | a page runs by creation or by total, up or down as asked, and by id among equals |
| Pagination.CursorRoundTrip | src/orders/query/cursor.ts:25-82 | an issued cursor is accepted for its own sort and for no other |
| Pagination.CursorAcceptedIff | src/orders/query/cursor.ts:31-82 | a cursor is accepted exactly for its own sort and with a value that sort prints |
| Pagination.ResumesIff | src/orders/query/orders-read.service.ts:302-329 | the next page starts where this one stopped if and only if the printed cursor divides the matching orders where its row does |
| Pagination.DescendingResumesIff | src/orders/query/orders-read.service.ts:294-329 | newest first, a page boundary is exact if and only if no matching order lies between the printed and the stored value |
| Pagination.AscendingResumesIff | src/orders/query/orders-read.service.ts:294-329 | oldest first, a page boundary is exact if and only if its last order's timestamp is whole milliseconds; otherwise that order repeats |
| Pagination.DescendingLosesOrder | src/orders/query/orders-read.service.ts:294-329 | two orders five microseconds apart: one is on no page |
| Pagination.AscendingNeverEnds | src/orders/query/orders-read.service.ts:294-329 | the same orders, oldest first: every page is the first page again |
| RefreshTokens.TokenStore.Refresh | src/identity/auth/auth.service.ts:126-157 | a refresh is a run; it succeeds exactly for a live, unexpired token of an active user, and adds a child with its own lifetime as the family's only claim; a token presented twice leaves its family without a live one |
| RefreshTokens.TokenStore.RevokeAll | src/identity/auth/auth.service.ts:256-266 | every token of the family is revoked and no other is touched |
| RefreshTokens.TokenStore.Login | src/identity/auth/auth.service.ts:104-106 | a login is a run that leaves one live token as the only claim of a family nobody had |
| RefreshTokens.TokenStore.Logout | src/identity/auth/auth.service.ts:164-173 | a logout is a run that kills the tokens of one family and touches no other, for the token's own user only |
| RefreshTokens.AtMostOneLive | src/identity/auth/auth.service.ts:118-157 | in every interleaving a family has at most one live token, counting a rotation between its two statements |
| RefreshTokens.DeadForever | src/identity/auth/auth.service.ts:240-266 | a family with no live token, and no rotation in flight of a token that has not expired, stays dead in every continuation |
| RefreshTokens.RevokeEndsFamilyIff | src/identity/auth/auth.service.ts:246-266 | revoking ends a family for good if and only if no rotation of an unexpired token of it, and no login, is in flight |
| RefreshTokens.ReplayCanLeaveFamilyLive | src/identity/auth/auth.service.ts:126-157 | a run in which a replay is recognised, the family revoked, and the family is live afterwards |

## Left out

- Roles and permissions: who may call a route at all. What a device may see and do within one is modelled.
- After-commit announcements, sockets, metrics, logging and tracing.
- The gateway's own SDK, signature verification, rail resolution (an arbitrary result here), client secrets and their rehydration on replay.
- Isolation below the transaction: each transaction is one atomic step, as its guarded updates, its row lock and its unique indexes make it.
- 32-bit columns and numbers above 2^53: amounts are unbounded integers.
- Time zones and wall clocks: a business day is an integer, an order carries its local hour, and times are parameters. A night's target is the day before the current business day.
- The order of hourly buckets, which follows the first order in each, is not stated; neither is the order of groups within a query.
- Collation of names is a parameter that maps a name to its sort key.
- SHA-256, password hashing and access tokens: a digest is taken to be injective and a secret is its row.
- The unit of work behind an idempotency key is abstract; what an order or a payment does is modelled in the protocol.
- The request body is a parsed value whose numbers are their printed numerals, so parsing and validation of requests are not modelled.
- The filters of the order list are an arbitrary condition on a row; how the query string builds them is not modelled. Cursor text (base64url of JSON) is represented by the record it encodes.
- The Z-report's deadline around reconciliation and its three reasons for being unavailable.
- Catalog editing, images, users, devices, pairing, login lockout, throttling and retention, which are smaller than the parts above.
