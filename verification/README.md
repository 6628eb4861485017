# Booking, escrow and payout: a verified model

This project models the money path of a short-stay booking platform in Dafny and proves what
its documentation promises: no double booking, a double-entry ledger that always agrees with
the rows it accounts for, money posted exactly once however often events are delivered, and
escrow that never goes below zero. Verify it with `dafny verify dfyconfig.toml`.

## What is modelled

Three layers, each proved against the next.

- **Tables and statements** (`Bookings`, `Ledger`, `EscrowTables`). Every SQL statement is a
  function from the tables before to the tables after, with the constraints and triggers of the
  migrations written out: CHECKs, unique keys, the partial exclusion constraint, the status
  whitelist, the deferred balance trigger. A write changes a row, matches none, or is rejected.
  `EscrowTransactions` states each transaction once more in the columns of its rows, and
  `Bookings` and `Pricing` state occupancy in instants and quotes by rate and percentage.
- **Machines** (`EscrowProtocol`, `HoldProtocol`, `RedisLock`, `SearchIndex`). Every statement or
  transaction is one atomic step of a transition system; workers, whose constructor is their
  program counter, interleave freely, may be started any number of times for one job and may
  vanish at any point. `EscrowFrames` says which steps can write a table and which worker a step
  moves. Theorems (`EscrowSafety`, `EscrowTheorems`, `EscrowProcesses`, `EscrowConditions`,
  `EscrowRefunds`, `EscrowRefundEvents`, `EscrowJournal`, `EscrowEntries`, `Holds`) are about every
  state of every run; `EscrowScenarios` builds runs from empty tables that reach what they do not exclude.
- **Services and repositories** (`Repositories`, `WebhookService`, `PayoutService`,
  `RefundService`, `EscrowAdminService`, `BookingService`, `HoldService`, the lock, the limiter,
  the indexer). Classes whose methods update the store in place. Each statement method is proved
  to leave exactly the tables its function describes; each service method reports the machine
  steps it took in a ghost trace, so a call is a stretch of a run and the run theorems hold of
  every store the services have written (`StoreTheorems`).

`Pricing` is the quote arithmetic, `BookingFsm` the life cycle as data, `RateLimit` the
fixed-window limiter, `Search` the availability stage of search.

## Conventions and assumptions

- A row's id is its position in its table; rows are never deleted. A row's currency, which the
  migrations tie by composite foreign keys, is checked on insert.
- `adjustments`, a booking's `history` and a lock client's grants are records of what happened.
  The first is not a table of the system; the second is `booking_status_history`.
- The database has one clock that only moves forward. The application's own clock is an
  arbitrary argument wherever the code consults it.
- The status whitelist is a parameter, and most run theorems hold under every whitelist. Three
  need `SafeFsm` (released statuses stay released, PENDING_PAYMENT and COMPLETED have no short
  cuts, PENDING_PAYMENT is an entry status): `RefundOrPayoutNotBoth`, `EscrowNeverNegative`,
  `HoldExpiredIsFinal`. `ConfirmAndExpirePartition` needs only that PENDING_PAYMENT is an entry
  status, `StaleSwapNeverCommits` that the whitelist has no cycles, `PreCheckIsComplete` that
  inventory is not re-entered. The migrated table satisfies all of them.
- A statement happens at one instant of the database clock, also when it waits for a lock. In
  PostgreSQL `now()` is the start of the transaction, while the history column records
  `clock_timestamp()`. `Stamp.at` is the instant at which the guard compared the deadline, and
  `ConfirmAndExpirePartition` and `HoldExpiredIsFinal` are about that instant.
- A service method that takes several statements describes a call with no other call in between,
  except where it is split: `CommitCancel`, `CommitMove`, `CheckRefunds`, `RequestRefund`,
  `SplitAndQueue`, `ApplyCapture`, `ApplyFailure`, `ApplyRefund` and `ConfirmBookingIdempotent`
  start from any store in which their worker is at that point, so other calls may have come
  first. Interleavings at every statement are the subject of the machines.
- A provider is a map keyed by the idempotency key it is given: a payout id keeps the first
  transfer. Events carry what the provider's parser returns, with any content.
- Percentages are exact hundredths of a percent, and rounding is half up, as `Math.round` on the
  non-negative amounts here.
- The machines allow somewhat more than the code: a payment may be initiated, a booking moved or
  a payout settled by the provider at any time the statements themselves allow it; host blocks
  may be set freely; the expiry sweep works row by row.
- A hold's insert, the last statement of its transaction, is one step with the COMMIT.

## What turned out different from the promises

- **A stay with a host share of zero can never settle.** The payout row demands a positive
  amount, so the split rolls back on every attempt. The exact condition is
  `net * (100% - commission) > half a minor unit` (`QuotedSplitCommitsIff`).
- **A capture event after a failure confirms the booking without money.** A payment already
  FAILED or VOIDED is not captured, the transaction commits without a posting, and the booking
  is confirmed all the same (`ConfirmedWithMoneyIff` for every run,
  `ConfirmedWithoutMoney` for a run from empty tables).
- **Two refund workers can both request the whole payment** (`RemainderRequestedTwice`). The
  requests stay within the payment if and only if one refund row at most names it
  (`RequestedWithinIff`), and an insert keeps them within if and only if the check for a live
  refund, which the job makes one statement earlier, would still pass at the insert
  (`InsertWithinIff`); jobs serialised per payment are one way to ensure it. The payment's CHECK
  still keeps settled refunds within the amount, so escrow stays non-negative on every schedule.
- **PARTIALLY_REFUNDED never occurs.** A refund is always of the whole payment
  (`RefundsAreWhole`).
- **A refund event that arrives before its reference is attached is not recorded.** It finds no
  pending row, moves no money, ends PROCESSED, and a cancelled booking becomes REFUNDED all the same
  (`RefundRecordedIff` for every run, `RefundEventTooEarly` for a run from empty tables).
- **A retry after a failed payment gets the failed row** when it uses the same key, as the
  default key does: it cannot be paid (`PaymentService.Initiate`).
- **The posting service's own check is not the trigger's.** It sums all legs and inserts only
  positive ones; with negative legs the two can disagree (`PostCommitsIff`).
- **Fences follow the order of the INCRs, not that of the acquisitions.** The fence is a second
  command. An earlier acquisition has the smaller fence if and only if the later one had none
  yet at its INCR (`FenceOrderIff`): always if it still owned the key then, and by chance after a
  lapse, when the order can invert (`LateFenceInverts`).
- **The limiter's bound over a sliding window is 2·limit - 1, and it is reached.** A key whose
  PEXPIRE is lost never reopens (`NeverReopens`).

## Model

| member | source | states |
|---|---|---|
| `EscrowTheorems.SixBalances` | backend/src/modules/payment/application/payout.service.ts:80-203 | in every reachable state, per currency and per booking, each of the six account balances equals a closed form of the rows plus the net of manual adjustments |
| `EscrowTheorems.TrialBalance` | backend/src/modules/payment/infrastructure/ledger.service.ts:22-57 | in every reachable state total debits equal total credits per currency, and the ledger is only ever extended |
| `EscrowTheorems.PostedExactlyOnce` | backend/src/modules/payment/application/webhook.service.ts:185-230 | counted by its tagged leg: one capture posting per captured payment and none for any other; one split per payout; one settlement per PAID payout and none for any other |
| `EscrowJournal.LedgerIsJournal` | db/migrations/0007_payments.sql:118-132 | in every reachable state, under every whitelist, the ledger is entry by entry the journal of a book in which each captured payment, succeeded refund, payout, settlement and adjustment stands exactly once |
| `EscrowJournal.PostedAsOneGroup` | backend/src/modules/payment/infrastructure/ledger.service.ts:34-56 | whatever must have been posted is in the ledger as one whole group: all its positive legs with their amounts, in one currency, under one group id, and nothing else under that id |
| `EscrowJournal.NothingElsePosted` | backend/src/modules/payment/infrastructure/ledger.service.ts:7-14 | every entry of the ledger belongs to the whole group of a posting that is due |
| `EscrowTheorems.RefundAccounting` | backend/src/modules/payment/infrastructure/payment.repository.ts:198-227 | a payment's refund counter is the sum of its succeeded refunds and of its refund credits, stays within the amount, and decides REFUNDED and PARTIALLY_REFUNDED exactly |
| `EscrowTheorems.KeysStayUnique` | db/migrations/0007_payments.sql:16-92 | one payment per idempotency key and per provider intent, one refund of a payment per provider reference, one payout per booking, one record per provider event, in every reachable state |
| `EscrowTheorems.RefundOrPayoutNotBoth` | backend/src/modules/payment/application/payout.service.ts:41-55 | no booking ever has both a refund row and a payout |
| `EscrowTheorems.EscrowNeverNegative` | backend/src/modules/payment/application/payout.service.ts:77-125 | the escrow held for a booking, manual adjustments aside, is never negative, whatever crashes, repeats or races |
| `EscrowTheorems.MoneyFactsAreFinal` | backend/src/modules/payment/infrastructure/payout.repository.ts:84-93 | between any two states of a run: PAID is absorbing for the whole row; captured, failed and voided payments, their amounts and attached intents, and succeeded refunds stay so |
| `EscrowTheorems.StatusWalksTheWhitelist` | db/migrations/0006_bookings.sql:166-202 | along any run a booking's recorded history is extended only by whitelisted moves, ends in its status, and a status without outgoing edges is never left |
| `EscrowTheorems.ConfirmAndExpirePartition` | backend/src/modules/booking/infrastructure/booking.repository.ts:161-172 | a booking has at most one of confirmation and expiry, at most once; the first strictly before the hold deadline, the second at or after it |
| `EscrowTheorems.HoldExpiredIsFinal` | backend/src/modules/booking/application/booking.service.ts:173-190 | once the webhook worker reports an expired hold the booking is not confirmed, checked in or completed in any later state, whatever the application clock said |
| `EscrowTheorems.NeverDoubleBooked` | db/migrations/0006_bookings.sql:82-92 | no reachable state of the escrow machine has two inventory-holding bookings of one unit sharing an instant, and every range ends after it begins |
| `EscrowTheorems.StaysNeverMeet` | db/migrations/0003_functions.sql:24-35 | in every reachable state, of two bookings of one unit in PENDING_PAYMENT, CONFIRMED or CHECKED_IN, one checks in no earlier than the other's check-out plus its minutes of turnaround |
| `EscrowTheorems.RunInv` | backend/src/modules/payment/application/webhook.service.ts:141-171 | every state of every run satisfies the machine's invariant: rows, keys, reconciliation, funding of each refund and payout, and what each worker has read |
| `EscrowTheorems.RunForward` | backend/src/modules/payment/application/webhook.service.ts:141-171 | between any two states of a run rows are kept, immutable columns unchanged, statuses moved only forward, and the ledger extended |
| `EscrowSafety.EveryStep` | backend/src/modules/payment/application/payout.service.ts:141-174 | each of the machine's steps, from any invariant state, keeps the invariant and moves the tables only forward |
| `EscrowProcesses.OneWorkerPerEvent` | backend/src/modules/payment/infrastructure/webhook.repository.ts:55-65 | in every run at most one worker is inside any one inbox event, and that event is PROCESSING |
| `EscrowProcesses.PaidWasTransferred` | backend/src/modules/payment/application/payout.service.ts:150-168 | a settlement is in the ledger only for a transfer the provider made for exactly that payout, and the row carries that transfer's reference |
| `EscrowConditions.CaptureCommitsIff` | backend/src/modules/payment/application/webhook.service.ts:181-230 | the capture transaction commits if and only if the event names a known payment and does not contradict its amount |
| `EscrowConditions.CaptureTakesMoneyIff` | backend/src/modules/payment/infrastructure/payment.repository.ts:117-126 | after a committed capture transaction the payment is captured if and only if it had not already failed or been voided |
| `EscrowConditions.ConfirmedWithMoneyIff` | backend/src/modules/payment/application/webhook.service.ts:177-234 | in every run, whenever a webhook swap confirms a booking, an earlier capture transaction of that worker committed for a payment of the booking, and that payment is captured and posted if and only if it was neither FAILED nor VOIDED at that commit |
| `EscrowProcesses.CaptureOrigin` | backend/src/modules/payment/application/webhook.service.ts:185-232 | in every run a worker past the capture got there by a capture transaction that committed for its event, booking and payment |
| `EscrowScenarios.ConfirmedWithoutMoney` | backend/src/modules/payment/application/webhook.service.ts:205-254 | for every live priced hold, a run from empty tables - hold, payment, failure event, capture event - ends with the booking confirmed, its only payment FAILED and the ledger empty |
| `EscrowConditions.CaptureAfterFailureConfirms` | backend/src/modules/payment/application/webhook.service.ts:236-254 | from any state in which a capture event for a failed payment of a live hold is claimed, four steps confirm the booking and record no money |
| `EscrowConditions.ConfirmLiveHold` | backend/src/modules/booking/infrastructure/booking.repository.ts:161-172 | a live hold without a host block over it can always be confirmed |
| `EscrowRefunds.RefundCommitsIff` | backend/src/modules/payment/application/webhook.service.ts:287-325 | for an event that names a known payment and a refund reference, the refund transaction commits if and only if no refund is pending under it or that refund fits what is left of the payment |
| `EscrowRefunds.RefundsAreWhole` | backend/src/modules/payment/application/refund.service.ts:24-44 | in every run every refund row is of its whole payment, a payment is refunded in full or not at all, and none is ever PARTIALLY_REFUNDED |
| `EscrowRefunds.RequestedWithinIff` | backend/src/modules/payment/application/refund.service.ts:24-59 | in every run, whatever the schedule, the refunds requested for a payment stay within it if and only if at most one refund row names it |
| `EscrowRefunds.InsertWithinIff` | backend/src/modules/payment/application/refund.service.ts:30-44 | in every run an enabled refund insert commits, for the whole payment, and the requests stay within the payment after it if and only if the earlier check for a live refund would still pass at the insert |
| `EscrowRefunds.PendingSettlesIff` | backend/src/modules/payment/infrastructure/payment.repository.ts:198-227 | in every run the settlement of a refund row fits the payment if and only if no refund of that payment has succeeded |
| `EscrowRefunds.SerialRefundsStayWithin` | backend/src/modules/payment/application/refund.service.ts:24-59 | so with refund jobs serialised per payment, requested refunds never add up to more than the payment and every pending one can be settled |
| `EscrowScenarios.RemainderRequestedTwice` | backend/src/modules/payment/application/refund.service.ts:30-44 | for every priced hold a run from empty tables - hold, payment, capture, cancellation, the refund job delivered twice - requests the whole payment back twice |
| `EscrowRefunds.TwoWorkersRefundTwice` | backend/src/modules/payment/application/refund.service.ts:30-44 | from any state with a queued refund job for an unrefunded payment, two workers whose reads come first request the whole remainder twice |
| `EscrowRefundEvents.RefundRecordedIff` | backend/src/modules/payment/application/webhook.service.ts:283-333 | in every run a PROCESSED refund event went through a committed refund transaction, which recorded the whole payment as given back if and only if a pending refund carried the event's reference when it ran, and changed nothing otherwise |
| `EscrowScenarios.RefundEventTooEarly` | backend/src/modules/payment/infrastructure/payment.repository.ts:204-215 | for every priced hold a run from empty tables in which the refund event is processed before its reference is attached: the booking ends REFUNDED, the refund stays PENDING and nothing went back in the books |
| `EscrowConditions.QuotedSplitCommitsIff` | backend/src/modules/payment/application/payout.service.ts:77-125 | for a quoted booking the split commits if and only if the commission leaves the host more than half a minor unit of the net base |
| `EscrowConditions.FullCommissionNeverSettles` | db/migrations/0007_payments.sql:97-102 | a booking quoted with a commission of one hundred percent passes its checks and its split always rolls back |
| `EscrowInvariant.SplitCommitsIff` | backend/src/modules/payment/infrastructure/payout.repository.ts:30-48 | the split rolls back exactly when the host share is not positive, and otherwise creates a payout exactly when the booking has none |
| `EscrowInvariant.CaptureReconciles` | backend/src/modules/payment/application/webhook.service.ts:185-230 | the capture transaction keeps the tables reconciled with the ledger |
| `EscrowInvariant.RefundReconciles` | backend/src/modules/payment/application/webhook.service.ts:291-325 | the refund transaction keeps the tables reconciled with the ledger |
| `EscrowInvariant.SplitReconciles` | backend/src/modules/payment/application/payout.service.ts:80-125 | the split transaction keeps the tables reconciled with the ledger |
| `EscrowInvariant.SettleReconciles` | backend/src/modules/payment/application/payout.service.ts:177-203 | the settlement transaction keeps the tables reconciled with the ledger |
| `EscrowInvariant.AdjustReconciles` | backend/src/modules/payment/application/escrow-admin.service.ts:100-120 | a manual adjustment keeps the tables reconciled with the ledger, up to its own net |
| `EscrowTransactions.CaptureByColumns` | backend/src/modules/payment/application/webhook.service.ts:181-230 | for a known payment: the amount check, the move to CAPTURED from exactly the three open statuses, and the two entries with the payment's amount, or nothing |
| `EscrowTransactions.FailureByColumns` | backend/src/modules/payment/application/webhook.service.ts:257-277 | for a known payment: FAILED from exactly the three open statuses, nothing otherwise |
| `EscrowTransactions.RefundByColumns` | backend/src/modules/payment/application/webhook.service.ts:291-325 | with a pending row under the reference: rolled back beyond the payment's amount, else the row, the counter, REFUNDED or PARTIALLY_REFUNDED, and the two entries with the refund's amount |
| `EscrowTransactions.RefundOfNothing` | backend/src/modules/payment/infrastructure/payment.repository.ts:204-215 | without a pending row under the reference nothing moves; an event without a reference is an error |
| `EscrowTransactions.UnknownPayment` | backend/src/modules/payment/application/webhook.service.ts:185-196 | an event that names no payment rolls a capture and a refund back and leaves a failure without effect |
| `EscrowTransactions.SplitByColumns` | backend/src/modules/payment/application/payout.service.ts:77-125 | the payout is of host payout plus cleaning fee; out of escrow goes the total, to revenue commission plus service fee, to tax the taxes, zero legs left out; rolled back exactly if nothing is left for the host, nothing if a payout exists |
| `EscrowTransactions.SettleByColumns` | backend/src/modules/payment/application/payout.service.ts:177-203 | a payout in transit becomes PAID with the two entries of its amount, any other is left alone, and it never fails |
| `EscrowTransactions.AdjustByColumns` | backend/src/modules/payment/application/escrow-admin.service.ts:70-134 | commits exactly for a positive amount between two accounts in a currency of three capital letters, as one debit of the first and one credit of the second |
| `EscrowEntries.CaptureStands` | backend/src/modules/payment/application/webhook.service.ts:206-230 | in every reachable state a captured payment stands in the ledger as exactly the pair debit clearing, credit escrow of its amount, alone under a group id |
| `EscrowEntries.RefundStands` | backend/src/modules/payment/application/webhook.service.ts:303-325 | in every reachable state a succeeded refund stands as exactly the pair debit escrow, credit refund clearing of its amount |
| `EscrowEntries.SplitStands` | backend/src/modules/payment/application/payout.service.ts:88-125 | in every reachable state a payout's split stands as one group, funded by a captured payment of its booking: the total out of escrow, host payout plus cleaning fee to the host, commission plus service fee to revenue, the taxes to tax |
| `EscrowEntries.SettlementStands` | backend/src/modules/payment/application/payout.service.ts:186-203 | in every reachable state a PAID payout stands as exactly the pair debit host payable, credit clearing of its amount |
| `EscrowEntries.PayoutPaysTheHost` | backend/src/modules/payment/application/payout.service.ts:77-78 | in every reachable state every payout is of its booking's host payout plus cleaning fee, in its currency, and positive |
| `EscrowEntries.QuotedPayout` | backend/src/modules/booking/application/pricing.service.ts:93-94 | in every reachable state a payout of a quoted booking is the net base without the commission, to within half a minor unit |
| `Ledger.PostCommitsIff` | backend/src/modules/payment/infrastructure/ledger.service.ts:17-57 | a posting commits if and only if its legs balance, are at least two, and its negative legs, which the loop skips, balance among themselves |
| `Ledger.NonNegativeLegsCommitIff` | backend/src/modules/payment/infrastructure/ledger.service.ts:22-32 | with non-negative legs the service's own check is the whole truth |
| `Ledger.NegativeLegSlipsThrough` | backend/src/modules/payment/infrastructure/ledger.service.ts:35-36 | a concrete group that passes the service's check and fails the deferred trigger |
| `Ledger.PostAppends` | backend/src/modules/payment/infrastructure/ledger.service.ts:34-56 | a posting only appends, under a group id no earlier entry has |
| `Ledger.PostMeasure` | backend/src/modules/payment/infrastructure/ledger.service.ts:59-75 | what a posting adds to any balance or count is the sum over its positive legs |
| `Pricing.QuotePassesChecks` | backend/src/modules/booking/application/pricing.service.ts:72-94 | with base and discount in range, the quoted amounts satisfy every money CHECK exactly when the commission percentage is in range |
| `Pricing.QuoteAlwaysInsertable` | backend/src/modules/booking/application/pricing.service.ts:51-108 | the same for every successful quote of every unit, stay and discount |
| `Pricing.QuoteByRate` | backend/src/modules/booking/application/pricing.service.ts:51-145 | a quote's base is the hourly or nightly rate times the hours or nights, its commission percentage the unit's own or the default; discount, service fee, taxes and commission are each their percentage rounded once, halves up; the rest is exact |
| `Pricing.QuoteRefusals` | backend/src/modules/booking/application/pricing.service.ts:58-145 | a quote succeeds exactly for whole minutes of an offered kind of stay of a fitting length with a discount from 0 to 100 percent, and is refused as not bookable exactly if the kind is not offered |
| `Pricing.SplitIsExact` | backend/src/modules/payment/application/payout.service.ts:64-78 | host share, revenue and taxes are each within the total and add up to exactly the total |
| `Pricing.HostIsPaidIff` | backend/src/modules/booking/application/pricing.service.ts:93-94 | the host share is positive if and only if the commission leaves more than half a minor unit of the net base |
| `Pricing.FullCommissionPaysNoHost` | backend/src/modules/booking/application/pricing.service.ts:93-94 | a commission of one hundred percent passes the booking checks and leaves a host share of zero |
| `Pricing.TotalRoundingBound` | backend/src/modules/booking/application/pricing.service.ts:76-92 | two roundings keep 10000 times the total within 10750 of 11845 times the net base |
| `Pricing.TotalMonotoneInDuration` | backend/src/modules/booking/application/pricing.service.ts:58-145 | a longer stay is never cheaper |
| `Pricing.TotalAntitoneInDiscount` | backend/src/modules/booking/application/pricing.service.ts:72-92 | a larger discount is never dearer |
| `BookingFsm.BookingFsmEngine.OnApplicationBootstrap` | backend/src/modules/booking/application/booking-fsm.engine.ts:26-63 | after the load a move is allowed if and only if its row is in the table, and a status is terminal if and only if no row leaves it |
| `BookingFsm.MigratedFsmIsSafe` | db/migrations/0006_bookings.sql:111-121 | the migrated whitelist satisfies every hypothesis the run theorems make about a whitelist |
| `BookingFsm.MigratedMoves` | db/migrations/0015_fsm_money_currency_integrity.sql:42-47 | the moves that the migrated whitelist allows, status by status |
| `BookingFsm.WalkRanksGrow` | db/migrations/0006_bookings.sql:166-177 | every move along a whitelist without cycles raises the rank, so a walk has at most as many moves as ranks |
| `BookingFsm.WalkNeverRepeats` | db/migrations/0015_fsm_money_currency_integrity.sql:42-47 | under the migrated whitelist no booking enters a status twice, and none makes more than five moves |
| `BookingFsm.ReleasedForever` | db/migrations/0006_bookings.sql:166-177 | under a whitelist in which released statuses lead only to released ones, a released booking is never completed |
| `BookingFsm.MigratedTerminals` | backend/src/modules/booking/application/booking-fsm.engine.ts:60-63 | with the migrated table exactly EXPIRED and REFUNDED are terminal |
| `Bookings.InsertHoldKeeps` | backend/src/modules/booking/infrastructure/booking.repository.ts:107-150 | a committed hold extends the table, keeps every history sound and keeps the table free of double bookings |
| `Bookings.SetStatusKeeps` | backend/src/modules/booking/infrastructure/booking.repository.ts:175-187 | a committed status change extends one history by one whitelisted move, leaves every other row alone, and keeps the table free of double bookings |
| `Bookings.StatusKeepsOccupancy` | db/migrations/0006_bookings.sql:89-92 | a status change that the constraint lets through keeps the table free of double bookings |
| `Bookings.NoConflictIffVacant` | backend/src/modules/booking/infrastructure/booking.repository.ts:87-104 | in instants: there is no conflict if and only if no inventory-holding booking and no active host block is in the way, turnarounds included |
| `Bookings.InsertHoldIff` | db/migrations/0006_bookings.sql:66-92 | a hold is inserted if and only if its window, its turnaround and each of its money columns meet the CHECKs and nothing is in its way |
| `Bookings.TurnaroundIsExact` | db/migrations/0003_functions.sql:24-35 | a stay that starts inside another's turnaround is refused, one that starts at its end is not |
| `Bookings.BlockRefusesIffActive` | db/migrations/0006_bookings.sql:245-274 | a host block over a stay refuses it exactly while the block is active |
| `Bookings.SwapIff` | backend/src/modules/booking/infrastructure/booking.repository.ts:174-206 | a compare-and-swap finds no row exactly if the status moved on, and commits exactly for an allowed move that nothing is in the way of |
| `Bookings.ConfirmIff` | backend/src/modules/booking/infrastructure/booking.repository.ts:160-172 | a hold is confirmed exactly while pending, strictly before its deadline, if the move is allowed and no host block is in the way |
| `Bookings.ExpireIff` | backend/src/modules/booking/infrastructure/booking.repository.ts:208-220 | a hold expires exactly while pending, at or past its deadline, if the move is allowed |
| `Bookings.ConfirmOrExpireOnce` | backend/src/modules/booking/infrastructure/booking.repository.ts:209-220 | a sound history holds at most one of confirmation and expiry, right after the hold |
| `EscrowTheorems.StaleSwapNeverCommits` | backend/src/modules/booking/application/booking.service.ts:335-353 | under a whitelist without cycles, once a state of a run shows a booking past a status, no swap that expects it finds a row in that or any later state: of the transitions read from one status at most one commits |
| `RedisLock.ScriptsSpareOthers` | backend/src/infrastructure/redis/redis-lock.service.ts:28-40 | release and extend never change a lock owned by another token, nor any other key |
| `RedisLock.CommandsByInstant` | backend/src/infrastructure/redis/redis-lock.service.ts:20-83 | after each command, which token owns which key at which instant, and what each fence counter reads |
| `RedisLock.RedisLockService.Acquire` | backend/src/infrastructure/redis/redis-lock.service.ts:63-83 | granted at the first of its attempts at which the key is free, and refused exactly when it is free at none |
| `RedisLock.RedisLockService.Release` | backend/src/infrastructure/redis/redis-lock.service.ts:85-97 | deletes the key exactly when it still carries the caller's token |
| `RedisLock.RedisLockService.Extend` | backend/src/infrastructure/redis/redis-lock.service.ts:99-108 | moves the expiry exactly when the key still carries the caller's token |
| `RedisLock.FenceOrderIff` | backend/src/infrastructure/redis/redis-lock.service.ts:71-75 | over all runs of any number of clients: of two acquisitions of a key with fences, one has the smaller if and only if the other had none yet when it took its own; never are they equal |
| `RedisLock.FencesFollowAcquisition` | backend/src/infrastructure/redis/redis-lock.service.ts:71-75 | so fences of a key are distinct, and a fence taken as owner is below every later acquirer's |
| `RedisLock.HoldersOverlapOnlyAfterLapse` | backend/src/infrastructure/redis/redis-lock.service.ts:42-58 | two unreleased holders of a key overlap only if the earlier had run past its deadline before the later acquired |
| `RedisLock.LateFenceInverts` | backend/src/infrastructure/redis/redis-lock.service.ts:72-75 | a run in which, after a lapse, the later acquirer gets the smaller fence |
| `Holds.HoldsNeverOverlap` | backend/src/modules/booking/application/booking.service.ts:115-150 | over all interleavings, lapsed locks and vanished requests included, of two inventory-holding bookings of a unit one checks in no earlier than the other's check-out plus its minutes of turnaround |
| `Holds.PreCheckIsComplete` | backend/src/modules/booking/infrastructure/booking.repository.ts:75-105 | while no section outlives its lock the insert never meets the exclusion constraint: it commits if and only if the row is sound and no host block arrived |
| `Holds.OneRequestPerUnit` | backend/src/infrastructure/redis/redis-lock.service.ts:110-124 | in any state of any run in which no section has outlived its lock, at most one request is inside a unit's section |
| `Holds.LockHoldsFiveSeconds` | backend/src/modules/booking/application/booking.service.ts:115-119 | a request that gets the unit's lock owns it for exactly five seconds |
| `Holds.OpenDealsNeverClash` | db/migrations/0008_flash_deals.sql:43-47 | in every run two open deals of one unit have claim windows without a common instant |
| `Holds.LapseMeetsConstraint` | db/migrations/0006_bookings.sql:81-92 | for every insertable row, a run with a lapse in which two requests pass the check and the constraint refuses the second |
| `Holds.CounterCountsBookings` | backend/src/modules/deals/infrastructure/deal.repository.ts:91-102 | in every run a deal's counter is the number of bookings carrying its id, never exceeds the stock, and SOLD_OUT means exactly that the stock is used up |
| `Holds.NoClaimAfterClosing` | db/migrations/0008_flash_deals.sql:56-68 | once a deal is sold out or ended its row never changes and no further booking carries its id |
| `HoldServices.HoldService.CreateHold` | backend/src/modules/booking/application/booking.service.ts:89-151 | while no other request runs, succeeds exactly when the request is admissible, the lock is free by the last attempt, nothing is in the way of the range, the deal is open and the row passes its checks, then takes one slot; each failure names its cause and changes nothing; no time beyond the attempts and no other key is touched, and no lock stays behind |
| `HoldServices.HoldService.Enter` | backend/src/infrastructure/redis/redis-lock.service.ts:63-83 | gets the lock exactly if it is free by the last of its attempts, at the first at which it is |
| `HoldServices.HoldService.HoldTransaction` | backend/src/modules/booking/application/booking.service.ts:119-149 | check, claim and insert commit together or not at all, and a failure names the first that did not hold |
| `HoldServices.HoldService.ClaimAndInsert` | backend/src/modules/deals/application/deal.service.ts:129-136 | when the insert raises, the claim is rolled back with it |
| `HoldServices.HoldService.CreateDeal` | backend/src/modules/deals/application/deal.service.ts:44-69 | a deal is stored exactly when its window is positive and at most 72 hours, its discount from 5 to 90 percent, its stock positive, and its window apart from those of the unit's open deals; ACTIVE if its window is open by the application clock, with nothing claimed |
| `HoldServices.HoldService.ActivateDue` | backend/src/modules/deals/infrastructure/deal.repository.ts:167-174 | exactly the scheduled deals whose window is open become active and are reported; every other row is as it was |
| `HoldServices.HoldService.EndExpired` | backend/src/modules/deals/infrastructure/deal.repository.ts:176-183 | exactly the scheduled and active deals whose window is over end and are reported; every other row is as it was |
| `HoldServices.HoldService.RunLifecycle` | backend/src/modules/deals/application/deal.service.ts:155-185 | after a sweep exactly the open deals past their end have ended, exactly the scheduled ones in their window are active, every other deal is as it was, and each change is reported once |
| `Repositories.LedgerService.PostGroup` | backend/src/modules/payment/infrastructure/ledger.service.ts:17-57 | refuses exactly an unbalanced or short group; otherwise appends one row per positive leg, in order, under a fresh group |
| `Repositories.LedgerService.PostAndCommit` | db/migrations/0007_payments.sql:148-181 | with the deferred trigger's verdict, exactly the machine's posting |
| `Repositories.PaymentRepository.CreateIdempotent` | backend/src/modules/payment/infrastructure/payment.repository.ts:41-67 | at most one row per key: inserts, or returns the row that has the key |
| `Repositories.PaymentRepository.AttachProviderIntent` | backend/src/modules/payment/infrastructure/payment.repository.ts:69-81 | attaches only to an INITIATED row, and never one intent to two payments of a provider |
| `Repositories.PaymentRepository.MarkCaptured` | backend/src/modules/payment/infrastructure/payment.repository.ts:116-126 | captures exactly a capturable row and leaves all else |
| `Repositories.PaymentRepository.MarkFailed` | backend/src/modules/payment/infrastructure/payment.repository.ts:128-140 | fails exactly a capturable row and leaves all else |
| `Repositories.PaymentRepository.CreateRefund` | backend/src/modules/payment/infrastructure/payment.repository.ts:144-178 | appends one pending refund of a positive amount in the payment's currency, or refuses |
| `Repositories.PaymentRepository.AttachProviderRefund` | backend/src/modules/payment/infrastructure/payment.repository.ts:180-185 | sets the reference of one refund, refused if another refund of the payment has it |
| `Repositories.PaymentRepository.SettleRefund` | backend/src/modules/payment/infrastructure/payment.repository.ts:198-227 | settles the pending refund of that reference, its payment's counter and derived status; a CHECK violation after the first statement is reported for rollback |
| `Repositories.PayoutRepository.CreateIfAbsent` | backend/src/modules/payment/infrastructure/payout.repository.ts:26-48 | creates a payout exactly when the booking has none and the amount is positive |
| `Repositories.PayoutRepository.MarkInTransit` | backend/src/modules/payment/infrastructure/payout.repository.ts:66-81 | PENDING to IN_TRANSIT with the provider's reference, or nothing |
| `Repositories.PayoutRepository.Move` | backend/src/modules/payment/application/escrow-admin.service.ts:184-198 | the guarded status update of a payout: exactly one row from exactly the expected statuses |
| `Repositories.PayoutRepository.MarkPaid` | backend/src/modules/payment/infrastructure/payout.repository.ts:83-93 | IN_TRANSIT to PAID, or nothing |
| `Repositories.PayoutRepository.MarkFailed` | backend/src/modules/payment/infrastructure/payout.repository.ts:95-102 | PENDING or IN_TRANSIT to FAILED, or nothing |
| `Repositories.WebhookRepository.Record` | backend/src/modules/payment/infrastructure/webhook.repository.ts:28-53 | records an event exactly when its provider and id are new |
| `Repositories.WebhookRepository.ClaimForProcessing` | backend/src/modules/payment/infrastructure/webhook.repository.ts:55-65 | claims exactly a RECEIVED or FAILED event and counts the attempt |
| `Repositories.WebhookRepository.Mark` | backend/src/modules/payment/infrastructure/webhook.repository.ts:67-92 | sets the status of one event, whatever it was |
| `Repositories.BookingRepository.InsertHold` | backend/src/modules/booking/infrastructure/booking.repository.ts:107-150 | the insert under its checks, the host-block trigger and the exclusion constraint |
| `Repositories.BookingRepository.UpdateStatus` | db/migrations/0006_bookings.sql:166-202 | a status update under the whitelist trigger, the host-block trigger and the exclusion constraint, with its history row |
| `Repositories.BookingRepository.Transition` | backend/src/modules/booking/infrastructure/booking.repository.ts:174-206 | compare-and-swap on the status |
| `Repositories.BookingRepository.ConfirmHold` | backend/src/modules/booking/infrastructure/booking.repository.ts:160-172 | confirms exactly a pending hold strictly before its deadline |
| `Repositories.BookingRepository.ExpireIfLapsed` | backend/src/modules/booking/infrastructure/booking.repository.ts:208-220 | expires exactly a pending hold at or past its deadline |
| `WebhookServices.WebhookService.Intake` | backend/src/modules/payment/application/webhook.service.ts:99-137 | a new event is one more record, RECEIVED or, with a bad signature, SKIPPED; only a new event with a good signature is enqueued, once |
| `WebhookServices.WebhookService.CaptureTransaction` | backend/src/modules/payment/application/webhook.service.ts:185-230 | statement by statement with rollback, exactly the machine's atomic capture |
| `WebhookServices.WebhookService.FailureTransaction` | backend/src/modules/payment/application/webhook.service.ts:257-277 | exactly the machine's failure write |
| `WebhookServices.WebhookService.RefundTransaction` | backend/src/modules/payment/application/webhook.service.ts:291-325 | statement by statement with rollback, exactly the machine's atomic refund |
| `WebhookServices.WebhookService.ConfirmBookingIdempotent` | backend/src/modules/payment/application/webhook.service.ts:236-255 | by the booking's row and the two clocks: a live hold is confirmed unless a host block is in the way, which throws; a hold past its deadline by both clocks queues exactly one refund and does not throw; past it by the database's only it throws; anything else is left alone |
| `WebhookServices.WebhookService.ClassifyLoss` | backend/src/modules/booking/application/booking.service.ts:178-191 | a lost confirm throws or queues one refund, by the application clock |
| `WebhookServices.WebhookService.ApplyCapture` | backend/src/modules/payment/application/webhook.service.ts:177-234 | the money tables are those of the committed transaction, and bookings, jobs and outcome those of the reconciliation; a rollback throws and changes nothing; the event is marked unless it throws |
| `WebhookServices.WebhookService.ApplyRefund` | backend/src/modules/payment/application/webhook.service.ts:283-333 | the money tables are those of the committed transaction; a cancelled booking becomes REFUNDED, no other row changes, and it throws exactly on a rollback or if the whitelist lacks that move |
| `WebhookServices.WebhookService.Process` | backend/src/modules/payment/application/webhook.service.ts:141-171 | an event that is not claimable changes nothing; a claimed one moves exactly the money of its one transaction, reconciles or advances exactly its booking, queues exactly the refund that is due, and ends PROCESSED or SKIPPED, or FAILED if and only if its kind and the tables say that it throws |
| `PayoutServices.PayoutService.SplitTransaction` | backend/src/modules/payment/application/payout.service.ts:80-125 | statement by statement with rollback, exactly the machine's atomic split |
| `PayoutServices.PayoutService.CreateForBooking` | backend/src/modules/payment/application/payout.service.ts:41-139 | creates a payout of host payout plus cleaning fee and queues its execution exactly for a completed, funded stay without one; thrown exactly if the booking is unknown or nothing is left for the host |
| `PayoutServices.PayoutService.SettleTransaction` | backend/src/modules/payment/application/payout.service.ts:177-203 | statement by statement with rollback, exactly the machine's atomic settlement |
| `PayoutServices.PayoutService.Execute` | backend/src/modules/payment/application/payout.service.ts:141-174 | asks the provider once for a PENDING payout and throws exactly if no answer comes back: then FAILED, else IN_TRANSIT with the provider's transfer, or PAID and posted if it settles at once; nothing else is touched |
| `PayoutServices.PayoutService.Settle` | backend/src/modules/payment/application/payout.service.ts:177-203 | on the provider's word a payout in transit is PAID and posted, any other left alone, and it never fails |
| `RefundServices.RefundService.FindPayment` | backend/src/modules/payment/application/refund.service.ts:25-29 | from any store: finds the latest captured payment with an intent and what is left of it |
| `RefundServices.RefundService.CheckRefunds` | backend/src/modules/payment/application/refund.service.ts:30-36 | from any store reached after the read: goes on exactly without a live refund and with something left |
| `RefundServices.RefundService.RequestRefund` | backend/src/modules/payment/application/refund.service.ts:38-53 | from any store reached after the check: appends exactly one pending refund of the amount read, with the provider's reference unless it does not answer or another refund of the payment has that reference |
| `RefundServices.RefundService.CreateForBooking` | backend/src/modules/payment/application/refund.service.ts:24-59 | with nothing in between, appends one pending refund of the whole payment with the provider's reference when one is due, and throws exactly if the provider then does not answer; nothing otherwise |
| `RefundServices.PaymentService.Initiate` | backend/src/modules/payment/application/payment.service.ts:37-94 | succeeds exactly for a live hold with a price whose row of the key needs no intent or gets one that no other payment has; a new row is the booking's, for its total, with the provider asked for; an attached intent is on the row, REQUIRES_ACTION, and finds it; a used key returns its row, payable exactly if that row was |
| `EscrowAdminServices.EscrowAdminService.Adjust` | backend/src/modules/payment/application/escrow-admin.service.ts:70-134 | exactly a positive amount between two accounts in a currency of three capital letters is recorded and posted as one pair, and never fails; any other is refused and changes nothing |
| `EscrowAdminServices.EscrowAdminService.Hold` | backend/src/modules/payment/application/escrow-admin.service.ts:144-148 | PENDING or SCHEDULED to ON_HOLD, or an error and no change |
| `EscrowAdminServices.EscrowAdminService.Release` | backend/src/modules/payment/application/escrow-admin.service.ts:150-156 | ON_HOLD to PENDING and re-queued, or an error and no change |
| `EscrowAdminServices.EscrowAdminService.Retry` | backend/src/modules/payment/application/escrow-admin.service.ts:158-168 | FAILED to PENDING and re-queued, or an error and no change |
| `BookingServices.BookingService.PlaceHold` | backend/src/modules/booking/application/booking.service.ts:135-148 | the insert commits exactly for a sound row in whose way nothing is, turnarounds included |
| `BookingServices.BookingService.Confirm` | backend/src/modules/booking/application/booking.service.ts:173-203 | succeeds exactly for a pending hold strictly before its deadline with the move whitelisted and no host block in the way; each error exactly when its cause holds, HoldExpired for an expired hold or one past its deadline by both clocks |
| `BookingServices.BookingService.CommitCancel` | backend/src/modules/booking/application/booking.service.ts:238-255 | however stale the read: commits exactly if the booking still has the status that was read, and only then queues the refund job; a lost swap changes nothing |
| `BookingServices.BookingService.Cancel` | backend/src/modules/booking/application/booking.service.ts:231-266 | with nothing in between: succeeds exactly for a whitelisted move and then always queues a refund job; the other two errors exactly for an unknown booking and a move not whitelisted |
| `BookingServices.BookingService.CommitMove` | backend/src/modules/booking/application/booking.service.ts:342-353 | however stale the read: commits exactly if the booking still has the status that was read, the move is whitelisted and, where the new status holds inventory, no host block lies over the stay; a lost swap changes nothing, a completion queues the payout job |
| `BookingServices.BookingService.SimpleTransition` | backend/src/modules/booking/application/booking.service.ts:335-353 | with nothing in between: succeeds exactly for a whitelisted move, for a check-in only without a host block over the stay; a completion queues the payout job |
| `BookingServices.BookingService.ExpireHold` | backend/src/modules/booking/application/booking.service.ts:306-321 | changes exactly a pending hold at or past its deadline |
| `StoreTheorems.StoreReconciles` | backend/src/modules/payment/infrastructure/ledger.service.ts:59-75 | any store the services have written balances, and each of its six account balances is the closed form of its rows plus the net of adjustments |
| `StoreTheorems.StorePostsOnce` | backend/src/modules/payment/infrastructure/webhook.repository.ts:19-23 | however often events were delivered and jobs run, each row of such a store was posted exactly once or not at all |
| `StoreTheorems.StoreMovesForward` | backend/src/modules/payment/infrastructure/payout.repository.ts:83-93 | between two moments of a store the ledger grew and neither a PAID payout nor a capture was undone |
| `RateLimit.RateLimitGuard.CanActivate` | backend/src/common/auth/rate-limit.guard.ts:28-72 | counts against a counter that expires one window after its first request, and allows exactly up to the limit; a refusal names the first whole second at which the window has reopened, or the window length for a key without expiry; any failure of Redis lets the request through |
| `RateLimit.LifetimeBound` | backend/src/common/auth/rate-limit.guard.ts:42-48 | at most the limit passes against one counter, over every request trace |
| `RateLimit.SlidingBound` | backend/src/common/auth/rate-limit.guard.ts:41-49 | at most 2·limit - 1 requests pass in any interval of one window's length, over every request trace and every delay between INCR and PEXPIRE |
| `RateLimit.SlidingBoundIsExact` | backend/src/common/auth/rate-limit.guard.ts:12-20 | for every limit a trace that reaches 2·limit - 1 |
| `RateLimit.NeverReopens` | backend/src/common/auth/rate-limit.guard.ts:42-45 | a counter whose PEXPIRE never arrives lets exactly the first `limit` requests through, ever |
| `RateLimit.GuardFollowsTrace` | backend/src/common/auth/rate-limit.guard.ts:42-45 | the guard's own counter is the trace model in which PEXPIRE follows at once or is lost |
| `SearchIndex.AliasStaysBound` | backend/src/modules/search/infrastructure/unit-indexer.service.ts:35-103 | whatever fails wherever, a bound alias stays bound to exactly one existing index, its own or the current one |
| `SearchIndex.MovesOnlyWhenFilled` | backend/src/modules/search/infrastructure/unit-indexer.service.ts:144-181 | the alias leaves an older version only by a rebuild's promotion, when every document that rebuild loaded is in the current index |
| `SearchIndex.UnitIndexer.EnsureIndex` | backend/src/modules/search/infrastructure/unit-indexer.service.ts:35-69 | boot creates the current index if missing and leaves a bound alias where it was |
| `SearchIndex.UnitIndexer.BulkIndex` | backend/src/modules/search/infrastructure/unit-indexer.service.ts:156-172 | the current index changes by exactly the documents that got in, which are all of them without errors; with errors the rebuild stops; other indices untouched |
| `SearchIndex.UnitIndexer.PromoteCurrentIndex` | backend/src/modules/search/infrastructure/unit-indexer.service.ts:85-103 | one swap leaves the alias on exactly the current index |
| `SearchIndex.UnitIndexer.ReindexAll` | backend/src/modules/search/infrastructure/unit-indexer.service.ts:152-181 | without bulk errors the alias ends on the current index with every document as loaded; with errors it keeps serving what it served; the current index changes by exactly the documents that got in, no other index at all |
| `Search.Search` | backend/src/modules/search/application/search.service.ts:129-154 | without a stay or hits nothing is checked; otherwise the items are the hits, in order and marked, at exactly the positions whose unit exists and has no conflict for the stay |
| `Search.KeepIsTheSublist` | backend/src/modules/search/application/search.service.ts:137-139 | what is kept is the order-preserving sublist of exactly the available ids |
| `Search.ListedIffFree` | backend/src/modules/search/application/search.service.ts:163-191 | a hit is listed if and only if its unit exists and has no conflict for the stay with its own buffer |
| `Search.ListedIffVacant` | backend/src/modules/search/application/search.service.ts:163-191 | in instants: a hit is listed if and only if its unit exists and no inventory-holding booking and no active block is in the way of the stay with the unit's own buffer |
| `Search.ListedIffBookable` | backend/src/modules/booking/infrastructure/booking.repository.ts:87-104 | of sound rows, a hold on a hit's unit for the searched stay is inserted if and only if search lists the hit |

## Left out

- Provider REST calls, HMAC and signature checks, card data: a provider is a map, a signature a Boolean.
- Liveness: that a refund or payout eventually happens. An event left PROCESSING by a crash is never reclaimed, and nothing here says otherwise.
- Automatic refund of a capture that arrives after a booking is already EXPIRED or CANCELLED: the code records it and does not refund.
- Descriptions, host ids and free-text reasons on ledger legs, and the minimum length of an administrator's reason.
- The host lookup of the payout job, and payouts.scheduled_for: they gate nothing that is proved.
- Provider refund failures beyond marking the event: the code only logs them.
- Draft bookings and the edits allowed while DRAFT: no modelled path creates one.
- The reads with which the deal service turns away hopeless claims early, and the quote inside createHold: the machine starts any request, with any amounts.
- The advisory locks between bookings and host blocks: blocks change by whole steps.
- The additive mapping sync of the search index, older versions of the program moving the alias back, and ranking, facets and geometry of search.
- How long the lock's pauses are: they are arbitrary.
- Wrap-around of integers: amounts are bigint minor units far below their range.
- OTP challenges, moderation, reviews, photos, notifications, web and mobile clients: no state that the money path depends on.
- RefundServices.RefundService.CreateForBooking: describes a job with nothing between its statements; its parts and the run theorems cover racing jobs.
- HoldServices.HoldService.CreateHold: describes a request while no other request runs; interleavings are the subject of the Holds theorems.
- BookingServices.BookingService.Cancel: describes a call with nothing between read and swap; CommitCancel covers the stale read.
- BookingServices.BookingService.SimpleTransition: describes a call with nothing between read and swap; CommitMove covers the stale read.
- BookingServices.BookingService.Confirm: describes read, swap and second read with nothing in between; the machine's ConfirmSwap and ClassifyLost steps cover the rest.
- WebhookServices.WebhookService.Process: describes one event with nothing between its statements; its transactions and the confirmation start from any store in which the worker is there.
- PayoutServices.PayoutService.Execute: describes one job with nothing between its statements; the machine's steps cover racing executions.
- EscrowAdminServices.EscrowAdminService.Adjust: describes one transaction, without the checks of the free-text reason.
