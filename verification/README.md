# taper, modelled and proved in Dafny

taper keeps multi-tenant inventory in several Go services that share no database: a stock service owns
the levels, a reservation service mirrors its holds, an order service runs a saga over both, and
consumers react to the events they publish. What it promises is mostly about what happens when calls
are repeated, interleaved, cut short or forgotten. This project models the code that carries those
promises and proves them over every input, every run or every reachable state; where the code falls
short of a promise it proves exactly when, with a lemma that exhibits the failure.

`dafny verify dfyconfig.toml` checks everything.

## How it is built

| file | holds |
|---|---|
| `Base.dfy` | 32- and 64-bit wrapping, Go's string order |
| `StockLedger.dfy` | the stock database as a value; each RPC as one transaction over its lines |
| `StockService.dfy` | the same RPCs, reconciliation and pruning as a class that changes its tables in place, proved against `StockLedger` |
| `Accounting.dfy`, `Conservation.dfy`, `Drift.dfy`, `Effects.dfy` | an exact account of every bucket over every run, and what follows from it |
| `AllOrNothing.dfy`, `Settling.dfy` | when a multi-line reservation commits, and when a release, confirmation or fulfilment does |
| `Trail.dfy`, `AuditLocks.dfy` | what a committed call records, publishes and answers; what sets and clears audit locks |
| `Locking.dfy` | concurrent transactions, one lock at a time |
| `Pruning.dfy` | key retention |
| `Reservations.dfy`, `Holds.dfy`, `Sweeping.dfy` | reservation rows, the invariant they keep with the stock service, the TTL sweeper |
| `Saga.dfy`, `SagaRunner.dfy` | the order saga as a state machine over crashes and lost replies, and `runSaga` itself |
| `OrderLines.dfy`, `CompositeKeys.dfy`, `Fulfilment.dfy` | totals and line conversion, partition keys, fulfilment end to end |
| `ChannelSync.dfy`, `Feed.dfy` | the availability projection and the sales channel under redelivery; what the channel shows of the stock |
| `RateLimit.dfy`, `Breaker.dfy`, `Consumer.dfy` | the token bucket, the circuit breaker, the consumer loop |

Operations that the services perform by changing rows or fields are methods of classes (`StockStore`,
`ReservationService`, `OrderService`, `OrderStore`, `ChannelService`, `Limiter`, `CircuitBreaker`,
`Consumer`). Each method's postcondition gives its whole new state as a function of the old one, and
the theorems are about those functions.

## Where the code and its promises part

The code is modelled as written. The following are proved, not assumed away.

- A release is logged under the caller's reason, and the reconciliation worker reads only `reserve` and
  `release` as hold movements. Every reason the callers really send makes a healthy row look drifted, so the
  worker locks it and every reservation there is refused until an unlock commits (`Drift.RealReasonsAreUnread`,
  `Drift.OneUnreadReleaseLocksTheRow`).
- Adjustments are said to be clamped at zero and to raise a deficit alert. PostgreSQL checks the row an upsert proposes
  before it looks for a conflict, so with the CHECK constraints installed every negative adjustment is refused and
  nothing is ever clamped (`Conservation.AdjustCommitsExactlyWhen`).
- Commit order explains concurrent stock transactions unless an adjustment creates a row that a call of another
  kind names (`Locking.EveryRunIsSerial`). With such a pair there is a run in which commit order explains the
  other call's answer if and only if the new row makes no difference to it (`Locking.OvertakenExactlyWhen`); to a
  release or an unlock it always does (`Locking.MissingRowIsNotSerial`).
- Holds and rows stay together if and only if every sweep and every confirmation comes in time (`Holds.HoldsMirrorRows`).
  The code does not see to that: AllocateReservation succeeds with nothing left to allocate, so a hold that expired
  during its saga is confirmed all the same (`Holds.LateConfirmFallsShort`), and the sweeper reads its batch in one
  query and releases and marks it later whatever has become of it (`Sweeping.AllocatedThenExpired`,
  `Holds.SettledForGood`).
- An order split across two sweep batches loses the second half (`Sweeping.SplitOrderStrandsItsSecondHalf`).
- A recorded reservation mirrors the stock if and only if its hold was not a replay
  (`Sweeping.ReserveMirrorsExactlyWhen`), so one retried after its own compensation holds nothing
  (`Sweeping.RetryAfterCompensationHoldsNothing`).
- When the rows of a hold cannot be recorded, the reservation service gives the hold back under the compensation
  key, and the order service ignores whether it could mark the saga failed. A resumed saga is then told its hold
  is a replay and confirms it: held, returned and allocated (`SagaRunner.UndoneHoldIsConfirmed`). An order's
  effect is exactly-once if and only if the stock service has not recorded both its return and its confirmation
  (`Saga.ExactlyOnce`).
- Exactly-once also needs the order key to be the order's own: a confirmed order has made both stock calls if and
  only if the stock service had recorded neither of its keys, and none if it had recorded both
  (`SagaRunner.ConfirmedExactlyWhen`, `SagaRunner.SharedKeyConfirmsNothing`).
- It needs the payment verdict to stay the same, and the resume pass drops the forced payment failure. Resuming a
  refused order leaves its stock both returned and allocated if and only if the return has reached the stock service
  and the confirmation commits there (`SagaRunner.RefusalForgottenExactlyWhen`, `SagaRunner.ForgottenRefusal`).
- FulfillOrder reads the order without a lock and writes unconditionally, so two calls that overlap both announce it
  (`Fulfilment.AnnouncedExactly`, `Fulfilment.TwoReadersAnnounceTwice`).
- A saga run that finishes late can take an order back from FULFILLED to CONFIRMED and let it be announced
  again (`Fulfilment.LateConfirmAnnouncesTwice`).
- The consumer goes on past an event it could not record. Channel and projection then part
  (`ChannelSync.AgreeExactlyWhen`), and a redelivery can take the projection back to an older event
  (`ChannelSync.RegressesExactlyWhen`, `ChannelSync.PassedOverEventComesBack`).
- The channel is meant to show availability, and the consumer passes over reservations and releases as if adjustments
  alone moved it. It shows what was available right after the last adjustment, which is
  what is available now if and only if reservations and releases since cancel out (`Feed.ShownIsCurrentExactlyWhen`).
- The channel adapter files locations under one colon-joined string, so two locations can share a slot
  (`CompositeKeys.SlotsSharedExactlyWhen`, `CompositeKeys.SlotsCollide`).
- A full rate limiter drops nothing if and only if the empty tenant name has the strictly oldest bucket and is
  walked last, and otherwise may drop a newer bucket because of it (`RateLimit.EvictsExactlyWhen`). Only direct
  users of the package can get there: the gateway refuses tokens with an empty tenant (pkg/auth/auth.go:157).
- A half-open breaker is described as letting a probe through and lets everything through
  (`Breaker.HalfOpenAdmitsAll`).
- The consumer can commit a message it could neither handle nor dead-letter (`Consumer.LostExactlyWhen`).

## Model

| member | source | states |
|---|---|---|
| StockService.SortedLines | internal/stockservice/helpers.go:52-62 | the in-place sort of the copied lines yields the lock order; AllOrNothing.SortedIsAscending and SumsIgnoreOrder say what that order is |
| AllOrNothing.SortedIsAscending | internal/stockservice/helpers.go:52-62 | the lock order is ascending in (sku, warehouse) and neither adds nor drops a line |
| AllOrNothing.SumsIgnoreOrder | internal/stockservice/helpers.go:52-62 | per-location totals are the same for every permutation of the lines |
| StockService.StockStore.TryIdempotency | internal/stockservice/helpers.go:27-40 | an empty key never counts as used; otherwise the key is recorded once and a second insert reports a duplicate |
| StockService.StockStore.Transact | pkg/database/tenant.go:65-93 | key, lines, then commit or rollback: the tables after are those of the whole transaction or exactly those before it, and the reply says which |
| StockService.StockStore.AdjustStock | internal/stockservice/stock.go:29-156 | upsert, clamp at zero, event, outbox and deficit alert, or the replay answer read from the row; out of range, or proposing or leaving a negative quantity under the constraints, nothing |
| StockService.StockStore.ReserveStock | internal/stockservice/stock.go:159-243 | all lines reserved, or the failing SKUs reported and every table unchanged |
| StockService.StockStore.ReleaseStock | internal/stockservice/stock.go:246-317 | reserved returned to available line by line, missing rows passed over, under the caller's reason |
| StockService.StockStore.ConfirmStockAllocation | internal/stockservice/stock.go:320-395 | reserved moved to allocated; a missing row aborts the call |
| StockService.StockStore.FulfillStock | internal/stockservice/stock.go:401-477 | allocated lowered; a missing row aborts the call |
| StockService.StockStore.UnlockStockForAudit | internal/stockservice/stock.go:480-529 | the call for one row, as AuditLocks.UnlockClears describes it |
| AllOrNothing.ReserveIsAllOrNothing | internal/stockservice/stock.go:165-243 | for counted quantities with room for them, a fresh transaction of reservation lines, in whatever order, commits if and only if every location it names has an unlocked row whose available covers the sum of all its lines; then exactly those sums move, otherwise every table and the key ledger are unchanged; negative rows, which a database without the constraints may hold, included |
| AllOrNothing.ReserveStockIsAllOrNothing | internal/stockservice/stock.go:159-243 | the same of the RPC, which sorts its lines first, in terms of the lines the caller sent |
| AllOrNothing.LockedRowRefuses | internal/stockservice/stock.go:184-192 | no reservation that names a row locked for audit commits or changes anything, and it reports insufficient stock unless its own arithmetic fails |
| AllOrNothing.ReportsRefusedSkus | internal/stockservice/stock.go:183-235 | a fresh reservation for counted quantities with room for them answers success, or the SKUs of exactly the lines that could not be granted one after the other, in lock order |
| Settling.MoveCommitsExactlyWhen | internal/stockservice/stock.go:246-477 | a fresh release, confirmation or fulfilment of counted quantities commits, with the constraints on, if and only if every row it names is there, has the sum of its lines to give and room where they go, a release passing over missing rows; without them, if and only if the rows are there; then exactly those sums move, otherwise it fails and nothing has changed |
| Trail.CommittedTrail | internal/stockservice/stock.go:206-470 | a committed call leaves, for exactly the lines whose rows are there and in line order, one audit record and one outbox event with the stated location, quantity, reason, source, actor, type and payload, and answers with one entry for each; only a release commits without all the rows |
| Trail.FulfilmentReportsWhatIsLeft | internal/stockservice/stock.go:401-477 | a fulfilment answers, line by line, what is left allocated after the lines up to it |
| AuditLocks.UnlockClears | internal/stockservice/stock.go:480-529 | an unlock commits, clears the lock of its row, changes nothing else in any row and records who asked, the warehouse manager by default; without a row it changes no row |
| AuditLocks.ReservableAgain | internal/stockservice/stock.go:480-529 | after an unlock a covered reservation that only that lock stood in the way of commits |
| AuditLocks.LockedExactlyWhen | internal/stockservice/reconcile.go:164-178 | after any run a row is locked if and only if it was to begin with or a reconciliation pass found it drifted, and no unlock of it has committed since |
| Effects.CommittedMoves | internal/stockservice/stock.go:194-205 | with the constraints on, a committed call of any kind moves exactly the sum of its lines between the buckets its kind names, at every location |
| Accounting.RunAccounts | internal/stockservice/stock.go:60-102 | over every run from an empty database the stored buckets, and the buckets derived from the event log, are exactly those of an independent account of what each call moved, drifted and wrapped; with the constraints on nothing is negative and nothing wraps |
| Conservation.UnitsAreConserved | db/migrations/stock/000004_indexes_constraints.up.sql:13-18 | over every run of calls, duplicates, aborts, reconciliation and pruning included, available + reserved + allocated at a location is what entered by clamped adjustment less what left by fulfilment, up to a multiple of 2^32; with the constraints on that multiple is zero and no bucket is negative |
| Conservation.AdjustCommitsExactlyWhen | internal/stockservice/stock.go:60-148 | a fresh adjustment commits if and only if the sum stays in range and, with the constraints on, it takes nothing away; its row then holds the sum, or zero where that is negative, and is otherwise as it was, a clamp is reported exactly there, and the audit record, the announced availability and the deficit alert say so |
| StockService.DeriveBuckets | internal/stockservice/reconcile.go:69-85 | the loop over reason sums computes the buckets the reasons stand for |
| StockService.GroupingDerives | internal/stockservice/reconcile.go:126-150 | deriving from deltas summed by reason gives the same buckets as deriving event by event, whatever order the groups come in |
| StockService.StockStore.Reconcile | internal/stockservice/reconcile.go:126-181 | a pass locks exactly the rows whose truncated derived buckets differ from the stored ones, and reports exactly those, with both |
| Drift.ExactDrift | internal/stockservice/reconcile.go:69-85 | over every run of plain reasons, derived minus stored is minus the clamped-away units in available, the units released under unread reasons in reserved, nothing in allocated, up to a multiple of 2^32 that is zero with the constraints on |
| Drift.DriftedExactlyWhen | internal/stockservice/reconcile.go:150-181 | whatever the reasons, a row is seen as drifted if and only if its accumulated drift is not a multiple of 2^32 in some bucket |
| Drift.NothingDriftsNothingLocks | internal/stockservice/reconcile.go:126-181 | with nothing clamped away and no unread release anywhere, a pass changes nothing |
| Drift.RealReasonsAreUnread | internal/stockservice/reconcile.go:69-85 | none of the four release reasons the callers send is read as a release |
| Drift.OneUnreadReleaseLocksTheRow | internal/stockservice/stock.go:287-297 | from any state the worker would pass, one committed release under such a reason makes it lock the row, and after any further operations every fresh reservation that names the row is refused and changes nothing, until an unlock of the row commits |
| Locking.EveryRunIsSerial | internal/stockservice/stock.go:171-235 | in every interleaving in which no adjustment creates a row that a call of another kind names, at every moment, the committed database is that of running the finished transactions one at a time in the order they finished, each counted once |
| Locking.SerialAnswers | internal/stockservice/stock.go:171-235 | every finished transaction was told what that serial execution would have told it |
| Locking.NoDeadlock | internal/stockservice/helpers.go:52-62 | with one key taken first and rows in lock order, every run, whatever it asks for and whether or not the rows exist, that has left a transaction unfinished can go on |
| Locking.RunsAreOrderly | internal/stockservice/stock.go:171-235 | in every reachable state every running transaction holds only locks its processed lines asked for, and no two hold the same one |
| Locking.EveryMoveCounts | internal/stockservice/stock.go:171-235 | every move lowers the number of steps left |
| Locking.RunsAreBounded | internal/stockservice/stock.go:171-235 | so no run is longer than the steps its transactions have between them |
| Locking.StuckMeansDone | internal/stockservice/stock.go:171-235 | a run that cannot go on has finished every transaction, whether or not the rows they name exist |
| Locking.OvertakenExactlyWhen | internal/stockservice/stock.go:60-72 | for every one-line call naming a missing row and every adjustment that creates it there is a run whose commit order explains the answer if and only if the new row makes no difference to it |
| Locking.MissingRowIsNotSerial | internal/stockservice/stock.go:268-275 | a release or an unlock overtaken by the adjustment that creates its row is told what commit order does not explain, for every such pair |
| StockService.StockStore.PruneBatch | pkg/idemprune/idemprune.go:90-127 | one pass under the advisory lock deletes expired keys only, the oldest first, at most a batch, and all of them when fewer; without the lock nothing |
| Pruning.DeleteExpired | pkg/idemprune/idemprune.go:90-127 | the deletion loop meets that description |
| Pruning.PassShrinks | pkg/idemprune/idemprune.go:90-127 | a pass shrinks the set of keys expired at its own or any earlier cutoff by exactly a batch, or empties it, and never removes an unexpired key |
| Pruning.PassesDrain | pkg/idemprune/idemprune.go:90-127 | whatever calls record between them, repeated passes empty the set of keys expired at a moment after as many passes as batches it holds |
| Pruning.ExactlyOnceWhileRetained | internal/stockservice/helpers.go:27-40 | once a keyed call has committed, every later call under its key within the retention is told it is a replay, an adjustment with its row as it is now, and leaves every table as it was, whatever passes and calls come between; a repeated adjustment always finds its row |
| Reservations.ReservationService.Reserve | internal/reservationservice/server.go:37-100 | hold, then rows; a hold whose rows cannot be recorded, a replayed one included, is released under the compensation key |
| Holds.ReserveAnswers | internal/reservationservice/server.go:37-100 | under a key new to both services a caller is told Ok if and only if the rows cover every line and recording works, which SKUs fell short with nothing changed if they do not, and of an error if recording fails; under a key both have, of a replay with nothing changed |
| Reservations.ReservationService.InsertReservations | internal/reservationservice/server.go:116-163 | the key and one row per item; nothing for a used key, an item the table refuses or a database error |
| Reservations.ReservationService.Release | internal/reservationservice/server.go:166-247 | stock first, then the rows; a stock error undoes the call, its key included |
| Reservations.ReservationService.AllocateReservation | internal/reservationservice/server.go:252-309 | exactly the order's active rows become allocated, once per key |
| Reservations.ReservationService.SweepOnce | internal/reservationservice/sweeper.go:43-64 | one release per order of the batch, its rows expired when the release succeeds and left alone when it fails |
| Reservations.GroupByOrder | internal/reservationservice/sweeper.go:76-83 | partitions the batch: one group per order present, holding exactly its rows in batch order |
| Holds.HoldsMirrorRows | internal/reservationservice/server.go:37-309 | over every run of such calls, every location's reserved bucket is at every moment the sum of its active rows plus its allocated rows of unconfirmed orders if and only if every confirmation that commits finds its rows allocated and every sweeper's release that commits finds its rows still standing for units |
| Holds.StepKeeps | internal/reservationservice/server.go:37-309 | each reservation, release, allocation, confirmation, sweep of a group read at any time, stock call and pruning keeps that invariant if and only if it comes in time, a condition on the state before it |
| Holds.LateConfirmFallsShort | internal/orderservice/server.go:265-290 | a confirmation that commits for an order whose rows are not allocated, expired ones among them, leaves reserved short of the rows by exactly the order's lines |
| Holds.LateSweepFallsShort | internal/reservationservice/sweeper.go:43-64 | a sweeper's release that commits for rows that no longer stand for units leaves reserved short of the rows by exactly their lines |
| Holds.SettledForGood | internal/reservationservice/sweeper.go:43-112 | over every run a row once released, expired or allocated stays so if and only if no sweep whose call succeeds marks a row that has left ACTIVE for another state since the batch was read |
| Holds.CompensationUndoes | internal/reservationservice/server.go:83-92 | the release that follows a failed recording commits and restores available and reserved at every location |
| Holds.CompKeys | pkg/database/idem.go:22-24 | compensation keys of one tenant are equal only for the same order |
| Sweeping.GroupingConserves | internal/reservationservice/sweeper.go:76-83 | the groups together hold every unit of the batch exactly once |
| Sweeping.SweepReturnsTheBatch | internal/reservationservice/sweeper.go:43-104 | a pass whose calls succeed returns to available, per location with a row, exactly the units of batch rows whose order's compensation key was unspent, and marks exactly the batch rows EXPIRED |
| Sweeping.ReadEarlier | internal/reservationservice/sweeper.go:43-64 | a batch of whole orders read in any state of a run gives sweeps that the run may take in every later state, so the theorems above cover every delay between read and release |
| Sweeping.PassIsSweeps | internal/reservationservice/sweeper.go:52-64 | a pass nothing interrupts is the run of its groups' sweeps, one after the other |
| Sweeping.AllocatedThenExpired | internal/reservationservice/sweeper.go:52-64 | for every order allocated between the read and a release that commits, the rows go from ALLOCATED to EXPIRED, and a confirmation that then commits leaves reserved short by the order's lines |
| Sweeping.SplitOrderStrandsItsSecondHalf | internal/reservationservice/sweeper.go:88-104 | a second batch of the same order expires its rows and leaves their units in reserved |
| Sweeping.ReserveMirrorsExactlyWhen | internal/reservationservice/server.go:37-100 | a reservation under a key new to the reservation service keeps reserved equal to the rows if and only if the key is new to the stock service too; otherwise it is answered Ok and reserved falls short by exactly its lines |
| Sweeping.RetryAfterCompensationHoldsNothing | internal/reservationservice/server.go:83-92 | a retry under the same key after the compensation is answered Ok and records rows that reserved falls short of by exactly their lines |
| Saga.ExactlyOnce | internal/orderservice/server.go:187-303 | over every schedule of crashes, concurrent resumes, half-done calls, reservations undone because their rows could not be recorded, lost replies and interference elsewhere, the order's stock calls that commit are at most one hold, one return and one allocation, each for exactly its lines and none before the hold; CONFIRMED implies allocated, COMPENSATED implies returned; never both return and allocation if and only if no step clashes, which is if and only if the stock service has not recorded both keys, and always when the payment fails or nothing was undone |
| Saga.StepOnce | internal/orderservice/server.go:187-303 | a step leaves the effect exactly-once if and only if it was and the step neither allocates a returned hold nor returns an allocated one, a condition on the key ledger and the call about to be made |
| Saga.StepKeeps | internal/orderservice/server.go:187-303 | each step of any run keeps the invariant that ties the log of committed calls, both key ledgers, the order's rows and the saga state together |
| Saga.CallKeepsLog | internal/orderservice/server.go:193-290 | each of the saga's stock calls, the return of an undone hold included, commits at most once, and only after the hold it disposes of |
| Saga.PlainKeysDoNotCollide | internal/orderservice/server.go:193-290 | an order key that does not begin like a compensation key keeps the step keys apart from it |
| SagaRunner.DriveEnds | internal/orderservice/server.go:187-303 | a run whose calls get through and which no breaker stops leaves its saga in a terminal state |
| SagaRunner.FreshOrderIsConfirmed | internal/orderservice/server.go:187-303 | for a paying order that has left no trace, with room in the buckets, an undisturbed run ends CONFIRMED if and only if every row it names is there, unlocked and has what all its lines ask; then exactly those units have gone from available to allocated in two calls and its rows are recorded and allocated, otherwise it ends FAILED and neither service has changed |
| SagaRunner.FreshRefusalIsUndone | internal/orderservice/server.go:220-262 | if such an order's payment fails it ends COMPENSATED, every stock row is as before the hold and none of its rows is active |
| SagaRunner.ResumeSettles | internal/orderservice/server.go:121-182 | whatever happened before, one undisturbed resume ends the saga failed, confirmed with its stock allocated, or compensated with its stock returned |
| SagaRunner.StoredOrdersArePlaced | internal/orderservice/server.go:587-639 | every order the order database can hold is one those theorems apply to |
| SagaRunner.RefusalForgottenExactlyWhen | internal/orderservice/server.go:168-175 | from every reachable state of a refused order in which it can be resumed, with any lines, the resume as a paying order leaves its stock both returned and allocated if and only if the return key is recorded and the confirmation commits; one that ends CONFIRMED is exactly-once if and only if the return key is not recorded |
| SagaRunner.ForgottenRefusal | internal/orderservice/server.go:168-175 | as long as other orders keep the units in reserved, it happens to every one-line order whose return has reached the stock: hold, return and allocation commit and it ends CONFIRMED |
| SagaRunner.UndoneHoldIsConfirmed | internal/reservationservice/server.go:83-92 | for every initial state with the stock for a one-line order there is a run that commits its hold, its return and its allocation and ends CONFIRMED |
| SagaRunner.ConfirmedExactlyWhen | internal/orderservice/server.go:193-290 | whatever the services hold, an undisturbed paying run ends CONFIRMED if and only if its hold is granted and its confirmation accepted, and has then committed exactly the stock calls whose keys were not recorded: both if and only if neither was, none if and only if both were |
| SagaRunner.SharedKeyConfirmsNothing | internal/orderservice/server.go:193-290 | so under step keys another order has used, an order ends CONFIRMED with no stock and no row changed |
| SagaRunner.OrderService.RunSaga | internal/orderservice/server.go:187-303 | the imperative run leaves services and saga row exactly where the state machine's run does, records every call it makes with its breaker as what it was and no other, and is refused exactly at the first call whose breaker does not admit it |
| SagaRunner.RunIsSteady | internal/orderservice/server.go:187-303 | a run counts at most one failure against each breaker, and none unless one of its calls errs |
| SagaRunner.FailsFast | internal/orderservice/server.go:188-204 | when a reservation errs and the breaker has no failure to spare, every run started within the cooldown is refused before it asks for anything |
| SagaRunner.OrderService.Hold | internal/orderservice/server.go:188-218 | the reserve step: refused exactly when the breaker says so, failed, or held and marked, and recorded as what it was |
| SagaRunner.OrderService.ChargeAndSettle | internal/orderservice/server.go:220-303 | charge, then allocate and confirm, or compensate |
| SagaRunner.OrderService.AllocateAndConfirm | internal/orderservice/server.go:265-303 | rows allocated before the stock is confirmed, also when the confirmation is then refused |
| SagaRunner.OrderService.Compensate | internal/orderservice/server.go:498-514 | release under the compensation key, then COMPENSATED, or FAILED when the release errors |
| SagaRunner.OrderService.CancelOrder | internal/orderservice/server.go:361-384 | a confirmed order is refused, an ended one reported, any other released and marked COMPENSATED |
| SagaRunner.CancelReturnsOnce | internal/orderservice/server.go:361-384 | after a cancellation that released a hold, neither the saga's compensation nor a sweep of the order returns anything more |
| SagaRunner.ReleaseEndsTheHold | internal/reservationservice/server.go:166-247 | a successful release leaves no active row of its order and changes no other row |
| SagaRunner.OrderService.ResumePendingSagas | internal/orderservice/server.go:121-182 | the pass gives up at the first saga whose lines cannot be loaded; however many it gets to, each ends terminal unless as many of those before it as the breakers had failures to spare met a call that errored, and all of them when none did; the services end where re-driving them one after the other leaves them, and no other saga changes |
| SagaRunner.CleanPass | internal/orderservice/server.go:121-182 | a pass in which no call errors leaves every saga it gets to terminal, without a bound on their number |
| OrderLines.OrderTotal | internal/orderservice/helpers.go:11-17 | the loop computes the wrapping 64-bit total |
| OrderLines.TotalIsExactWrapped | internal/orderservice/helpers.go:11-17 | wrapping at every step equals wrapping the exact sum once |
| OrderLines.ToStockLines | internal/orderservice/server.go:681-703 | both conversions keep SKU, warehouse and quantity, line by line |
| OrderLines.ResumeSendsTheSameWork | internal/orderservice/server.go:145-175 | lines reloaded in any order are charged the same amount and hold and confirm the same quantity at every location |
| CompositeKeys.CutRecovers | internal/fulfillment/service.go:49-57 | cutting tenant:rest at the first colon recovers both if and only if the tenant holds no colon |
| CompositeKeys.SplitRecovers | internal/channelsync/service.go:209-215 | the channel consumer recovers both if and only if, besides, neither is empty |
| CompositeKeys.SplitsExactlyWhen | internal/channelsync/service.go:209-215 | the keys it takes apart are exactly the joins of a non-empty colon-free tenant and a non-empty rest |
| CompositeKeys.IndexOfColon | internal/channelsync/service.go:209-215 | the search loop finds the first colon or reports none |
| CompositeKeys.SlotsSharedExactlyWhen | pkg/channel/channel.go:113-115 | for colon-free tenants, two locations share a slot if and only if they are the same, or the longer warehouse is some text, a colon and the shorter one, and the shorter one's SKU is the other SKU, a colon and that text |
| CompositeKeys.SlotsDiffer | pkg/channel/channel.go:113-115 | so colon-free warehouses keep channel slots apart |
| CompositeKeys.SlotsCollide | pkg/channel/channel.go:113-115 | and every location with a colon in its warehouse shares its slot with another |
| Fulfilment.OrderStore.CreateOrder | internal/orderservice/server.go:587-639 | key, order and lines together or not at all; a used key is a replay, an existing order or a line the tables refuse (repeated, without positive quantity, with a negative price) an error that gives the key back |
| Fulfilment.CreatedOnce | internal/orderservice/server.go:587-639 | a created order is stored PENDING with its lines and total, its key with the payload hash; a retry under the key is told of a replay, and no call creates the order again or changes anything |
| Fulfilment.OrderStore.FulfillOrder | internal/orderservice/server.go:390-495 | one status change and one event for an order seen CONFIRMED under a new key; a replay needs the same key and payload |
| Fulfilment.OrderStore.Finish | internal/orderservice/server.go:409-490 | the part after the read, for a status that may have been overtaken: keys, status and event together, whatever the order has become, or nothing |
| Fulfilment.FulfilRefused | internal/orderservice/server.go:403-432 | an order that is missing is not found, one that is neither CONFIRMED nor FULFILLED refused, and nothing changes |
| Fulfilment.FulfilSucceedsOnce | internal/orderservice/server.go:409-490 | a CONFIRMED order is fulfilled and announced with its own lines by a call under a new key or none; after that no call changes anything, and one succeeds if and only if its key is recorded with its payload |
| Fulfilment.StatusIsTheLastWord | internal/orderservice/server.go:556-580 | over every run an order's status is what the last creation, saga write or fulfilment of it said |
| Fulfilment.ConfirmedFirst | internal/orderservice/server.go:403-432 | over every run an order is CONFIRMED, FULFILLED, announced or seen so by a call only if the saga marked it CONFIRMED after it was created |
| Fulfilment.AnnouncedExactly | internal/orderservice/server.go:390-495 | over every run, however the calls overlap, order.fulfilled events of an order number one for being FULFILLED now, one for each saga write that reopened it and one for each call that committed after another had overtaken the status it saw |
| Fulfilment.AnnouncedOnce | internal/orderservice/server.go:390-495 | for calls that do not overlap, the events number one for being FULFILLED now plus one for each saga write that reopened the order; so at most one when none did |
| Fulfilment.TwoReadersAnnounceTwice | internal/orderservice/server.go:400-490 | any two calls under different keys or without keys that both read a CONFIRMED order before either commits write two events |
| Fulfilment.LateConfirmAnnouncesTwice | internal/orderservice/server.go:526-583 | a late CONFIRMED lets a second event out |
| Fulfilment.EventsAreFaithful | internal/orderservice/server.go:440-480 | every event written carries its order's partition key and stored lines, and stored orders are never empty |
| Fulfilment.HandleOrderEvent | internal/fulfillment/service.go:32-83 | ignores other events, rejects incomplete ones, otherwise makes exactly the stock call the event asks for |
| Fulfilment.ReactsExactlyWhen | internal/fulfillment/service.go:43-77 | a message leads to the call for a tenant and order if and only if it announces with lines and its payload names both or, unless it does, its key is their join and the tenant has no colon |
| Fulfilment.AcceptedExactlyWhen | internal/fulfillment/service.go:70-83 | a first delivery is accepted if and only if every row it names has the order's units allocated, and changes nothing otherwise; a redelivery is always accepted and changes nothing |
| Fulfilment.EventFindsItsOrder | internal/fulfillment/service.go:49-77 | an event of the order service becomes the call for its own tenant, order and lines if and only if the tenant is non-empty and colon-free |
| Fulfilment.FulfilledOnce | internal/fulfillment/service.go:62-77 | the first delivery that commits lowers allocated by the order's lines at every location and moves nothing else; every redelivery within key retention changes no table |
| ChannelSync.ChannelService.HandleStockEvent | internal/channelsync/service.go:41-76 | skips malformed keys and other events, and delivers adjustments and deficit alerts; it reports success if and only if there was nothing to do or both the push and the transaction went through |
| ChannelSync.ChannelService.HandleAdjusted | internal/channelsync/service.go:80-131 | push, then id and projection together; a failed transaction leaves only the push |
| ChannelSync.ChannelService.HandleDeficit | internal/channelsync/service.go:133-183 | notify, then id and alert together; a failed transaction leaves only the notification |
| ChannelSync.TouchesExactlyWhen | internal/channelsync/service.go:80-131 | a message pushes and records the availability it carries, for a location if and only if it is a decodable stock.adjusted with key tenant:sku, that warehouse and no negative count, and the SKU is not failing |
| ChannelSync.AlarmsExactlyWhen | internal/channelsync/service.go:133-183 | a message raises an alert if and only if it is a decodable stock.deficit_alert with the alert's key, warehouse, delta, reason and source |
| ChannelSync.ChannelService.SetAvailability | pkg/channel/channel.go:68-81 | refuses negative counts and failing SKUs, otherwise overwrites the slot |
| ChannelSync.ChannelService.Availability | pkg/channel/channel.go:99-104 | reads the slot back |
| ChannelSync.Converges | internal/channelsync/service.go:80-131 | for every trace that goes on only after a commit and rewinds any distance, whenever the consumer is back at the furthest event it reached and has recorded it, channel and projection agree at every location and hold the available count of the last event that touches it |
| ChannelSync.ProjectionNeverRegresses | internal/channelsync/service.go:112-130 | for such a trace the projection is at every moment that of a prefix of the events, and the prefix only grows |
| ChannelSync.RedeliveryShowsOldValue | internal/channelsync/service.go:101-111 | a redelivery shows the channel its old value while projection and ids stay |
| ChannelSync.ChannelCatchesUp | internal/channelsync/service.go:80-111 | for every trace that advances by one, recorded or not, or rewinds any distance, at the furthest event the channel shows the last adjusted event of every location |
| ChannelSync.ProjectionIs | internal/channelsync/service.go:112-130 | for every such trace the projection holds at every moment the available count of the event recorded last in time |
| ChannelSync.AgreeExactlyWhen | internal/channelsync/service.go:80-131 | at the furthest event channel and projection agree at a location if and only if the event recorded last there carries what the last event there carries, and, where all carry different counts, if and only if it is that event |
| ChannelSync.RegressesExactlyWhen | internal/channelsync/service.go:112-130 | the projection of a location never goes back to an older event if and only if no event is recorded there after a newer one |
| ChannelSync.PassedOverEventComesBack | pkg/streaming/consumer.go:110-131 | for every two events of a location with different counts there is a trace that passes over the first, records it after the second, and ends caught up with channel and projection apart |
| ChannelSync.AlertsAreFiledOnce | internal/channelsync/service.go:133-183 | over every trace the notifier gets an alert at each delivery of its event, and the alert table at the first delivery that commits only |
| ChannelSync.AlertsAreTheEvents | internal/channelsync/service.go:133-183 | an alert was sent if and only if some delivered event raises it, and filed if and only if the delivery that recorded some event raises it |
| Feed.FeedCarriesTheStock | internal/stockservice/stock.go:106-118 | over every run of the stock service the last outbox message that touches a location says what it had available right after it was last adjusted |
| Feed.ChannelShowsTheLastAdjustment | internal/channelsync/service.go:80-111 | end to end, a consumer that has been through the whole outbox, whatever was redelivered or could not be recorded, has the channel show what each location had available right after it was last adjusted |
| Feed.AvailableSinceAdjusted | internal/stockservice/stock.go:194-205 | with the constraints on, what is available is what the last adjustment left less what was reserved and plus what was released since |
| Feed.ShownIsCurrentExactlyWhen | internal/channelsync/service.go:66-70 | so the channel shows what is available if and only if reservations and releases since the last adjustment cancel out |
| RateLimit.Limiter.Take | pkg/ratelimit/ratelimit.go:62-86 | refill, draw or refuse, opening a bucket and evicting first for a new tenant |
| RateLimit.Limiter.Evict | pkg/ratelimit/ratelimit.go:98-112 | the scan over the map in whatever order it is walked, the empty name doubling as none |
| RateLimit.TokensStayInRange | pkg/ratelimit/ratelimit.go:76-85 | in every reachable state every bucket holds between zero and the burst |
| RateLimit.RateBound | pkg/ratelimit/ratelimit.go:62-86 | in any window of any run a tenant gets through at most burst + rate * length, plus one burst for each time its own bucket was evicted inside it |
| RateLimit.FirstRequest | pkg/ratelimit/ratelimit.go:62-86 | a tenant without a bucket is let through if and only if limiting is off or the burst is at least one |
| RateLimit.AdmittedExactlyWhen | pkg/ratelimit/ratelimit.go:62-86 | as long as its bucket is kept, a tenant's request is let through if and only if, for every window since the bucket was opened, those let through in it and one more are at most burst + rate * length |
| RateLimit.BurstAtOnce | pkg/ratelimit/ratelimit.go:62-86 | a new tenant that asks n times at one moment is let through min(n, floor(burst)) times |
| RateLimit.EvictsLeastRecent | pkg/ratelimit/ratelimit.go:98-112 | whatever the walk, a full limiter without an empty-named tenant drops exactly one bucket, a least recently used one |
| RateLimit.EvictsExactlyWhen | pkg/ratelimit/ratelimit.go:98-112 | whatever the names and the walk, nothing is dropped if and only if the empty name is strictly oldest and walked last; otherwise exactly one bucket is, a least recently used one if and only if the empty name is not strictly oldest, and else the oldest of those walked after it |
| RateLimit.BucketsStayBounded | pkg/ratelimit/ratelimit.go:98-112 | without an empty-named tenant the live buckets never outnumber the floor |
| RateLimit.EmptyNameIsNeverDropped | pkg/ratelimit/ratelimit.go:98-112 | a full limiter's new tenant makes one bucket too many if and only if the empty name has the strictly oldest bucket and is walked last |
| RateLimit.Admit | internal/gateway/core.go:180-193 | a refused request gets the header computed from the wait |
| RateLimit.RetryAfterSuffices | internal/gateway/core.go:180-193 | a denied tenant that waits the header's seconds (delay-seconds, section 10.2.3 of RFC 9110) and keeps its bucket is let through if and only if the burst is at least one; a second earlier only when the wait was whole seconds |
| Breaker.CircuitBreaker.Allow | pkg/circuitbreaker/circuitbreaker.go:52-67 | admits, refuses, or turns half-open after the cooldown |
| Breaker.CircuitBreaker.RecordSuccess | pkg/circuitbreaker/circuitbreaker.go:70-75 | closes and forgets the failures |
| Breaker.CircuitBreaker.RecordFailure | pkg/circuitbreaker/circuitbreaker.go:78-92 | counts while closed, reopens a half-open breaker, changes nothing while open |
| Breaker.ClosedByHistory | pkg/circuitbreaker/circuitbreaker.go:52-92 | after every sequence of calls the breaker is closed if and only if the failures since the last success are fewer than the threshold |
| Breaker.RefusedByHistory | pkg/circuitbreaker/circuitbreaker.go:52-92 | a call is refused if and only if the breaker tripped less than a cooldown ago and no probe has been let through since |
| Breaker.OpenForTheCooldown | pkg/circuitbreaker/circuitbreaker.go:52-67 | once open, everything is refused for the whole cooldown, further failures do not extend it, and the first request after it passes |
| Breaker.ErrorTrips | pkg/circuitbreaker/circuitbreaker.go:78-92 | a guarded call that errors on a closed breaker with no failure to spare, or a half-open one, makes every later call refused if and only if it comes within the cooldown |
| Breaker.HalfOpenAdmitsAll | pkg/circuitbreaker/circuitbreaker.go:64-66 | half-open, every request passes until a result is recorded |
| Consumer.Consumer.Process | pkg/streaming/consumer.go:134-151 | at most one call and the configured retries, stopping at the first success, then dead-lettering |
| Consumer.Consumer.DeadLetter | pkg/streaming/consumer.go:154-182 | the envelope holds topic, key, payload, headers, cause and attempts, or the write fails |
| Consumer.Consumer.Run | pkg/streaming/consumer.go:110-131 | every fetched message is processed in order and its commit attempted whatever became of it; the group's offset ends at the last message whose commit succeeded |
| Consumer.NoSilentLoss | pkg/streaming/consumer.go:110-182 | for every handler behaviour, without cancellation and with the dead-letter topic up, each message was handled or is in the topic as it arrived, after 1 to MaxRetries + 1 calls |
| Consumer.LostExactlyWhen | pkg/streaming/consumer.go:110-182 | a message is passed for good without being handled or dead-lettered if and only if its handler keeps failing, then the context is cancelled between attempts or the dead-letter write fails, and its commit or a later one succeeds |
| Consumer.LetGoExactlyWhen | pkg/streaming/consumer.go:134-182 | processing lets a message go, neither handled nor dead-lettered, if and only if its handler keeps failing and then the context is cancelled between attempts or the dead-letter write fails |
| Consumer.CoveredExactlyWhen | pkg/streaming/consumer.go:121-129 | the offset passes a message if and only if its own commit or a later one succeeds |
| Consumer.LastHeaderWins | pkg/streaming/consumer.go:155-158 | a header name maps to its last value, and only names that occur are mapped |
| Consumer.LettersHaveCauses | pkg/streaming/consumer.go:150-182 | nothing is dead-lettered that did not exhaust its attempts |

## Left out

- Transport and encoding: gRPC, Kafka, Debezium, JSON, protobuf and UUID parsing. A call is an atomic step that
  takes effect, half effect where it has two local transactions, or none, and whose reply may be lost; payloads are records.
- Row-level security, roles and pools: the tenant is part of every key.
- Payload hashes, signatures and tokens: a stored hash is an uninterpreted string.
- Clocks, tickers, worker loops and backoff: times are parameters.
- Observability, TLS, configuration, HTTP routing, login, readiness and shutdown order: they would only add easy members.
- The outbox pruner: the same shape as the key pruner.
- The reservation service's own outbox events, GetOrder, order totals stored for display and transaction ids: data carried along.
- The saga's writes of order status and order events: SagaRunner keeps the saga row only, and Fulfilment takes those
  writes as steps and keeps the status and the order.fulfilled events.
- StockService.SortedLines: sort.Slice leaves the order of equal lines open; the model keeps request order, and the totals theorems hold for every order.
- StockService.DeriveBuckets: sums are unbounded integers, not int64; the comparison truncates to 32 bits either way.
- Holds.HoldsMirrorRows: each reservation call, and each sweep of one order, is one step there, although it spans two databases;
  Saga.ExactlyOnce takes the saga's calls apart. Sweep batches split no order; Sweeping.SplitOrderStrandsItsSecondHalf is what happens otherwise.
- Saga.ExactlyOnce: a cancellation or a sweep of the same order during its saga is not among the steps, nor is pruning of its keys;
  Holds.StepKeeps and Holds.LateConfirmFallsShort say what a sweep in the middle of a saga does.
  Each local transaction commits or does not, and its caller knows which; only the replies of calls between services are lost.
- SagaRunner.OrderService.RunSaga: the reservation service's database works during the run; Saga.ExactlyOnce has the steps where it does not.
- RateLimit.RateBound: tokens are real numbers, so float64 rounding is not modelled.
- RateLimit.RetryAfterSuffices: asks that the wait fit in a 64-bit nanosecond count, because Go leaves the conversion of a larger float open.
- ChannelSync.Converges: event ids are taken to be distinct, as outbox row ids are; the fallback id made from topic, key and offset is not modelled.
- Feed.ChannelShowsTheLastAdjustment: the relay from the outbox to the topic keeps its order and loses nothing, and tenants are
  identifiers without colons.
- Consumer.Consumer.Run: one partition; a failed fetch is retried at once and changes nothing.
