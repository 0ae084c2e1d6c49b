# Cinema booking: seats, claims and money

A Dafny model of the booking service's protocol: holds on seats, the sweeper
that expires them, payments with provider callbacks, cancellation and refunds.
The tables, the unique indexes over them and every transaction are modelled;
what the code, its comments and its schema promise about them is proved for all
inputs, all interleavings of transactions and all runs.

## Layers

- **Tables** (`Store`): bookings, seat claims, payments and events as one value,
  the indexes and checks of the schema as predicates, every committed
  transaction as a function. `Steps` runs them in any order. On this layer:
  `Invariant`, `Histories`, `SeatMap`, `Sweeper`, `SweepPass`, `Replay`,
  `LateRows`, `HoldRaces`, `OrderedClaims`, `InMemory`, and `Guards`, the exact
  steps that put the money at risk.
- **Statements** (`Postgres.Database`, `Catalog.CatalogRepository`,
  `Bookings.BookingService`, `Payments.PaymentService`, `FakeBookings.Repository`,
  `Migrations.Database`, `Limiter.IpLimiter`): the same operations as imperative
  methods with the loops, retries, nested transactions and rollbacks of the code.
  Each is proved to be its transaction, or to do what its promise says.
- **Calls** (`Money`): checkouts, deliveries with their refund after the commit,
  and cancellations as sequences of transactions and gateway calls, interleaved
  freely except that a booking is in at most one call at a time. The ledger laws
  hold here, and `Calls` and `Payments` show that an undisturbed call is such a
  sequence.
- **Overlapping calls** (`Concurrent`): the same calls move by move, with nothing
  but the checks of the code between them, any number of them on one booking;
  `Alone` shows that a call nothing interrupts ends as the use case does.
  `Overlaps` has three runs that break the ledger laws, and for each the condition
  under which it happens, exactly; `RefundWindows` does so for double refunds.
  `OverlapLedger` proves that the ledger balances all the same when nobody takes
  one of the unsafe steps of `Guards`.

The laws about money rest on these premises: calls on one booking do not
overlap; a new intent is pending and carries a fresh reference; the gateway
gives one verdict per charge and reports a refund only for a charge it captured;
no database error falls between a refund at the gateway and the update of its
row. Money is counted by payment rows.

The clock is one non-decreasing value. New ids, attempt keys and intent
references are inputs. So are the gateway's answers, the point at which the
database aborts a transaction, and what a concurrent call does in the middle of
a checkout.

## Where code and comments differ

- `ExpireDueHolds` is documented to return how many bookings it released
  (internal/domain/booking.go:95-97); it returns seat claims.
  `SweepPass.CountsBookingsOnlyIfSingleSeats` says when the two agree.
- The open-payment index is said to keep a double-click from charging twice
  (internal/adapters/postgres/migrations/0001_init.sql:125). It does while the
  first payment is open; `Overlaps.OverlappingCheckoutsChargeTwice` is a run in
  which the first succeeds in between. `Guards.AloneThroughoutIff` and
  `Guards.SuccessChargesTwiceIff` give the check that is missing at the insert
  (internal/usecase/payment.go:139): no captured payment of the booking.
- Seats are said never to be freed while the money for them is kept
  (internal/usecase/payment.go:394-395), and a confirmed one never to be released
  without a refund (internal/usecase/booking.go:146-148).
  `Overlaps.OverlappingReleaseKeepsMoney` does both;
  `Guards.NeverGivesUpPaidSeatsIff` gives the check that is missing in `Cancel`: no
  succeeded payment of the booking.
- Two overlapping cancellations refund one payment twice
  (`Overlaps.OverlappingCancelsRefundTwice`). `RefundWindows.SecondRefundIff`: the
  second is granted exactly when its lookup came before the row recorded the
  first; re-reading the row at the request would not be enough, since the gateway
  is asked before the row is updated.
- A comment says that correctness does not depend on the sweeper, as reads and new
  holds treat a lapsed hold as free (internal/worker/expirer.go:14-16). For the
  reported statuses, the seat map and the outcome of holds this is so exactly as
  long as no step acts on a lapsed hold: `Sweeper.SweeperIsInvisibleIff`. A payment
  that succeeds after the hold lapsed does (`Sweeper.LateConfirmSeesTheSweeper`).
- Reporting a lapsed hold as expired before the sweeper rewrote it is said to give
  clients one consistent story (internal/usecase/booking.go:119-120). It does so for
  the status alone. In any valid state with a due hold, a sweep of it takes away the
  expiry and the active seats that `Get` returns, and `StartCheckout` refuses the
  booking as expired before and for its state after:
  `Sweeper.SweepChangesTheStory`. The story is one whatever the sweeper does
  exactly when no hold is ever due (`Sweeper.OneStoryIff`).
- Claiming seats in a stable order is said to keep two overlapping requests from
  deadlocking (internal/adapters/postgres/booking.go:34-37). They cannot deadlock on
  each other's inserts, but an insert also waits for an uncommitted release of the
  same claim: `OrderedClaims.ReleaseDeadlock` is a deadlock of two ascending holds.
  `OrderedClaims.NoDeadlock`: every one needs such a wait. The retry loop covers it.
- Recording events once is said to make redelivery safe
  (internal/adapters/postgres/migrations/0001_init.sql:130-131). A success that
  overtakes the insert of its payment is recorded without one, and no redelivery
  can settle the payment: `LateRows.SuccessReachesItsRowIff`.
- The lifecycle comment (internal/domain/booking.go:8-15) lets only held bookings
  expire; `Cancel` accepts 'expired' for a confirmed one. No caller passes it.
  `Histories.CancelFollowsLifecycle` gives the exact condition.
- The in-memory repository is meant to keep the guarantees of the real one; it
  accepts a request that names a seat twice. `InMemory.HoldsAgree` gives the
  exact difference.

## Model

| member | source | states |
|---|---|---|
| `Invariant.StepKeepsValid` | internal/adapters/postgres/migrations/0001_init.sql:51-142 | every transaction keeps all index and link invariants: one active claim per seat and showtime, claims active exactly while their booking is, an expiry exactly while held, totals equal to the sum of claim prices, one open payment per booking, unique keys and references |
| `Invariant.EveryReachableStateIsValid` | internal/adapters/postgres/migrations/0001_init.sql:91-96 | from empty tables, every interleaving of any transactions stays within these invariants |
| `Invariant.NewClaimsPrice` | internal/adapters/postgres/booking.go:77-80 | the booked total is the sum over the claimed rows, for any list of different seats |
| `Invariant.ActIsUpdateThenBooking` | internal/usecase/payment.go:242-264 | acting on an event fails before any write, exactly for a success on a payment that ended without one, and is otherwise one guarded payment update and one guarded booking change |
| `Seats.SortedOrder` | internal/adapters/postgres/booking.go:34-38 | sorting a request keeps its seats and its price, and yields strictly ascending ids when no seat is named twice |
| `Seats.SamePrice` | internal/adapters/postgres/booking.go:77-80 | the total does not depend on the order of the seats |
| `Claiming.AllInserted` | internal/adapters/postgres/booking.go:112-138 | when every row-by-row insert went through, the tables are those of the atomic hold |
| `Claiming.OneRefused` | internal/adapters/postgres/booking.go:112-129 | when one insert is refused, the atomic hold of all seats is refused as well |
| `Claiming.RefusedForGoodReason` | internal/adapters/postgres/migrations/0001_init.sql:88-96 | during the loop, the two unique indexes refuse only a seat named twice or a seat somebody else already had |
| `Histories.RunEvolves` | internal/domain/booking.go:8-15 | over any run bookings and payments only move along their lifecycles, owner, amount, booking and reference never change, a freed claim stays free, and the expiry of a held booking never decreases |
| `Histories.CancelFollowsLifecycle` | internal/adapters/postgres/booking.go:330-348 | a repository cancel keeps to the documented lifecycle if and only if it does not expire a confirmed booking |
| `Histories.CheckoutProtectsSeats` | internal/adapters/postgres/booking.go:372-388 | after an extension to a deadline, every claim of the booking stays active until then in every run in which neither the owner cancels nor a refund arrives |
| `Histories.ExtendedCheckoutKeepsSeats` | internal/usecase/payment.go:97-101 | so a checkout whose extension succeeded keeps every seat until the time it asked for |
| `SeatMap.AtMostOneClaim` | internal/adapters/postgres/catalog.go:118-132 | the joins give one row per seat, decided by the one claim there can be |
| `SeatMap.SeatMapAgreesWithHold` | internal/adapters/postgres/catalog.go:109-112 | a hold with a new or absent key for different seats succeeds if and only if the seat map shows each of them as available at that instant |
| `SeatMap.HeldSeatsShow` | internal/adapters/postgres/catalog.go:152-163 | afterwards the map shows these seats as held by the new booking |
| `SeatMap.StatusIsTruthful` | internal/adapters/postgres/catalog.go:152-163 | a seat is sold to a booking if and only if that booking has an active claim on it and is confirmed, held by it if and only if it has one, is held and has not lapsed, and available otherwise |
| `SeatMap.ConfirmingSellsSeats` | internal/adapters/postgres/catalog.go:113-117 | confirming a booking turns each of its seats from held, or from available once lapsed, to sold |
| `Sweeper.SweeperIsInvisible` | internal/worker/expirer.go:14-16 | erasing all sweep passes from a run with no step that acts on a lapsed hold changes, at no moment of the run, the seat map, the owner, key or reported status of any booking, the outcome of any hold that could be asked for, or the id it would return |
| `Sweeper.SweepShowsIff` | internal/usecase/payment.go:293-299 | a sweep of a lapsed hold just before a step changes one of these after it if and only if the step acts on that hold: a confirmation, a cancellation, an extension past the present, or a success or refund event that reaches it |
| `Sweeper.SweeperIsInvisibleIff` | internal/worker/expirer.go:14-16 | for any run without sweeps: no way of adding sweeps to it ever changes one of these if and only if no step acts on a lapsed hold |
| `Sweeper.SweepChangesTheStory` | internal/usecase/booking.go:119-123 | in any valid state a sweep of a due hold takes away the expiry and every active seat that Get returns, and changes the error with which a checkout of it is refused |
| `Sweeper.OneStoryIff` | internal/usecase/booking.go:119-123 | for any run without sweeps: no way of adding sweeps to it changes any answer, including the whole answer of Get and the refusal of a checkout, if and only if no hold is due at any moment |
| `Sweeper.LateConfirmSeesTheSweeper` | internal/usecase/payment.go:293-299 | such a run: a payment for a lapsed hold, with and without a sweep before it |
| `SweepPass.SweepReturnsFreedSeats` | internal/adapters/postgres/booking.go:173-196 | a pass returns exactly the drop in active claims |
| `SweepPass.PassesDrain` | internal/adapters/postgres/booking.go:174-180 | n unblocked passes at a still clock leave exactly the due holds beyond n limits |
| `SweepPass.EnoughPassesLeaveNoneDue` | internal/adapters/postgres/booking.go:166-172 | none is left due if and only if the limits cover the backlog |
| `SweepPass.CountExceedsBookingsBySurplus` | internal/domain/booking.go:95-97 | the returned count is the number of bookings plus, for each, its seats beyond the first, whatever the bookings hold |
| `SweepPass.StepKeepsSeated` | internal/usecase/booking.go:61-63 | when no hold asks for an empty list, every booking keeps having a claim |
| `SweepPass.CountsBookingsOnlyIfSingleSeats` | internal/domain/booking.go:95-97 | in every state such a run reaches, the count is the number of bookings if and only if each released booking had one seat |
| `SweepPass.TwoSeatsCountTwice` | internal/domain/booking.go:95-97 | a valid state in which one released booking counts as two |
| `Replay.DeliveryOutcomes` | internal/usecase/payment.go:200-205 | when a delivery fails, exactly; a failed or repeated one leaves every table alone, event row included |
| `Replay.RepeatsDoNotMatter` | internal/adapters/postgres/payment.go:127-144 | any deliveries with arbitrary repeats, interleaved with any steps, end where acting on only the first successful delivery of each event ends |
| `LateRows.SuccessReachesItsRowIff` | internal/usecase/payment.go:229-239 | a charge whose success is delivered, and redelivered any number of times in any run, captures its payment if and only if the payment row was there and open at the first delivery |
| `LateRows.SuccessBeforeItsRow` | internal/usecase/payment.go:230-237 | a success recorded before its row is inserted leaves the row pending after a redelivery |
| `HoldRaces.HoldsAreIdempotent` | internal/adapters/postgres/booking.go:42-60 | over any interleaving of lookups, attempts and retries, all successful calls with one user's key return one id, and none is told that the booking does not exist |
| `HoldRaces.NextKeepsRaceOk` | internal/usecase/booking.go:72-81 | every move keeps: at most one booking per user and key, a lost race has its winner in the tables, at most three attempts |
| `HoldRaces.WinnersAgreeWithTheTables` | internal/adapters/postgres/booking.go:53-58 | over every race from valid tables, a call that succeeded with a key returned the booking the tables have under it |
| `OrderedClaims.NoDeadlock` | internal/adapters/postgres/booking.go:34-38 | a cycle of waits, of any length, among holds that insert in ascending order contains a wait for an uncommitted release |
| `OrderedClaims.ReleaseDeadlock` | internal/adapters/postgres/booking.go:69-74 | two ascending holds that do wait for each other, one of them for a release |
| `OrderedClaims.SomeoneCanMove` | internal/adapters/postgres/booking.go:112-118 | while a hold is open, one of them can move or waits for an uncommitted release |
| `OrderedClaims.AllFinish` | internal/adapters/postgres/booking.go:34-38 | every schedule is bounded by the work; one that cannot be continued has finished all holds or left one waiting for a release, and has finished them all when no hold released a seat that another wants |
| `OrderedClaims.MoveKeepsExclusive` | internal/adapters/postgres/migrations/0001_init.sql:91-96 | two open holds never own the same index entry |
| `OrderedClaims.HoldPlansAscend` | internal/adapters/postgres/booking.go:34-38 | the insertion order of a hold for different seats is strictly ascending |
| `InMemory.HoldsAgree` | internal/usecase/fakes_test.go:103-126 | from related states the in-memory hold succeeds if and only if the PostgreSQL one does or a seat is named twice |
| `InMemory.SeatNamedTwice` | internal/usecase/fakes_test.go:122-126 | a request on which the two differ |
| `InMemory.RowByRowRefinesCheckAll` | internal/usecase/fakes_test.go:83-85 | over any run of holds for different seats, confirmations, cancellations and extensions of unlapsed bookings, sweeps and clock steps, both repositories give the same answers, ids of new and replayed holds included, and agree on every live claim, although they release lapsed holds at different times |
| `FakeBookings.Repository.Hold` | internal/usecase/fakes_test.go:103-154 | the map-mutating hold is the check-all-then-claim hold of the refinement |
| `FakeBookings.Repository.ReleaseLapsed` | internal/usecase/fakes_test.go:156-177 | the loop expires every lapsed booking and deletes exactly its claims |
| `FakeBookings.Repository.ExpireDueHolds` | internal/usecase/fakes_test.go:258-264 | counts the claims of lapsed bookings, and has no limit |
| `Postgres.Database.End` | internal/adapters/postgres/db.go:100-133 | only the outermost transaction commits or rolls back; a nested one leaves that to it |
| `Postgres.Database.ClaimSeats` | internal/adapters/postgres/booking.go:112-138 | the insert loop claims all seats or stops at the first refusal, whose reason it reports |
| `Postgres.Database.HoldOnce` | internal/adapters/postgres/booking.go:67-140 | one transaction: the whole hold, or the tables as they were, the release of lapsed holds included |
| `Postgres.Database.Hold` | internal/adapters/postgres/booking.go:33-61 | with fewer than three aborted attempts the answer is that of the atomic hold; a lost race returns the winner's id; every error leaves the tables alone |
| `Postgres.Database.SelectDue` | internal/adapters/postgres/booking.go:173-180 | picks the earliest unlocked due holds, as many as the limit allows |
| `Postgres.Database.ExpireDueHolds` | internal/adapters/postgres/booking.go:168-197 | one pass over these holds; returns the drop in active claims; the default limit is 500 |
| `Postgres.Database.Confirm` | internal/adapters/postgres/booking.go:310-328 | confirms a held booking and nothing else |
| `Postgres.Database.Cancel` | internal/adapters/postgres/booking.go:332-370 | ends an active booking and frees its seats in one transaction; every error comes before the first write |
| `Postgres.Database.ExtendHold` | internal/adapters/postgres/booking.go:374-388 | moves the expiry of a held booking to the later of the two times |
| `Postgres.Database.ListByUser` | internal/adapters/postgres/booking.go:272-309 | a page holds different bookings of the user, all of them up to the limit |
| `Postgres.Database.Create` | internal/adapters/postgres/payment.go:24-47 | inserts a payment or answers by the index that refused it; a replayed key returns the first payment |
| `Postgres.Database.Update` | internal/adapters/postgres/payment.go:105-125 | the guarded transition: from an open status, or from succeeded to refunded |
| `Postgres.Database.RecordEvent` | internal/adapters/postgres/payment.go:127-145 | stores an event once, linked to its payment, and recognises a duplicate |
| `Postgres.Database.GetByProviderRef` | internal/adapters/postgres/payment.go:56-63 | finds the one payment with a provider's reference; an empty reference finds none |
| `Catalog.CountCheckIsExact` | internal/adapters/postgres/catalog.go:213-216 | comparing two lengths decides whether the ids are different and all in the hall |
| `Catalog.CatalogRepository.SeatsByIDs` | internal/adapters/postgres/catalog.go:179-218 | succeeds if and only if the ids are well formed, different as values and all in the hall, and then returns exactly those seats |
| `Catalog.CatalogRepository.SeatMap` | internal/adapters/postgres/catalog.go:113-177 | one row for every seat of the hall, in order: sold to, held by or available by the columns of claims, bookings and clock, priced a quarter higher for premium seats only, and marked as the caller's exactly when it is |
| `Bookings.FirstDuplicate` | internal/usecase/booking.go:181-190 | the text of the first repeated id |
| `Bookings.BookingService.Check` | internal/usecase/booking.go:83-94 | accepts exactly the bookable requests; refuses an unknown showtime, a cancelled one, and one that starts before the cutoff, each with its error and in this order |
| `Bookings.BookingService.HoldSeats` | internal/usecase/booking.go:57-104 | an admissible request without an earlier booking under its key succeeds if and only if the seat map shows every named seat as available, and then holds exactly those, for the configured time, at their prices, and changes nothing else but the lapsed holds of the showtime; nothing is sold of a cancelled showtime or inside the cutoff, and each refusal has its exact condition; a repeated key returns the first booking; errors change nothing |
| `Bookings.BookingService.Get` | internal/usecase/booking.go:106-125 | only the owner gets the booking, with its stored status unless it is a hold that lapsed, which reads as expired, with its stored expiry and every seat it was given, its price and whether it still holds it |
| `Bookings.BookingService.ListForUser` | internal/usecase/booking.go:127-144 | every booking of the page is answered as Get would |
| `Bookings.BookingService.Release` | internal/usecase/booking.go:146-163 | frees a held booking of the caller; every other case is refused and changes nothing |
| `MoneyInvariant.ActionKeepsSound` | internal/usecase/payment.go:68-413 | every action of every call keeps payments, bookings, verdicts and refund requests in agreement |
| `MoneyInvariant.PlayKeepsSound` | internal/usecase/payment.go:68-413 | so does every run |
| `MoneyLaws.LedgerBalances` | internal/usecase/payment.go:290-307 | at every instant: money kept plus refunds about to free their seats is the worth of confirmed bookings plus late charges not refunded |
| `MoneyLaws.LedgerBalancesAtRest` | internal/usecase/payment.go:346-356 | whenever no call is in progress, money kept is the worth of confirmed bookings plus late charges whose refund was refused |
| `MoneyLaws.AtMostOneCaptureEver` | internal/usecase/payment.go:68-168 | when calls on one booking do not overlap, at most one payment of it is ever captured over a whole run |
| `MoneyLaws.ConfirmedIsPaidOnce` | internal/usecase/payment.go:275-300 | a confirmed booking has exactly one captured payment, for exactly its total, and no open one |
| `MoneyLaws.RefundedAtMostOnce` | internal/usecase/payment.go:396-407 | the gateway accepts at most one refund of a payment, for its amount and on its reference, over any cancellations, late successes and retries |
| `MoneyLaws.SeatsFreedOnlyAfterRefund` | internal/usecase/payment.go:394-412 | a confirmed booking loses its seats only when its captured payment is refunded |
| `Guards.StaysAloneIff` | internal/adapters/postgres/migrations/0001_init.sql:125-128 | a transaction leaves captured payments alone (no other captured or open one of the booking) if and only if it does not insert a payment beside one |
| `Guards.AloneThroughoutIff` | internal/adapters/postgres/migrations/0001_init.sql:125-128 | over every interleaving of transactions, captured payments stay alone at every moment if and only if no insert is made beside one |
| `Guards.NeverChargedTwice` | internal/usecase/payment.go:63-67 | then no booking is ever charged twice |
| `Guards.SuccessChargesTwiceIff` | internal/usecase/payment.go:139-168 | the success of an inserted payment charges the booking twice if and only if a captured payment stood at the insert |
| `Guards.FreesPaidIff` | internal/adapters/postgres/booking.go:344-361 | a transaction ends an active booking and keeps its money if and only if it is a cancellation of it, or a refund event for another payment of it, while a succeeded payment remains |
| `Guards.NeverGivesUpPaidSeatsIff` | internal/usecase/payment.go:394-395 | over every interleaving of the service's transactions, seats are never given up with the money kept if and only if no such transaction runs |
| `Concurrent.PlayIsRun` | internal/usecase/payment.go:68-413 | calls that overlap without restraint are interleavings of the transactions, so what holds of these holds of them |
| `Alone.CheckoutAlone` | internal/usecase/payment.go:73-169 | the moves of an overlapping checkout, when nothing interrupts them, end with the answer and in the tables of the checkout |
| `Alone.WebhookAlone` | internal/usecase/payment.go:211-268 | so do those of a delivery and its refund |
| `Alone.CancelAlone` | internal/usecase/payment.go:360-413 | so do those of a cancellation, refused by owner, status and cutoff |
| `Alone.ReleaseAlone` | internal/usecase/booking.go:149-163 | so do those of a release |
| `Overlaps.OverlapsChargeOnceIff` | internal/usecase/payment.go:76-95 | however calls overlap, captured payments stay alone if and only if no checkout inserts beside one, and then nobody is charged twice |
| `Overlaps.OverlapsFreeRefundedSeatsIff` | internal/usecase/booking.go:149-163 | however calls overlap, paid seats are given up with the money kept exactly at a cancellation, release or refund event that ends a booking while a succeeded payment of it remains |
| `OverlapLedger.LedgerBalancesDespiteOverlaps` | internal/usecase/payment.go:68-413 | however calls overlap and whatever the gateway answers: once all have finished, money kept is the worth of confirmed bookings plus late charges whose refund was refused, if no checkout inserted beside a captured payment and no booking was ended while still paid for |
| `OverlapLedger.PlayKeepsLedgerOk` | internal/usecase/payment.go:68-413 | over every such run: rows are priced at their booking's total, a confirmed booking is paid for or about to release its seats, and money kept for a booking that is gone is about to go back or was refused |
| `Overlaps.OverlappingCheckoutsChargeTwice` | internal/usecase/payment.go:76-95 | two checkouts, move by move, that charge twice |
| `Overlaps.OverlappingReleaseKeepsMoney` | internal/usecase/booking.go:149-163 | a release and a checkout, move by move, that free the seats and keep the money |
| `Overlaps.OverlappingCancelsRefundTwice` | internal/usecase/payment.go:396-407 | two cancellations, move by move, whose refunds of one payment are both granted |
| `RefundWindows.RefundedTwiceOnlyByOverlap` | internal/usecase/payment.go:396-407 | over every interleaving of calls and every answer of the gateway, a payment is refunded at most once unless two calls were between its lookup and the update of its row at one moment |
| `RefundWindows.RefundedOnceWithoutOverlap` | internal/usecase/payment.go:396-407 | so from any valid tables on, calls whose windows on a payment never overlap refund it at most once |
| `RefundWindows.OverlapRefundsTwice` | internal/usecase/payment.go:346-356 | whenever two calls are, it is refunded twice if the gateway grants what they ask |
| `RefundWindows.SecondRefundIff` | internal/usecase/payment.go:396-407 | after a first granted refund, a cancellation is granted a second one if and only if its lookup came before the row recorded the first, whatever happens between its lookup and its request |
| `RefundWindows.SecondOrphanRefundIff` | internal/usecase/payment.go:301-306 | the same for a success that comes too late for its booking |
| `Calls.CheckoutPlays` | internal/usecase/payment.go:97-168 | an undisturbed checkout extends the hold and records one pending charge for the booking's total |
| `Calls.WebhookPlays` | internal/usecase/payment.go:218-264 | a delivery and its refund amount to one transaction and one request to the gateway |
| `Calls.CancelPlays` | internal/usecase/payment.go:379-412 | a cancellation cancels the open charge, refunds the captured one, and releases the seats unless the refund was refused |
| `Payments.PaymentService.Record` | internal/usecase/payment.go:132-162 | inserts the charge; when another is open already, drops the intent at the gateway and returns the other, or reports a payment in progress when that one settled before it could be read |
| `Payments.PaymentService.StartCheckout` | internal/usecase/payment.go:68-169 | refused by owner, status and clock, each with its error; hands back exactly the open payment when there is one; otherwise the hold lasts the payment window from now or longer, and one pending charge for the total is recorded, as in the protocol, leaving the ledger balanced; a gateway error, a booking closed meanwhile and every refusal charge and cancel nothing; beaten to the insert it adds no charge and drops its intent |
| `Payments.PaymentService.ApplySuccess` | internal/usecase/payment.go:275-308 | captures the payment and confirms a held booking, or asks for the refund of exactly the payment's amount |
| `Payments.PaymentService.ApplyRefund` | internal/usecase/payment.go:311-331 | marks the payment refunded and frees an active booking, tolerating both having happened |
| `Payments.PaymentService.Transact` | internal/usecase/payment.go:218-258 | the webhook transaction fails exactly when it is aborted or reports a success for a payment that ended without one; then the store is as it was, and otherwise the event is on record |
| `Payments.PaymentService.HandleWebhook` | internal/usecase/payment.go:206-268 | a delivery is acknowledged only when its event is on record and the transaction and its refund took place; which error it returns otherwise, and that nothing changed; leaves the ledger balanced |
| `Payments.SuccessDelivered` | internal/usecase/payment.go:275-308 | the first delivery of a success for an open charge: a held booking becomes confirmed, a confirmed one stays, and for any other exactly the amount is asked back and the row marked refunded if that is granted |
| `Payments.PaymentService.CancelBooking` | internal/usecase/payment.go:360-413 | refused by owner, status and refund cutoff, changing nothing; otherwise the gateway is asked to cancel the open charge if there is one and to refund a captured one if there is one, and nothing else, and the seats are freed unless the refund is refused; it is the cancellation of the protocol and leaves the ledger balanced |
| `Migrations.WellNamed` | internal/adapters/postgres/migrate.go:122-145 | a file named "<version>_<name>.sql" is read as that version, name and body |
| `Migrations.MigrationIff` | internal/adapters/postgres/migrate.go:134-145 | a file is a migration if and only if it is named with a 64-bit integer, an underscore, a name and .sql, and then with that version, name and body; any other file that ends in .sql is refused |
| `Migrations.SkippedIff` | internal/adapters/postgres/migrate.go:134-136 | directories and exactly the files that do not end in .sql are skipped |
| `Migrations.DecimalReads` | internal/adapters/postgres/migrate.go:143 | the decimal text of a number, with any leading zeros, reads as that number |
| `Migrations.LoadMigrations` | internal/adapters/postgres/migrate.go:124-162 | succeeds if and only if all names are good and no version repeats, and returns every migration in strictly ascending order |
| `Migrations.Database.Migrate` | internal/adapters/postgres/migrate.go:84-110 | applies and records the pending migrations up to the first failure, and reports exactly these |
| `Migrations.RunsCommitAPrefix` | internal/adapters/postgres/migrate.go:30-32 | over any interrupted runs the committed bodies are a prefix of what was pending, ascending, each once |
| `Migrations.RunsConverge` | internal/adapters/postgres/migrate.go:30-32 | the first run nothing fails in completes the schema, and later runs apply nothing |
| `Limiter.IpLimiter.Allow` | internal/adapters/http/middleware.go:310-333 | the limiter with its deletion loop answers by the law of the token bucket |
| `Limiter.StepsAgree` | internal/adapters/http/middleware.go:315-331 | a request is answered as if nothing had been evicted, when idle buckets refill within the TTL |
| `Limiter.EvictionIsInvisible` | internal/adapters/http/middleware.go:280-281 | eviction changes no decision on any ordered sequence of requests if and only if the burst is at most rps times 600 seconds |

## Left out

- HTTP handlers, routing, logging, metrics, configuration, CORS, shutdown and the static UI: plumbing.
- PostgreSQL's MVCC and lock manager: a committed transaction is atomic and a unique index refuses the second row; only the claim inserts are modelled with waiting. Deadlocks among the releases of lapsed holds themselves are left to the retry loop.
- The mock gateway's signatures and JSON: a webhook arrives as an authentic event or as an error.
- The showtime that is loaded along with a booking, and the order of its seats by row and number.
- The in-memory payments, the transaction stub and the provider stub of the use-case tests: the stub transaction does not roll back, so nothing about errors carries over.
- Currency, references, row labels, failure reasons, metadata and the columns created_at, updated_at, confirmed_at and cancelled_at.
- The width of int64: prices and totals are unbounded naturals.
- The syntax of UUIDs: repository methods take ids, and only `SeatsByIDs` sees malformed texts and several spellings of one id.
- PaymentUpdate.ProviderRef: no caller sets it, so `Update` changes the status only.
- Movies, showtime listings, `GetPayment`, `ListByBooking` and the demo seed: reads with one branch.
- Database errors outside a hold and the webhook transaction.
- An ambiguous commit: a transaction whose commit reports an error is taken as rolled back.
- Liveness of refunds: a refused automatic refund is only logged, and the ledger law counts it.
- Invariant.StepKeepsValid: does not include the unique booking reference; references are random and only make an attempt of a hold retryable.
- Postgres.Database.Update: does not set provider_ref, which no caller passes, nor failure_reason, which nothing reads back into a decision.
- Postgres.Database.Hold: does not state what other transactions do between its attempts, nor which error a request naming a seat twice gets; `HoldRaces` has the attempts interleaved.
- Bookings.BookingService.HoldSeats: does not state what other transactions do between its lookup, its checks and the hold; `HoldRaces` has these interleaved.
- Payments.PaymentService.StartCheckout: does not state the outcome under any other interference than the three kinds it names; `Concurrent` has all of them.
- MoneyLaws.AtMostOneCaptureEver: needs that calls on one booking do not overlap, because without it the statement is false; `Guards` and `Overlaps` give the exact condition.
- Postgres.Database.ListByUser: does not state the order, newest first, because created_at is not modelled.
- Bookings.BookingService.ListForUser: does not state the order either.
- Postgres.Database.GetSucceededByBooking: does not state which of several succeeded payments is returned, because created_at is not modelled.
- Bookings.FirstDuplicate: an empty text that repeats reads as no duplicate, as in the code; such a request is refused later.
- Limiter.EvictionIsInvisible: takes the token-bucket law of golang.org/x/time/rate as given, over real numbers.
