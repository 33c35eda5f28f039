# Verified model of the property management services

A Dafny 4.11 model of the parts of the system where money and rooms can go wrong, with proofs. `dafny verify dfyconfig.toml` checks all of it.

The model has three parts, one module per component.

**Inventory and bookings.** `Inventory` holds the tables of one tenant: availability ledger, bookings with their nightly lines, room types, rooms, rates. A `Session` is the working copy that service methods update in place; an error that leaves a service rolls it back. `BookingRules`, `RoomService`, `LedgerSeed`, `RatesBulk`, `NightAudit` and `ChannexRules` say what each transaction does to a snapshot of the tables; `BookingService`, `AvailabilityLock`, `ChannexIngest` and the methods beside the rules do it step by step and are proved to do just that. `Operations` states the invariants over every run and what revisions leave in the ledger, `Capacity` and `Occupancy` follow room totals and the two occupancy figures, `Overcommitment` says what stops a release, `Reversals` what one call undoes of another. `BookingOutcomes`, `RevisionOutcomes` and `TableOutcomes` tell row by row what each transaction accepts and leaves. `StayConcurrency` interleaves new bookings, cancellations and date changes as lock, check, commit and crash steps, `LoneStay` says when one of them commits on its own, and `Deadlock` when two can wait for each other for ever.

**Taxes and folios.** `CompoundOrder` is the ordering of compound rules, `EmissionOrder` the same order told pair by pair, `TaxRules` the rule engine, `TaxLines` tells each line of its bill, `TaxTotals` and `TaxPosting` what its totals are worth, `PropertyTax` the single-rate tax, `Folio`, `FolioHistory` and `FolioOutcomes` the folio of one booking. Money is whole cents; rates are reals.

**Protocols.** `ChannexInbox` (revisions claimed, ingested, acknowledged), `WebhookQueue`, `WebhookProtocol` and `QueueOutcomes` (deliveries with retries and crashes), `ChannelPush`, `ChannelMirror`, `MirrorFreshness` and `ChannelOutcomes` (availability pushed to the channel), `StripeRefunds` and `StripeOutcomes`.

## Findings

Properties that do not hold of the code as one might expect, each with the condition under which they do:

- An over-committed night cannot be released: on an exact ledger a cancellation, deletion, date change or no-show sweep that is otherwise acceptable fails if and only if it would give back such a night (`Overcommitment`). Refreshing room totals creates such nights exactly when the live rooms no longer cover the commitments (`RoomService.RecalculateOvercommits`); `Overcommitment.DeletedRoomBlocksRelease` is a valid state and an accepted deletion of a room after which a booking can be neither cancelled, deleted nor swept.
- A failed OTA modification loses a room on every old night (`ChannexRules.FailedModificationDrift`). `ChannexRules.RevisionMovesDrift` gives the exact condition for a revision to be harmless, on any ledger; `Operations.RunMovesDrift` follows the drift through every run, and `Operations.RunIsExactExactlyWhen` says when it has cancelled out. Bookings and room-nights stay sound throughout (`Operations.RunKeepsSound`).
- Two date changes can deadlock, because each takes two lock sets (`Deadlock.DateChangesCanDeadlock`): they can if and only if the first night each touches of the other is not the same (`Deadlock.DateChangesDeadlockExactlyWhen`). Claims for new bookings cannot, nor can any mix in which no check-in moves earlier (`Deadlock.NoDeadlock`, `Deadlock.LaterStaysClimb`).
- Two concurrent patches of one booking can give its nights back twice (`StayConcurrency.DoubleReleaseDrifts`); a commit keeps the ledger exact if and only if the nights it read are still those of the booking (`StayConcurrency.CommitKeepsAgreementExactlyWhen`).
- Overlapping channel pushes can leave a stale date (`ChannelMirror.OverlapLeavesStale`): a bucket unchanged since its newest delivered reading is stale if and only if the reading delivered last saw another image (`MirrorFreshness.OvertakenExactlyWhen`), so never when readings arrive in the order in which they were made (`MirrorFreshness.InOrderConverges`).
- A patch that moves the dates of a confirmed booking in no room and marks it no-show is refused, because the moved lines are read after they were expired (`Overcommitment.MovedNoShowFailsExactlyWhen`).
- Compound rules whose chain ends at a non-compound rule never enter the queue and are charged in input order, although the engine's documentation promises the order of the chain; `CompoundOrder.ChainIsFollowedExactlyWhen` says exactly when it is followed, and `CompoundOrder.ChainNeedNotBeFollowed` shows a pack where it is not.
- The reversal of a pack tax line outlives the repricing that replaces the line (`FolioHistory.ReversalOutlivesRepricing`, with amounts in `FolioHistory.ReversedTaxStaysOff`).
- The rule engine and the property tax differ by a cent on exact ties (`PropertyTax.PackMatchesProperty`).
- A charge of half a cent or less is stored as nothing (`StripeRefunds.TinyChargeNetsToZero`).

## Model

| member | source | states |
|---|---|---|
| `Operations.RunKeepsSound` | app/services/booking_service.py:294-1095 | Safety over every run of create, patch, delete, OTA revisions of any kind, no-show sweep, block, seed, extend, new and deleted categories, rate writes, room edits and day changes: no room-night has two occupying bookings, every booking is one contiguous stay whose total is the sum of its nights, external ids are unique. |
| `Operations.RunMovesDrift` | app/services/channex_booking_service.py:377-737 | In every run each ledger row is off, from the lines of occupying bookings it should count, by what it was off at the start plus what each revision since then left; nothing else moves it. |
| `Operations.RunIsExactExactlyWhen` | app/services/channex_booking_service.py:377-737 | From a valid state the ledger is exact at a state of a run if and only if what the revisions before it left cancels out in every bucket. |
| `Operations.RunKeepsValid` | app/services/booking_service.py:294-1095 | So as long as no revision is one of the drifting kinds, each ledger row counts exactly the lines of occupying bookings. |
| `Operations.StepMovesDrift` | app/services/booking_service.py:294-1095 | From any sound state, drifted or not, one committed or rolled-back transaction leaves a sound state and moves drift by just what a revision left. |
| `Operations.StepKeepsValid` | app/services/booking_service.py:769-1095 | The same for one committed or rolled-back transaction. |
| `Capacity.RunKeepsCapacity` | app/services/availability_lock.py:52-150 | Unless an edit of rooms or a seed leaves a bucket fewer live rooms than it is committed to, no night of any run is over-committed. |
| `Capacity.RewriteKeepsCapacityExactlyWhen` | app/services/room_service.py:34-304 | Such an edit or seed over-commits no night if and only if, on the state before it, every bucket whose total it refreshes has as many rooms left as are booked and blocked. |
| `Capacity.RunKeepsCache` | app/services/room_service.py:34-60 | In every run, whatever revisions arrive, the cached total of every bucket from today on equals the live rooms of its category. |
| `Occupancy.RunKeepsDashboard` | app/services/dashboard_service.py:111-129 | In every state of every run the dashboard's occupied count is the occupancy report's plus the drift of the property's buckets, hence the same number as long as no revision drifts; revisions are to name categories of their own property. |
| `Occupancy.StepKeepsOwnProperty` | app/services/booking_service.py:833-949 | No transaction moves an occupying booking to a category of another property. |
| `Operations.SweepStep` | app/tasks/night_audit.py:212-262 | From any ledger, drifted or not, and in any order of the overdue bookings, the sweep marks all of them or none: each row then falls by exactly the swept bookings that hold it. |
| `Overcommitment.CancelFailsExactlyWhenOvercommitted` | app/services/availability_lock.py:52-72 | Cancelling a pending or confirmed booking fails if and only if a night of it is already over-committed: the zero-room check refuses even a release. |
| `Overcommitment.DeleteFailsExactlyWhenOvercommitted` | app/services/booking_service.py:1014-1095 | So does deleting it. |
| `Overcommitment.MoveFailsExactlyWhenOvercommitted` | app/services/booking_service.py:869-949 | Moving it, back into a room or into none, fails if and only if an old night is over-committed or the new dates lack a plan, rates, rooms to spare or the free room. |
| `Overcommitment.DateChangeFailsExactlyWhen` | app/services/booking_service.py:833-949 | The same for the dates of a patch, with the defaults taken from the lines and the own room kept unless the patch names one. |
| `Overcommitment.MovedNoShowFailsExactlyWhen` | app/services/booking_service.py:926-996 | A patch that both moves a confirmed booking and marks it no-show is refused when the dates change and no room is put back: the release reads lines that were expired. |
| `Overcommitment.SweepFailsExactlyWhenOvercommitted` | app/tasks/night_audit.py:212-262 | The whole sweep fails if and only if some overdue booking holds an over-committed night. |
| `Overcommitment.DeletedRoomBlocksRelease` | app/services/room_service.py:274-304 | A valid state in which deleting a room that no line uses yet leaves a booking that can be neither cancelled, deleted nor swept. |
| `Overcommitment.DriftStopsTheSweep` | app/services/availability_lock.py:158-164 | From a valid state a failed OTA modification leads to one in which the sweep fails with no night over-committed, because a counter would go negative. |
| `Capacity.RebookMovesCounters` | app/services/booking_service.py:869-949 | A date change that commits touches counters and the booking only, and never over-commits a bucket. |
| `Inventory.Session.Rollback` | app/api/deps.py:163-176 | After an error the session shows the committed tables again. |
| `Inventory.Session.constructor` | app/api/deps.py:163-176 | A session starts from the committed tables. |
| `Inventory.PutMovesDrift` | app/services/booking_service.py:294-425 | Storing a booking and shifting counters, on any ledger, moves drift bucket by bucket by the counter moves less the moves of what the booking holds. |
| `Inventory.AgreementAfterPut` | app/services/booking_service.py:294-425 | So it keeps ledger agreement if and only if each counter moves by exactly what the booking holds now less what it held before. |
| `Inventory.AgreementAfterDelete` | app/services/booking_service.py:1014-1095 | Deleting an occupying booking and releasing its nights keeps agreement. |
| `Inventory.AgreementAfterRewrite` | app/services/availability_ledger_seed.py:131-183 | Adding empty rows or rewriting totals and blocks keeps agreement. |
| `Inventory.HeldIsBooked` | app/services/availability_lock.py:158-164 | In agreement, every bucket a booking holds has a row with at least one booked room. |
| `Inventory.ShiftIsReleaseThenBook` | app/services/availability_lock.py:153-164 | Releasing and then booking, on one identity map, is one shift of the counters. |
| `AvailabilityLock.LockAndValidate` | app/services/availability_lock.py:35-72 | Not seeded if a bucket has no row, insufficient if one has fewer rooms than asked, locked otherwise; nothing changes. |
| `AvailabilityLock.WhyRefused` | app/services/availability_lock.py:66-72 | A night without a row is reported before one without rooms. |
| `AvailabilityLock.IncrementBookedRooms` | app/services/availability_lock.py:153-155 | Every row in the set gains one. |
| `AvailabilityLock.DecrementBookedRooms` | app/services/availability_lock.py:158-164 | Every row loses one, or the loop stops at a row that has none, with the rows visited before it already lowered. |
| `AvailabilityLock.ClaimForNewBooking` | app/services/availability_lock.py:75-150 | The conditional update has the outcome of checking for one room, and on success adds one to every night. |
| `StayConcurrency.NeverOverbooked` | app/services/availability_lock.py:35-164 | In no interleaving of the row locks, checks, counts, commits and crashes of new bookings, cancellations and date changes does a night go past its rooms; its counter is the start plus the commits that took it less those that gave it back. |
| `StayConcurrency.ExactlyMinSucceed` | app/services/availability_lock.py:114-150 | N single-night claims on k free rooms, c of which crash: exactly min(N - c, k) commit. |
| `StayConcurrency.EveryStepCounts` | app/services/availability_lock.py:75-150 | Every step lowers a finite budget, so every schedule ends. |
| `StayConcurrency.CommitKeepsAgreementExactlyWhen` | app/services/booking_service.py:802-918 | A commit keeps the ledger in agreement with the bookings if and only if the nights it read at its start are still the nights of the booking. |
| `StayConcurrency.DifferentBookingsAgree` | app/services/booking_service.py:802-918 | So the ledger agrees with the bookings in every state of every interleaving of transactions on different bookings. |
| `StayConcurrency.DoubleReleaseDrifts` | app/services/booking_service.py:802-831 | Two interleaved cancellations of one booking both give its night back, because no row of the booking is locked. |
| `LoneStay.CommitsExactlyWhenFitting` | app/services/availability_lock.py:35-164 | A transaction on its own commits only if its old nights can be given back and its new ones then fit, and is refused only if not; rows and booking move when it commits and at no other time. |
| `Deadlock.NoDeadlock` | app/services/availability_lock.py:84-113 | Any number of transactions whose lock sequences climb: some unfinished one can always move. |
| `Deadlock.LaterStaysClimb` | app/services/booking_service.py:869-895 | New bookings, cancellations and date changes that do not move check-in earlier climb. |
| `Deadlock.DeadlockExactlyWhen` | app/services/availability_lock.py:35-72 | Two transactions can reach a state in which both wait for ever if and only if the first shared night that one locks is not the first shared night that the other locks. |
| `Deadlock.DateChangesDeadlockExactlyWhen` | app/services/booking_service.py:869-895 | On the dates of two date changes of one category: they can deadlock if and only if the first night each touches of the other is not the same. |
| `Deadlock.DateChangesCanDeadlock` | app/services/booking_service.py:869-895 | Two stays that swap nights do. |
| `BookingStatus.HistoryMovesForward` | app/domain/booking_status.py:31-62 | Along any history of accepted status changes the stage never decreases. |
| `BookingStatus.NeverRevived` | app/domain/booking_status.py:31-62 | A booking that stopped occupying nights never occupies them again. |
| `BookingStatus.AllowedExactly` | app/domain/booking_status.py:31-62 | A status may follow another if and only if it is the same, or the next stage of a stay, or a cancellation of a pending or confirmed booking, or a no-show of a confirmed one. |
| `StayDates.IterStayNights` | app/services/stay_dates.py:8-21 | Exactly the nights from check-in to the night before check-out, for stays of 1 to 365 nights; an error otherwise. |
| `StayDates.StayBounds` | app/services/booking_service.py:552-554 | The earliest night and the day after the latest. |
| `StayDates.BoundsInvertNights` | app/services/booking_service.py:552-554 | The bounds recomputed from the nights of a stay are its check-in and check-out. |
| `BookingService.SumRatesForStay` | app/services/pricing_service.py:22-53 | The nightly rates in order and their sum, or an error when a night has none. |
| `BookingService.PickFirstFreeRoom` | app/services/booking_service.py:598-638 | The first room by name that no other occupying booking uses on the nights, or none when there is none. |
| `BookingService.AssignBookingRoom` | app/services/booking_service.py:686-766 | Every line gets the room, or the whole request fails and nothing changes. |
| `BookingService.CreateBooking` | app/services/booking_service.py:294-425 | Succeeds exactly when property, category, plan, rates, rooms and guest allow it; afterwards the booking, its priced lines, the shifted counters and the first free room are in place; otherwise nothing changes. |
| `BookingService.ReleaseBookingInventory` | app/services/booking_service.py:641-661 | The nights of a one-category booking are given back; lines across categories are left alone. |
| `BookingService.ReadUnifiedRoom` | app/services/booking_service.py:557-562 | The one room all lines share, if there is exactly one in use. |
| `BookingService.ReleaseNights` | app/services/booking_service.py:865-873 | Succeeds exactly when every old night can give one room back, and then lowers each by one. |
| `BookingService.BookNights` | app/services/booking_service.py:890-898 | Succeeds exactly when every new night, as already lowered in memory, has a room, and then raises each by one. |
| `BookingService.MoveStay` | app/services/booking_service.py:869-949 | The nights move, the lines and total are rebuilt from rates, and the prior room is restored or the change fails. |
| `BookingService.ChangeDates` | app/services/booking_service.py:835-949 | The dates stage of a patch computes the specified result or fails. |
| `BookingService.ChangeStatus` | app/services/booking_service.py:957-1005 | The status stage: allowed transitions only, no-show gives the nights back. |
| `BookingService.PatchBooking` | app/services/booking_service.py:769-1011 | Cancellation, then dates, room and status in order, a no-show reading expired lines refused; any error leaves every table as it was. |
| `BookingService.DeleteBooking` | app/services/booking_service.py:1014-1095 | Refused once checked in or out; otherwise booking, lines and nights are gone, or nothing changes. |
| `BookingSafety.CreateKeepsSound` | app/services/booking_service.py:294-425 | On any ledger, creation keeps exclusivity, amounts and unique external ids, and lets no bucket drift further. |
| `BookingSafety.AssignKeepsSound` | app/services/booking_service.py:565-638 | Assigning a room that is free for the nights keeps room-nights exclusive. |
| `BookingSafety.MoveKeepsSound` | app/services/booking_service.py:869-918 | Moving an occupying stay keeps all of it. |
| `BookingSafety.PatchKeepsSound` | app/services/booking_service.py:769-1011 | So does a patch that commits, through all its stages. |
| `BookingSafety.ChangeStatusKeepsSound` | app/services/booking_service.py:957-1005 | A status change releases nights exactly when the booking stops occupying them. |
| `BookingSafety.DeleteKeepsSound` | app/services/booking_service.py:1014-1095 | So does a deletion. |
| `Reversals.DateChangeMovesExactly` | app/services/booking_service.py:835-949 | Booked rooms fall by one on nights only in the old stay, rise by one on nights only in the new one and stay the same on shared nights; every new night is within capacity; the lines are exactly the new contiguous stay in its old room or in none; other bookings are untouched. |
| `Reversals.MoveCanBeUndone` | app/services/booking_service.py:869-918 | A date change that went through can be taken back as long as the old nights have rates, and then every ledger row is as it was. |
| `Reversals.CancelUndoesCreate` | app/services/booking_service.py:641-661 | Cancelling a fresh booking succeeds and restores the ledger exactly. |
| `Reversals.DeleteUndoesCreate` | app/services/booking_service.py:1014-1095 | Deleting a fresh booking restores every table. |
| `BookingOutcomes.CreateOutcome` | app/services/booking_service.py:294-425 | A create request stores a booking if and only if the stay has 1 to 365 nights, category and plan are of the property, and every night has a rate and a room left; each night then costs the rate of its own category, plan and night, the total is their sum, the room is the first vacant one by name, and nothing else moves but a counter a night. |
| `BookingOutcomes.RatesOutcome` | app/services/rates_admin_service.py:158-204 | A rate write sets each night it covers to the rate of the last segment covering it and no other night, or is refused as a whole for a plan and a category of different properties. |
| `BookingOutcomes.StayPaysWrittenRates` | app/services/pricing_service.py:22-53 | A stay booked after a rate write pays, on each covered night, the rate of the last segment that covers that night. |
| `BookingOutcomes.StatusOutcome` | app/services/booking_service.py:957-1005 | A patch of the status alone is accepted if and only if the table allows it, check-in has its form and the nights can be given back when it ends the stay; it changes the status and gives the nights back exactly then. |
| `BookingOutcomes.GuestsComeAndGo` | app/domain/booking_status.py:50-62 | A confirmed booking with its form filled in can be checked in and a checked-in one checked out, and only its status changes. |
| `BookingOutcomes.StatusComesLast` | app/services/booking_service.py:957-1005 | A status in a patch with other fields acts as a second patch after them, for a booking that occupies its nights; only a no-show right after the lines were replaced and not loaded again is refused. |
| `BookingOutcomes.CancellationIgnoresTheRest` | app/services/booking_service.py:802-831 | A patch that cancels is the cancellation alone, whatever else it names. |
| `BookingOutcomes.MixedStayKeepsCounters` | app/services/booking_service.py:641-661 | A cancelled stay with nights in two categories gives none of them back. |
| `BookingOutcomes.UnknownBooking` | app/services/booking_service.py:769-802 | A patch that asks for nothing is accepted even for an unknown booking; any other is refused. |
| `BookingOutcomes.DeleteOutcome` | app/services/booking_service.py:1014-1095 | A deletion is accepted if and only if the guest has not arrived and the nights held can be given back; booking and nights are then gone and nothing else moves. |
| `BookingOutcomes.RoomOutcome` | app/services/booking_service.py:686-766 | A room may be given to a stay if and only if it is not deleted, is of the category and property of the stay, and no other occupying booking has it on a night; the lines then name it, and nothing else changes. |
| `BookingOutcomes.DatesOutcome` | app/services/booking_service.py:833-949 | New dates are accepted if and only if they are the old ones, or 1 to 365 nights with rates and with rooms left once the old nights are given back, the own room free if there is one; the booking then pays the rate of each new night and only the counters of the old and the new nights move. |
| `BookingOutcomes.DatesAndRoomOutcome` | app/services/booking_service.py:833-955 | With a room named as well the booking goes into that room or into none, whatever room it had. |
| `AssignableRooms.ListForStay` | app/services/room_assignable_service.py:17-78 | The available rooms of a live category of the property that no occupying booking uses on the nights, each once, in the order of their names. |
| `AssignableRooms.ListedExactlyWhenAssignable` | app/services/room_assignable_service.py:17-78 | A listed room is exactly an available room that can be assigned, except the one the booking is already in, which is assignable and not listed. |
| `AvailabilityOverride.ApplyBlockedRooms` | app/services/availability_override_service.py:32-69 | All nights of the range are blocked, or none when one lacks a row or rooms. |
| `RoomService.RecalculateLedgerTotalRooms` | app/services/room_service.py:34-60 | Rows of the category from today on get the live room count as total. |
| `RoomService.CreateOneRoom` | app/services/room_service.py:111-145 | A room of a live category with a known status is added and the totals refreshed, or nothing changes. |
| `RoomService.CreateRoomsBulk` | app/services/room_service.py:148-222 | A repeated name or an unknown status refuses the batch; the names not in use are created once each with their status; names in use are skipped or fail the batch. |
| `RoomService.PatchOneRoom` | app/services/room_service.py:225-271 | Category, name and status are set, or all are as they were; a retyped room refreshes both categories. |
| `RoomService.SoftDeleteOneRoom` | app/services/room_service.py:274-304 | Refused while a live booking needs the room from today on. |
| `RoomService.BulkCreateKeepsCache` | app/services/room_service.py:148-222 | Bulk creation keeps cached totals equal to live rooms. |
| `RoomService.PatchRoomKeepsCache` | app/services/room_service.py:225-271 | So does retyping. |
| `RoomService.SoftDeleteKeepsCache` | app/services/room_service.py:274-304 | So does a soft delete. |
| `RoomService.RecalculateOvercommits` | app/services/room_service.py:34-60 | Refreshing totals leaves a night over-committed if and only if fewer rooms are live than are booked and blocked. |
| `TableOutcomes.AddRoomOutcome` | app/services/room_service.py:111-145 | A room is stored if and only if its category is live and its status is known; the totals of the category from today on become its count of rooms not deleted, and nothing else changes. |
| `TableOutcomes.AddRoomsOutcome` | app/services/room_service.py:148-222 | A batch is stored if and only if its names differ, its statuses are known and its names are new or may be skipped: one room for each name not taken and no other, and the totals follow. |
| `TableOutcomes.EditRoomOutcome` | app/services/room_service.py:225-271 | A change of a room writes just the fields it names; the totals of both categories follow a room that changes category. |
| `TableOutcomes.RemoveRoomOutcome` | app/services/room_service.py:274-304 | A room is marked deleted if and only if no pending, confirmed or checked-in booking has a line in it from today on. |
| `TableOutcomes.BlockOutcome` | app/services/availability_override_service.py:32-69 | A block is written on every night of the inclusive range and on no other, if and only if each has a row with that many rooms beside its bookings. |
| `Upsert.BatchEqualsEach` | app/services/rates_admin_service.py:185-199 | Deduplicating by key and upserting once gives the table of upserting every row in order. |
| `Upsert.LastWinsKeys` | app/services/rates_admin_service.py:163-185 | The dictionary has one entry per distinct key, holding the last row of the key. |
| `LedgerSeed.BulkSeed` | app/services/availability_ledger_seed.py:131-183 | The table of seeding every row of every segment in order, and the number of distinct keys; an unknown category changes nothing. |
| `LedgerSeed.SeedKeepsCounters` | app/services/availability_ledger_seed.py:131-183 | Booked and blocked rooms survive a seed, and totals become live counts. |
| `LedgerSeed.SeedRefreshesRow` | app/services/availability_ledger_seed.py:131-183 | A seed refreshes the totals of exactly the rows its segments cover, and adds exactly the rows missing there. |
| `LedgerSeed.CreateRoomType` | app/services/availability_ledger_seed.py:31-60 | A new category gets an empty row for each day of the coming year. |
| `LedgerSeed.SoftDeleteRoomType` | app/services/room_type_service.py:131-141 | A live category is marked deleted and nothing else changes; a deleted or unknown one is refused. |
| `LedgerSeed.ExtendLedgerDays` | app/services/availability_ledger_seed.py:63-128 | Every category grows by empty rows behind its last night; existing rows are kept. |
| `LedgerSeed.ExtensionKeepsCounters` | app/services/availability_ledger_seed.py:63-128 | Extending changes no counter, block or total of an existing row. |
| `TableOutcomes.SeedOutcome` | app/services/availability_ledger_seed.py:131-183 | A seed whose categories exist sets the totals of the covered rows to the rooms not deleted and adds the missing rows empty; otherwise nothing changes. |
| `TableOutcomes.ExtendOutcome` | app/services/availability_ledger_seed.py:63-128 | The nights added to a category are just the given number after its last one, empty and with the count of its rooms. |
| `TableOutcomes.AddRoomTypeOutcome` | app/services/availability_ledger_seed.py:31-60 | A new category has an empty row on each of 365 days from today on, and no other row is added or changed. |
| `TableOutcomes.RemoveRoomTypeOutcome` | app/services/room_type_service.py:131-141 | Deleting a category marks it and touches nothing else; a deleted or unknown one stays as it is. |
| `Spans.OrderListsKeys` | app/services/rates_admin_service.py:163-185 | The dictionary of a request lists each key once, in the order in which it first came. |
| `RatesBulk.BulkUpsert` | app/services/rates_admin_service.py:158-204 | The rates of applying every segment one at a time; the updates returned name every night some segment covers once, with the price the table now holds; one bad segment changes nothing. |
| `RatesBulk.LastSegmentDecides` | app/services/rates_admin_service.py:163-199 | After a batch a night holds the rate of the last segment that covers it, and its old rate if none does. |
| `ChannexRules.RevisionMovesDrift` | app/services/channex_booking_service.py:377-737 | On any ledger, exact or already drifted, a revision keeps the bookings sound and sets each bucket off by every counter it moved, unless it stored a booking in place of an occupying one or of none, which leaves nothing; it leaves nothing at all if and only if it is not of a drifting kind, a condition on the stored booking and the ledger before it. |
| `ChannexRules.RevisionKeepsAgreementExactlyWhen` | app/services/channex_booking_service.py:377-737 | So from a valid state it leaves the ledger exact under just that condition. |
| `ChannexRules.FailedModificationDrift` | app/services/channex_booking_service.py:425-475 | A modification that gave the old nights back and whose new nights do not fit loses exactly one room on every old night, because the error handler flushes. |
| `ChannexRules.DriftIsReachable` | app/services/channex_booking_service.py:663-737 | A concrete valid state and revision in which this happens. |
| `ChannexRules.NewBookingDrift` | app/services/channex_booking_service.py:535-661 | What a new OTA booking leaves, in success and in each failure. |
| `ChannexRules.CancellationDrift` | app/services/channex_booking_service.py:377-424 | What an OTA cancellation leaves, including of a booking that no longer occupies its nights. |
| `ChannexRules.ModificationDrift` | app/services/channex_booking_service.py:425-534 | What an OTA modification leaves. |
| `ChannexIngest.Inbox.ClaimRevisionRow` | app/services/channex_booking_service.py:176-223 | A revision is claimed unless it is already done or in progress. |
| `ChannexIngest.Inbox.Ingest` | app/services/channex_booking_service.py:226-737 | The ingest does one of the specified things to the tables and leaves the revision done or in error. |
| `ChannexIngest.Inbox.Modify` | app/services/channex_booking_service.py:425-534 | The modification branch, first decrement included when the second lock fails. |
| `ChannexIngest.Inbox.Create` | app/services/channex_booking_service.py:535-661 | The new-booking branch. |
| `ChannexIngest.Inbox.Cancel` | app/services/channex_booking_service.py:377-424 | The cancellation branch. |
| `ChannexIngest.Inbox.IngestAndAcknowledge` | app/tasks/channex_webhook_task.py:107-176 | Ingest, commit or roll back, then acknowledge unless the ingest failed. |
| `ChannexIngest.Inbox.ProcessWebhook` | app/tasks/channex_webhook_task.py:40-198 | A delivery whose revision could not be fetched does nothing. |
| `ChannexIngest.Inbox.RetryRevision` | app/tasks/channex_booking_retry.py:27-143 | Only a revision in error is replayed. |
| `ChannexInbox.RunIsGood` | app/services/channex_booking_service.py:176-223 | Over any sequence of deliveries, redeliveries, retries and crashes: each revision takes effect at most once, none is left in progress, external ids stay unique, only done revisions are acknowledged, and nothing done is undone. |
| `ChannexInbox.StepIsGood` | app/tasks/channex_booking_retry.py:54-121 | The same for one event. |
| `ChannexInbox.RedeliveryIsIdle` | app/services/channex_booking_service.py:176-223 | A second delivery of a done revision changes nothing. |
| `ChannexInbox.IngestKeepsDriftExactlyWhen` | app/services/channex_booking_service.py:377-661 | On any ledger an ingest keeps bookings sound, and lets no bucket drift if and only if it is skipped or its request does not drift. |
| `ChannexInbox.IngestKeepsLedgerExactlyWhen` | app/services/channex_booking_service.py:377-661 | So an exact ledger stays exact under the same condition. |
| `RevisionOutcomes.IngestIsSkippedExactlyWhen` | app/services/channex_booking_service.py:176-281 | A revision is skipped if and only if it is done or in progress; only a usable one that is not skipped reaches the tables, and its row says how it ended. |
| `RevisionOutcomes.UnusableOutcome` | app/services/channex_booking_service.py:226-372 | A payload without an id leaves nothing, one with an unmapped room or without a stay leaves its row in error, and a stay of more than 365 nights raises. |
| `RevisionOutcomes.NewBookingOutcome` | app/services/channex_booking_service.py:535-661 | A new revision whose reference is unknown stores a confirmed booking on the mapped category and plan, the dates and the first vacant room of the payload, its amount shared out over the nights, if every night has a room left and the guest can be made; the reference is the booking id sent, or else the revision id. |
| `RevisionOutcomes.AlreadyStored` | app/services/channex_booking_service.py:544-567 | A new revision whose reference is taken changes no booking and no counter, and counts as done. |
| `RevisionOutcomes.CancellationOutcome` | app/services/channex_booking_service.py:377-424 | A cancellation cancels the booking that has the reference, whatever its own revision id, and gives its nights back unless it was cancelled before; it fails if and only if they cannot be given back. |
| `RevisionOutcomes.ModificationOutcome` | app/services/channex_booking_service.py:425-534 | A modification rewrites the booking that has the reference onto the mapped category, plan and dates of the payload, in no room; it fails if and only if the old nights cannot be given back or the new ones then do not fit. |
| `RevisionOutcomes.NobodyIsMeant` | app/services/channex_booking_service.py:377-457 | A cancellation or modification whose reference no booking has fails and leaves bookings and ledger as they were. |
| `RevisionOutcomes.NewThenCancelled` | app/services/channex_booking_service.py:333-424 | After a new revision and a later cancellation of the same booking, with a revision id of its own, the booking is cancelled and every ledger row is as it was before the first. |
| `RevisionOutcomes.NewThenModified` | app/services/channex_booking_service.py:333-534 | A later modification of the same booking rewrites that booking. |
| `RevisionOutcomes.DoneIsAcknowledged` | app/tasks/channex_webhook_task.py:107-176 | A delivery that commits and whose call gets through acknowledges a done revision; one that does not commit leaves nothing. |
| `NightlySplit.NightlyPricesFromTotal` | app/services/channex_booking_service.py:71-84 | Equal truncated shares and a last night that takes the rest. |
| `NightlySplit.SplitSumsToTotal` | app/services/channex_booking_service.py:71-84 | The nights add up to the total exactly, whatever its sign. |
| `NightlySplit.SplitIsEven` | app/services/channex_booking_service.py:71-84 | The last of n nights is further from zero than the others by less than n cents. |
| `NightAudit.AutoNoShow` | app/tasks/night_audit.py:212-262 | On any ledger, succeeds exactly when every night of the overdue bookings can give back as many rooms as they hold; then exactly those bookings are no-shows and each row falls by exactly the swept bookings that hold it; otherwise nothing changes. |
| `NightAudit.OrderDoesNotMatter` | app/tasks/night_audit.py:231-262 | Patching the overdue bookings one after the other, in any order and on any ledger, has this one outcome. |
| `NightAudit.SweepsExactlyWhenNoneOvercommitted` | app/tasks/night_audit.py:212-262 | From a valid state the sweep goes through if and only if no overdue booking holds an over-committed night, and then keeps the invariant. |
| `NightAudit.NoShowIsRelease` | app/services/booking_service.py:959-996 | For a confirmed booking the no-show patch is a release of its nights. |
| `NightAudit.SweepKeepsSound` | app/tasks/night_audit.py:231-262 | Whatever the ledger counts, a sweep that goes through keeps bookings sound and lets no bucket drift further. |
| `NightAudit.SecondSweepIsIdle` | app/tasks/night_audit.py:212-262 | A second audit of the day finds nothing to mark. |
| `BookingOutcomes.SweepOutcome` | app/tasks/night_audit.py:212-262 | A sweep that goes through turns into no-shows exactly the confirmed bookings of the property that have a night before the day, and gives their nights back; every other booking keeps its status and lines. It goes through if and only if each night to be given back is not over-committed and counts that many rooms. |
| `Dashboard.LedgerCountsLines` | app/services/dashboard_service.py:111-129 | The sum of booked rooms over categories is the number of occupying lines in them plus their drift. |
| `Dashboard.DashboardIsOffByDrift` | app/services/reports_service.py:96-121 | The dashboard number exceeds the report number by exactly the drift of the property on the day. |
| `Dashboard.DashboardMatchesReport` | app/services/reports_service.py:96-121 | On an exact ledger they agree on any day. |
| `CompoundOrder.OrderCompound` | app/services/tax_service.py:126-148 | The queue and its fallback compute the specified order, and terminate. |
| `CompoundOrder.QueuePhase` | app/services/tax_service.py:126-144 | The queue emits the specified front. |
| `CompoundOrder.OrderMeaning` | app/services/tax_service.py:113-148 | The order is a permutation of the compound rules; the queue emits exactly those whose chain of dependencies ends at an unknown code, each after its dependency; the others follow in input order. |
| `CompoundOrder.NeverGrounded` | app/services/tax_service.py:136-148 | A rule whose chain reaches a non-compound rule or a cycle is never emitted by the queue. |
| `CompoundOrder.ChainIsFollowedExactlyWhen` | app/services/tax_service.py:55-58 | A compound rule is charged after the compound rule it names if and only if its chain is grounded or the input already lists them in that order. |
| `CompoundOrder.ChainNeedNotBeFollowed` | app/services/tax_service.py:55-58 | A concrete pack in which a rule is charged before the rule it comes after. |
| `CompoundOrder.NothingLeft` | app/services/tax_service.py:145-148 | When the queue emitted as many rules as there are, nothing is left over. |
| `EmissionOrder.AppliesFirstExactlyWhen` | app/services/tax_service.py:126-148 | For every pair of compound rules, which applies first: of two that the queue reaches, one that waits for nothing comes before one that waits, rules that wait for nothing or for the same rule go by their codes, and others follow the rules they wait for; reached rules come before the rest, which keep the order of the pack. |
| `TaxRules.CalculateTaxes` | app/services/tax_service.py:47-175 | Selection, split, base charges, ordering and compound charges compute the specified bill and rounded total. |
| `TaxRules.ChargeCompound` | app/services/tax_service.py:150-169 | Compound rules charge the running total in the computed order. |
| `TaxRules.OrderIsPermutation` | app/services/tax_service.py:150-154 | Every compound rule is charged exactly once. |
| `TaxTotals.RoundingBound` | app/services/tax_service.py:150-169 | After k exclusive compound rules the running total is within (2^k - 1) / 2 cents of the exact product. |
| `TaxTotals.OrderBound` | app/services/tax_service.py:136-169 | Any two orders of the same rules end at most 2^k - 1 cents apart. |
| `TaxTotals.TaxedIsNearExact` | app/services/tax_service.py:113-175 | Both bounds for the order the engine itself computes, against any other order. |
| `TaxTotals.OrderMatters` | app/services/tax_service.py:164-169 | Orders do differ: a cent taxed at 100% and 50%. |
| `TaxTotals.TaxedBalances` | app/services/tax_service.py:92-175 | Every rule is billed on one line, and the running total is the base price plus exactly the lines of the exclusive rules. |
| `TaxTotals.InclusiveIgnoresOrder` | app/services/tax_service.py:158-163 | When all rules are inclusive none compounds: each is extracted from the base price, which is the total. |
| `TaxLines.SelectedExactly` | app/services/tax_service.py:60-81 | The rules charged are exactly the active ones with a code that are meant for the category or for all. |
| `TaxLines.SelectionKeepsOrder` | app/services/tax_service.py:61-81 | They are taken in the order of the pack. |
| `TaxLines.EachChargedInTurn` | app/services/tax_service.py:92-175 | Every rule that is not compound is charged on the base price, whatever the others are, and every compound one on the base price and the exclusive lines before its own. |
| `TaxLines.EachLine` | app/services/tax_service.py:92-175 | The same line by line, with the code and the amount of each rule on its price. |
| `TaxLines.BasePermutation` | app/services/tax_service.py:95-112 | Before compounding starts the running total is the base price and what each exclusive rule takes of it, in any order of the rules. |
| `TaxLines.WithoutCompoundRules` | app/services/tax_service.py:95-175 | So a pack without compound rules comes to the base price and those taxes. |
| `TaxLines.ExclusiveAmount` | app/services/tax_service.py:108-112 | An exclusive rule takes its rate of the price to the nearest cent, half a cent upwards. |
| `TaxLines.ChargedAfterExactlyWhen` | app/services/tax_service.py:113-154 | On the rules of a pack: a compound rule is charged after the compound rule it names if and only if the chain from it ends at a rule that waits for nothing the pack has, or the pack lists them in that order. |
| `TaxPosting.CalculatePosting` | app/services/tax_service.py:178-221 | The posting of each tax mode. |
| `TaxPosting.PostingConserves` | app/services/tax_service.py:178-221 | Room charge and lines make up the total when off or inclusive, and exceed it by exactly the inclusive lines when exclusive. |
| `TaxLines.ExclusiveRoomCharge` | app/services/tax_service.py:178-221 | With taxes off or exclusive the room charge is the price to the cent. |
| `TaxPosting.InclusivePostingExtracts` | app/services/tax_service.py:200-215 | In inclusive mode each line is the tax extracted from the gross price. |
| `TaxPosting.PostedTotalIsNearExact` | app/services/tax_service.py:178-221 | The total posted in exclusive mode is within (2^k - 1) / 2 cents of the exact product and 2^k - 1 cents of what any other order would post. |
| `TaxPosting.OneRuleExclusive` | app/services/tax_service.py:275-279 | A pack with one exclusive rule totals what the property tax computes. |
| `TaxPosting.OneRuleInclusive` | app/services/tax_service.py:270-274 | In inclusive mode a one-rule pack leaves the property tax net, one cent more on exact ties. |
| `PropertyTax.ExclusiveThenInclusive` | app/services/tax_service.py:254-279 | Adding tax and extracting it again returns net, tax and gross, for every amount and rate. |
| `PropertyTax.InclusiveThenExclusive` | app/services/tax_service.py:254-279 | The other direction is off by at most one cent for rates up to 100%. |
| `PropertyTax.PackMatchesProperty` | app/services/tax_service.py:100-107 | The rule engine extracts the property tax, except on an exact half-cent tie, where it extracts one cent less. |
| `PropertyTax.PackDiffersOnATie` | app/services/tax_service.py:100-107 | The tie happens. |
| `PropertyTax.ModeDecides` | app/services/tax_service.py:254-279 | Gross is net and tax; with taxes off there is none, inclusive tax leaves the gross and exclusive tax the net as given. |
| `Folio.Ledger.constructor` | app/services/booking_service.py:377-402 | A new folio holds the room charge and the country-pack lines of its first price. |
| `Folio.Ledger.ReplacePackTaxes` | app/services/folio_service.py:317-388 | Earlier pack lines are deleted, the new ones added, and the room charge to post is returned. |
| `Folio.Ledger.UpdateRoomCharge` | app/services/booking_service.py:664-683 | The oldest room charge, and nothing else, gets the amount. |
| `Folio.Ledger.Reprice` | app/services/booking_service.py:918-942 | What a date change does to the folio as a whole. |
| `Folio.Ledger.AddEntry` | app/services/folio_service.py:214-267 | A charge in an allowed category or a payment is appended; discounts are stored negative. |
| `Folio.Ledger.Reverse` | app/services/folio_service.py:270-314 | An opposite row is appended, unless the transaction is unknown or zero. |
| `Folio.Ledger.ComputeBalance` | app/services/folio_service.py:64-99 | Charges less payments. |
| `FolioHistory.OnlyTheLastPriceShows` | app/services/booking_service.py:919-942 | After any history of date changes, postings and reversals the automatic rows are those of the last total, mode and rules alone, and rows added by staff are never changed or removed. |
| `FolioHistory.RepricingShows` | app/services/folio_service.py:317-388 | One repricing shows the new posting and keeps the staff rows exactly. |
| `FolioOutcomes.RepricingOutcome` | app/services/booking_service.py:918-942 | A repriced folio is the room charge, the rows of the staff in their order and the new tax lines; the charge is the total of the stay, less its taxes when they are inclusive. |
| `FolioOutcomes.KeptExactly` | app/services/folio_service.py:326-334 | A repricing deletes just the tax rows of the engine. |
| `FolioOutcomes.ReversalOutcome` | app/services/folio_service.py:270-314 | An entry can be reversed if and only if it is worth something; the reversal has its kind and category and the opposite amount. |
| `FolioOutcomes.UnknownIsRefused` | app/services/folio_service.py:279-288 | An id that no entry has is refused. |
| `FolioHistory.BalanceOfShown` | app/services/folio_service.py:64-99 | The balance is the room charge, the country-pack lines and the balance of the staff rows. |
| `FolioHistory.BalanceIsLastTotal` | app/services/folio_service.py:64-99 | With taxes off or inclusive the guest owes the last total and the balance of the staff rows. |
| `FolioHistory.PostingMovesBalance` | app/services/folio_service.py:223-241 | Payments and discounts lower the balance, every other charge raises it, by the amount given. |
| `FolioHistory.ReversalCancels` | app/services/folio_service.py:270-314 | A reversal takes back exactly the effect of the row it names. |
| `FolioHistory.ReversalOutlivesRepricing` | app/services/folio_service.py:317-388 | A reversal of a row survives the next repricing, even when that row was a tax line the repricing replaces. |
| `FolioHistory.ReversedTaxStaysOff` | app/services/folio_service.py:317-388 | A folio of 10.00 and 10% tax whose tax line is reversed balances to 10.00 and not 11.00 after it is priced again as before. |
| `WebhookQueue.Queue.Dispatch` | app/services/webhook_delivery_engine.py:174-198 | One pending row for each matching subscription. |
| `WebhookQueue.Queue.ProcessOne` | app/services/webhook_delivery_engine.py:201-284 | One turn: logged, then deleted, rescheduled or moved to dead letter. |
| `WebhookQueue.Queue.Pick` | app/services/webhook_delivery_engine.py:299-310 | The due row that has waited longest, or none when nothing is due. |
| `WebhookQueue.Queue.ProcessBatch` | app/services/webhook_delivery_engine.py:287-314 | A batch is that many turns on picked rows, and ends early only when nothing is due. |
| `WebhookQueue.DeliverInline` | app/services/webhook_delivery_engine.py:110-171 | The inline loop logs attempts until one succeeds, three at most. |
| `WebhookProtocol.RunIsGood` | app/services/webhook_delivery_engine.py:201-284 | In every run with crashes and subscription edits, each delivery log is numbered from 1 to at most 3 and tells exactly why the delivery is pending, dead or gone; the log only grows. |
| `WebhookProtocol.ExactlyOnePlace` | app/services/webhook_delivery_engine.py:201-284 | Every enqueued delivery is pending, delivered, dropped or dead, and only one of these. |
| `WebhookProtocol.RetryWaits` | app/services/webhook_delivery_engine.py:269-284 | A failed delivery is due again exactly from 10 seconds after its first attempt and 60 after its second, and never after its third. |
| `WebhookProtocol.WorkUsesBudget` | app/services/webhook_delivery_engine.py:269-284 | Every committed turn lowers the sum of attempts left. |
| `WebhookProtocol.RunStaysWithinBudget` | app/services/webhook_delivery_engine.py:201-284 | The log never exceeds three rows per delivery ever enqueued, less what is still to come. |
| `WebhookProtocol.QueueMatchesInline` | app/services/webhook_delivery_engine.py:110-171 | Whatever happens in between, a delivery whose subscription stays active is logged as the inline loop would log the same answers. |
| `WebhookProtocol.MirrorsWhere` | app/services/webhook_delivery_engine.py:110-171 | Such a delivery is pending while the loop would still try, delivered once it would have succeeded, dead once it would have given up. |
| `WebhookProtocol.FinishedMatchesInline` | app/services/webhook_delivery_engine.py:110-171 | A finished delivery has the log of the inline loop for its answers and any that might have followed. |
| `WebhookProtocol.EveryDeliveryIsAccountedFor` | app/services/webhook_delivery_engine.py:201-284 | In every state reachable from an empty queue each delivery ever enqueued is in one of the four places, and the log is within three rows per delivery. |
| `WebhookProtocol.EveryDeliveryMatchesInline` | app/services/webhook_delivery_engine.py:110-198 | From every such state, each delivery of a dispatch is from then on logged as the inline loop would log its answers, while its subscription wants it. |
| `WebhookProtocol.BatchIsRun` | app/services/webhook_delivery_engine.py:287-314 | What the batch loop does is a run. |
| `QueueOutcomes.WorkOutcome` | app/services/webhook_delivery_engine.py:201-284 | A turn on a row that is pending and whose time has come logs one attempt; a delivery no longer wanted or answered with success leaves the queue, a failed one is due 10 or 60 seconds later or is dead after the third; any other turn does nothing. |
| `QueueOutcomes.DispatchOutcome` | app/services/webhook_delivery_engine.py:174-198 | A dispatch leaves one untried row for each matching subscription, due at once, and touches no other row. |
| `QueueOutcomes.BatchTakesOldest` | app/services/webhook_delivery_engine.py:287-314 | Each row a batch takes is pending and due, and none that is has waited longer. |
| `ChannelPush.Link.PushBatches` | app/tasks/channex_incremental_ari.py:136-147 | Batches of 200 are sent until one fails; what was sent stays sent, and the link remembers the error. |
| `ChannelPush.Link.PushAvailability` | app/tasks/channex_incremental_ari.py:81-147 | The current image of the dates asked for, each once, in order. |
| `ChannelPush.Link.PushFullImage` | app/tasks/channex_ari_sync.py:115-186 | The full image of every mapped category over the sync window. |
| `ChannelPush.BatchesCover` | app/tasks/channex_incremental_ari.py:138-140 | The batches, none longer than 200, together are the updates in order, none skipped, repeated or reordered. |
| `ChannelPush.SortedDatesShape` | app/tasks/channex_incremental_ari.py:89-89 | Every date asked for once, ascending. |
| `ChannelOutcomes.ShownCanBeBooked` | app/tasks/channex_incremental_ari.py:109-135 | The number shown for a bucket is how many more single nights of it can be booked: of any sequence of requests for that night that lack nothing else, just that many go through. |
| `ChannelOutcomes.PushShows` | app/tasks/channex_incremental_ari.py:89-135 | An incremental push that gets through shows the image on every date asked for and changes no other bucket. |
| `ChannelOutcomes.FullSyncShows` | app/tasks/channex_ari_sync.py:111-155 | A full sync that gets through shows the image of every mapped category on each of 365 days and changes no other bucket. |
| `MirrorFreshness.StaleExactlyWhen` | app/tasks/channex_incremental_ari.py:109-147 | In any interleaving of changes and pushes a bucket is shown if and only if some reading of it was delivered, and is stale if and only if the reading delivered last saw another image than the current one. |
| `MirrorFreshness.OvertakenExactlyWhen` | app/tasks/channex_incremental_ari.py:109-147 | Of a bucket that has not changed since its newest delivered reading: it is stale if and only if the reading delivered last saw another image than that newest one. |
| `MirrorFreshness.InOrderConverges` | app/tasks/channex_incremental_ari.py:109-147 | Overlap or not, readings delivered in the order in which they were made leave it current. |
| `ChannelMirror.MirrorConverges` | app/tasks/channex_incremental_ari.py:109-147 | From any state: the channel shows the current image of a bucket if and only if it equals the image when the shown value was read. |
| `ChannelMirror.SerialMirrorConverges` | app/tasks/channex_incremental_ari.py:109-147 | When pushes do not overlap, it shows the current image of every bucket that some push read after its last change and delivered. |
| `ChannelMirror.OverlapLeavesStale` | app/tasks/channex_incremental_ari.py:109-147 | When they do overlap it need not: of two pushes the one that read first can deliver last. |
| `ChannelMirror.StepIsTruthful` | app/tasks/channex_ari_sync.py:115-186 | What the channel shows is always the image of the ledger at the moment it was read. |
| `ChannelMirror.PushIsRun` | app/tasks/channex_incremental_ari.py:81-147 | Whatever number of updates the incremental push reports as sent, one reading, some number of batches and its end leave the channel showing just those. |
| `ChannelMirror.FullSyncIsRun` | app/tasks/channex_ari_sync.py:115-186 | So is the full sync. |
| `ChannelMirror.ReadsAreImages` | app/tasks/channex_ari_sync.py:121-155 | The incremental push and the full sync read the same image of a bucket. |
| `StripeRefunds.Payments.ChargeBooking` | app/services/stripe_payment_service.py:191-314 | A refused charge is recorded as failed, an accepted one with its payment; other errors leave nothing. |
| `StripeRefunds.Payments.RefundCharge` | app/services/stripe_payment_service.py:317-394 | One refund, of at most the charge, of a charge that succeeded. |
| `StripeRefunds.Payments.ReconcileRefund` | app/services/stripe_payment_service.py:397-442 | A webhook books a refund only while the charge is succeeded. |
| `StripeRefunds.RefundsAreBounded` | app/services/stripe_payment_service.py:317-442 | Over any mix of API refunds and redelivered webhooks a charge has at most one refund row and its net payment stays within 0 and its amount. |
| `StripeRefunds.NetZeroMeansRefunded` | app/services/stripe_payment_service.py:376-377 | Net zero means refunded and back, if and only if the stored amount is positive or the charge is refunded. |
| `StripeRefunds.TinyChargeNetsToZero` | app/services/stripe_payment_service.py:202-203 | Half a cent passes the check on the amount and is stored as nothing. |
| `StripeRefunds.FirstRefundWins` | app/services/stripe_payment_service.py:403-409 | Once a charge is no longer succeeded nothing changes it or its payments. |
| `StripeOutcomes.PayOutcome` | app/services/stripe_payment_service.py:191-314 | A charge is stored to the cent, half a cent to the even one, with its payment when accepted and without one when declined. |
| `StripeOutcomes.RefundOutcome` | app/services/stripe_payment_service.py:317-394 | A refund goes through if and only if the charge is of the booking and succeeded, a named amount is positive and no larger than the charge, and the provider accepts; it takes that amount off the folio. |
| `StripeOutcomes.WebhookOutcome` | app/services/stripe_payment_service.py:397-442 | A webhook takes off what it reports to the cent, at most the charge, or the whole charge when it reports nothing positive, while the charge has succeeded. |
| `StripeOutcomes.ReportedIsTakenOff` | app/services/stripe_payment_service.py:397-442 | A reported amount in cents, up to the charge, is what the folio loses. |

## Left out

- HTTP routes, status codes and error texts: every error is one failed outcome.
- Guests, beyond whether their row can be found or made when a booking is created, notes, housekeeping marks, extension fields and the balance check at check-out: they do not touch inventory or the folio rows modelled here; the check-in form is one Boolean.
- Tenants and row-level security: one tenant is fixed.
- Emails, audit rows, webhooks emitted by the booking service and the scheduling of channel pushes from it.
- Statuses, sources, codes and room names are compared after the trimming and lower-casing the source applies; text is a rank in its sort order.
- A patch that sends an explicit null date: the request type keeps only present dates.
- External ids longer than 128 characters: the channel ids this model stores are at most 36 characters.
- The folio is its own module and not a table of the session, so a rollback of a booking transaction is not shown undoing its folio rows.
- Folio rows that staff describe with the country-pack prefix, negative rates and duplicate rule codes: excluded by type or precondition.
- Tax amounts given with fractions of a cent to the property tax; the rule engine takes any real base price.
- Decimal precision beyond exact arithmetic: quotients are exact before they are rounded to the cent.
- Primary keys are chosen by the caller or numbered in order; row ids of rates are not modelled.
- Concurrent writers other than the interleaved stays of one category and the overlapping pushes: elsewhere services are serial transactions, and room assignment, which takes no lock on rooms, is exclusive only under that.
- OTA revisions are ingested one at a time; two ingests racing for one revision row are not modelled.
- Inactive channel links, unmapped rooms and malformed payloads are resolved by one function to an error outcome each; parsing of payload text is not modelled.
- Rate pushes and restrictions to the channel: only availability is mirrored.
- Removing a webhook subscription, which by the schema takes its delivery log with it; the service's delete at present removes nothing (app/services/webhook_subscription_service.py:172-186).
- The crash of a worker after an HTTP attempt: the attempt leaves no trace in the model, so a receiver may see more posts than the log.
- What Stripe itself holds as refunded, and disputes.
- Reports other than the occupied count, email and PDF rendering, API keys, authentication and scripts.
- Folio.Ledger.ReplacePackTaxes: lines carry code and amount, not the rule's display name.
- TaxRules.CalculateTaxes: reads typed rules, not JSON, so unreadable rates do not occur.
- ChannelPush.Link.PushBatches: takes the outcome of every call in advance and does not model the pause between calls.
- WebhookQueue.Queue.ProcessBatch: takes the clock and the answers of its turns in advance.
- ChannexIngest.Inbox.Modify: takes the update of the guest to succeed; a collision of the new e-mail address at the last flush fails the revision in the source.
