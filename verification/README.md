# SavSpot verification

This project models the booking engine of SavSpot and the smaller services around it, and proves properties
of that model in Dafny 4.11. `dafny verify dfyconfig.toml` checks all of it.

## What is modelled

* **The hold-and-book protocol.** `Tables` holds the rows of date_reservations, booking_sessions and bookings, a
  clock, and the notion of a claim on time. `Reservations`, `Sessions` and `Bookings` model the three services: for
  each handler a function on snapshots says what it does to all tables, and a method of the service class, written as
  the handler is, is proved to do exactly that, errors included. `Jobs` does the same for the jobs that mark missed
  bookings, complete ended ones and cancel unapproved ones and for the appointment import, `Portal` for the client
  portal's reschedule (`PortalLimits` says what its limit limits). `Protocol` puts these handlers, the expiry job and
  the passing of time into one step relation, with a job's query and its transaction for each booking as separate
  steps, and proves when runs are free of double bookings. `HoldPromise`, `Capacity`, `Conservation` and
  `BookingRecords` prove what else runs of these steps keep, `SessionEdits` what a session's edits and payments decide
  about its booking, and `BookingRequests` which requests a booking accepts and which bookings the jobs pick.
* **Availability.** `SlotGrid` is the slot generator, `Availability` the day and rule loops, the conflict fetch and the
  90-day scan, `Agreement` the exact set of offered slots and its agreement with reserving. `Offers` characterises the
  answer by the rows of the tables alone, `TakenSlots` says which offers each step takes away. `RuleCache` is the cache
  of availability rules and its writers, `RuleEdits` what each write does to queries, offers and cache,
  `CachedAvailability` what staleness does to the slots offered.
* **Calendar sync.** `CalendarSync` folds a paged change feed into a table of rows. The remote calendar is a function of
  the attempt and the sync token sent with it, so restarts depend on the token the sync finds stored. `SyncResults` says
  what a sync leaves behind: token, events and counts.
* **Smaller services.** `PushLimit` and `PushCalls` (push rate limit, over runs and call by call), `CancellationPolicy`
  (refunds), `Contracts` (signing quotas), `IcalFeed` and `IcalReader` (feed and escaping, and reading it back),
  `TemplateHistory` (versions and rollback), `QuietHours` (deferral).

Each transaction is one atomic step, as the row locks intend. Instants are integers in milliseconds on one clock that
the database and the application share, and the server's time zone is UTC. Identifiers are row positions, since no
modelled step deletes a row; a reservation's token is unique and is represented by its row. Rows of other tables (a
service's confirmation mode, reschedule limit, grace period or venue, the user a guest's e-mail resolves to) are
parameters of the step that reads them, so they may change arbitrarily between steps. Lookups that rely on row-level
security are by tenant.

"Every run" and "every reachable state" below mean runs of the modelled steps. Other code that writes these tables has
the effect of some of those steps: the portal's cancellation and the payment deadline job cancel a PENDING or CONFIRMED
booking as `CancelOp` does, the payment webhook confirms a PENDING one as `ConfirmOp` does, the abandoned-session job
abandons or releases a session as `AbandonSession` or `ReleaseSession` do, and the embedded widget opens a session as
`OpenSession` does. The code that writes otherwise is listed first under "Left out".

Recorded for specification only are `Booking.origin`, the `sends` and `lost` times of `PushLimit` and the `since` of a
pending read of `RuleCache`.

## Where the code differs from what it promises

The model follows the code; each point below has a lemma.

* Completing a session checks no conflicts. After a session's service or staff has changed it can double-book
  (`CompletionCanDoubleBook`). A payment inserts its booking while the hold stays HELD (`PaidTwice`), an import looks
  for no conflicts (`ImportedTwice`), and the portal's reschedule overlooks holds (`PortalMissesHolds`). `SafetyIff`
  gives the exact condition: apart from the session's own hold at a completion, no other occupying row with the same
  tenant, service and the same staff member (or both naming none) may overlap the booking inserted or moved. At
  completion the conflict queries would do (`EmptyQueriesSuffice`), though for a session without staff they ask for
  more.
* A session may hold several slots, and completing it looks one up without an order (`SecondReservationCompetes`).
* The no-show job marks only the check-in, so status and check-in part (`MissedButConfirmed`). The completion job
  writes its history entry and the approval job cancels even when the booking has moved on since their queries, out of
  COMPLETED or NO_SHOW too (`RunConsistentIff`, `TerminalStaysIff`, `TerminalLeft`).
* The portal counts reschedules from the history and the business from a counter the portal does not touch
  (`CountsThroughoutIff`); portal moves of a PENDING booking count for neither, so no limit bounds them
  (`PortalLimitBindsIff`).
* Signing a contract in the portal makes it SIGNED whatever the template's quotas say (`StatusIsHonestIff`,
  `PortalSignsEarly`).
* Availability filters conflicts by venue, reserving does not (`OfferedAcceptedIff`, `OtherVenueSpoilsOffer`).
* The push limit is documented as five an hour and its counter as keeping its remaining time. The counter's hour
  starts anew with each call and the last call may reach every subscription (`HourlyLimitFromStart`, `FiveAnHourIff`);
  deliveries whose bookkeeping fails are not counted, nor any of a call whose counter write fails (`DeliveriesIff`,
  `UnrecordedUnlimited`).
* A request that misses the rule cache stores its result in a second step; a rule written in between stays invisible
  for up to half an hour although its invalidation succeeded (`StaleAfterLateStore`), and a slot whose only rule is
  removed in between is still offered (`RemovedRuleStillOffered`). Applying a preset creates rules with no
  invalidation (apps/api/src/tenants/tenants.service.ts:219), a `Create` whose invalidation fails
  (`FreshThroughoutIff`).
* A restarted calendar sync reports only the counts of its second attempt (`RestartCountsIff`) and keeps the partial
  effects of the first (`RestartAgreesIff`, `KeptAndUncounted`); if the calendar goes on rejecting requests without a
  token, it restarts for ever (`StartsOverIff`).
* Refund and fee can add up to a cent more than the total (`RefundAndFeeAddUp`, `OneCentTwice`).
* Quiet hours within one day defer a day too long (`SameDayDefersADayTooLong`), and a formatter that writes midnight
  as 24 misses the first hour of quiet hours that start then (`CyclesDisagreeIff`) and overruns those that end then
  (`MisreadDefersByMinutes`).
* Cancelling is documented for PENDING and CONFIRMED bookings; IN_PROGRESS ones are cancelled too
  (`StatusChangesIff`).
* A comment asks for slot plus buffers to fit the window; only the slot has to (`BuffersFitIff`,
  `BufferMayLeaveWindow`).
* The feed's PRODID line carries the tenant name unescaped (`FeedKeepsItsLines`), and the separators in its
  descriptions are escaped twice (`SeparatorsAreLiteral`).

## Model

| member | source | states |
|---|---|---|
| `Protocol.SafetyIff` | apps/api/src/booking-sessions/booking-sessions.service.ts:253-388 | over every run of the modelled steps in any order, no state has two occupying rows of one tenant, service and staff-or-none that overlap, if and only if at every completion, payment, import and portal reschedule on the way no other occupying row of the same tenant, service and staff-or-none overlapped the booking inserted or moved |
| `Protocol.EmptyQueriesSuffice` | apps/api/src/booking-sessions/booking-sessions.service.ts:265-276 | running the reservation queries at completion, with the own hold set aside, would be enough for that; for sessions that name a staff member they ask for exactly what is needed |
| `Protocol.StepSafeIff` | apps/api/src/bookings/bookings.service.ts:344-408 | one modelled step keeps the tables free of double bookings exactly when the claim of a completed, paid, imported or portal-moved booking was free; reserving, walking in, rescheduling and every other step always do |
| `Protocol.MatchedRunsAreSafe` | apps/api/src/booking-sessions/booking-sessions.service.ts:265-388 | runs without payments, imports and portal reschedules in which each completing session still has the service and staff of its hold never double-book |
| `Protocol.PortalMissesHolds` | apps/api/src/client-portal/client-portal.service.ts:426-440 | a booking moved through the portal clashes with nothing exactly when no unexpired hold clashes with it: bookings have been asked, holds not |
| `Protocol.CompletionCanDoubleBook` | apps/api/src/booking-sessions/booking-sessions.service.ts:186-195 | a concrete run without payments: a session that changes service between reserving and completing ends in two bookings of one time |
| `Protocol.PaymentDoubleBooks` | apps/api/src/booking-sessions/booking-sessions.service.ts:639-735 | a payment that inserts a booking for a session matching its hold always double-books, because the hold stays HELD |
| `Protocol.PaidTwice` | apps/api/src/booking-sessions/booking-sessions.service.ts:639-735 | a run from empty tables in which a session opens, reserves and pays, and the payment double-books |
| `Protocol.ImportedTwice` | apps/api/src/imports/handlers/appointment-import.handler.ts:58-70 | importing the same appointment twice into empty tables double-books |
| `Protocol.StepChangesRows` | apps/api/src/bookings/bookings.service.ts:175-581 | a modelled step changes no existing booking row but its target, that one only in one of six ways or, for a job that comes too late, in two others, and appends at most one row: a walk-in, a completion, a payment or an import |
| `Tables.ClaimingKeepsSafetyIff` | apps/api/src/booking-sessions/reservation.service.ts:51-97 | taking a claim on time keeps the no-overlap property exactly when no other occupying row clashes with it |
| `Tables.QueriesFindConflictsIff` | apps/api/src/booking-sessions/reservation.service.ts:54-97 | the hold query and the booking query together are non-empty exactly when some occupying row, other than the excepted booking, conflicts |
| `Tables.QueriesFindEveryClash` | apps/api/src/booking-sessions/reservation.service.ts:54-97 | a request that passes both queries clashes with nothing, whether it names a staff member or none |
| `Tables.PerformsDetermines` | apps/api/src/booking-sessions/reservation.service.ts:44-148 | the contract that ties each handler to its specification leaves the handler no choice of tables or result |
| `Reservations.ReservationService.ReserveSlot` | apps/api/src/booking-sessions/reservation.service.ts:44-126 | refuses on a hold conflict, then on a booking conflict, else inserts a HELD row for five minutes and changes nothing else |
| `Reservations.ReservationService.ReleaseReservation` | apps/api/src/booking-sessions/reservation.service.ts:131-148 | a HELD row of the tenant becomes RELEASED; otherwise an error and no change |
| `Reservations.ReservationService.ReleaseAllForSession` | apps/api/src/booking-sessions/reservation.service.ts:176-185 | exactly the HELD rows of the session become RELEASED |
| `Reservations.ReserveRefusedIff` | apps/api/src/booking-sessions/reservation.service.ts:54-101 | a reservation is refused exactly when an unexpired hold or live booking of the tenant, service and (if named) staff member overlaps it |
| `BookingRequests.ReserveSaysWhy` | apps/api/src/booking-sessions/reservation.service.ts:51-101 | a refused reservation is told of a hold in its way if there is one, else of a booking |
| `Reservations.ReserveKeepsSafety` | apps/api/src/booking-sessions/reservation.service.ts:51-117 | an accepted request occupies exactly what it asked for and moves nobody else, and reserving never double-books, for any tables and any interval, even a malformed one |
| `Reservations.ReleaseUndoesReserve` | apps/api/src/booking-sessions/reservation.service.ts:131-148 | after a release every later reservation request gets the answer, and the error, it would have got without the hold |
| `HoldPromise.PromiseKeptIff` | apps/api/src/booking-sessions/booking-sessions.service.ts:265-276 | over every run, a hold of a session in progress is still unexpired and the session still in progress exactly when nobody released the hold or the session and it was neither abandoned nor completed, and the hold's time has not run out, whatever the session edits, pays for or reserves |
| `HoldPromise.ReservedSlotCanBeBooked` | apps/api/src/booking-sessions/booking-sessions.service.ts:253-330 | within five minutes of reserving in a session in progress that does not give the hold up, whichever of its unexpired holds the completion finds, completing succeeds exactly when the session by then has a service and a client or guest; the booking has that hold's interval and venue and the session's service, staff and client as they are by then |
| `HoldPromise.ReservedSlotIsBookedIff` | apps/api/src/booking-sessions/booking-sessions.service.ts:265-276 | once the session says enough, the booking is sure to be for the reserved slot exactly when the session has no other unexpired hold, because the hold is looked up without an order |
| `HoldPromise.OnlyReservationIsBooked` | apps/api/src/booking-sessions/reservation.service.ts:103-117 | that is so if the session had no unexpired hold when it reserved, does not give this one up and reserves nothing else |
| `HoldPromise.SecondReservationCompetes` | apps/api/src/booking-sessions/reservation.service.ts:44-117 | reserving again does not release the first hold: the session can be completed into either |
| `HoldPromise.RunKeepsHold` | apps/api/src/booking-sessions/booking-sessions.service.ts:265-276 | no run of other steps changes an unexpired hold or its session |
| `HoldPromise.ExpiredHoldCannotBeBooked` | apps/api/src/booking-sessions/booking-sessions.service.ts:265-276 | after five minutes the hold blocks nobody and cannot be completed |
| `Sessions.BookingSessionsService.CreateSession` | apps/api/src/booking-sessions/booking-sessions.service.ts:95-104 | appends an IN_PROGRESS session |
| `Sessions.BookingSessionsService.UpdateSession` | apps/api/src/booking-sessions/booking-sessions.service.ts:165-208 | replaces exactly the given keys of an IN_PROGRESS session, leaving its holds alone; what the keys decide is stated by LastEditStays and BookedAsEdited |
| `Sessions.BookingSessionsService.AbandonSession` | apps/api/src/booking-sessions/booking-sessions.service.ts:224-247 | releases the session's HELD holds and abandons it, only while IN_PROGRESS |
| `Sessions.BookingSessionsService.CompleteSession` | apps/api/src/booking-sessions/booking-sessions.service.ts:253-388 | picks some active hold of the session, inserts the booking with the hold's interval and the session's service and staff, confirms the hold, completes the session; each error in the order of the checks |
| `Sessions.BookingSessionsService.ProcessPayment` | apps/api/src/booking-sessions/booking-sessions.service.ts:619-735 | reuses a live booking of exactly the hold's interval or inserts a PENDING one, leaving hold and session open |
| `SessionEdits.LastEditStays` | apps/api/src/booking-sessions/booking-sessions.service.ts:178-200 | over every run of all steps a session has, key by key, the client, guest and staff member that its last accepted edit to mention the key gave, or what it had before, and the service that the last one to choose a service chose |
| `SessionEdits.BookedAsEdited` | apps/api/src/booking-sessions/booking-sessions.service.ts:288-360 | whatever a session goes through after it is opened: the booking it is completed into names the staff member its last edits gave, or nobody, and the service they chose, and is for the user that its first payment stored, else for the client or without one the guest that its last edits gave, at the time and venue of the hold |
| `SessionEdits.PaidGuestSticks` | apps/api/src/booking-sessions/booking-sessions.service.ts:676-722 | once a payment has stored the user of the guest, later edits no longer decide whom the booking is for |
| `SessionEdits.PaymentInsertsIff` | apps/api/src/booking-sessions/booking-sessions.service.ts:663-765 | a payment inserts a booking exactly when the tenant and service have no PENDING or CONFIRMED one of exactly the hold's interval; the new one is PENDING and has the hold's time and venue and the session's service, staff member and client |
| `SessionEdits.PayingAgainInsertsNothing` | apps/api/src/booking-sessions/booking-sessions.service.ts:664-674 | paying again for the same hold goes through and inserts no second booking |
| `SessionEdits.SessionFollows` | apps/api/src/booking-sessions/booking-sessions.service.ts:224-388 | a session is ABANDONED by its tenant's abandoning it while in progress and COMPLETED by its completion, each exactly then; completing it records the hold and, for a session that named no client, the guest's user |
| `SessionEdits.ClosedIsFinal` | apps/api/src/booking-sessions/booking-sessions.service.ts:168-170 | over every run a completed or abandoned session stays exactly as it is |
| `BookingRequests.CompletionSaysWhy` | apps/api/src/booking-sessions/booking-sessions.service.ts:253-301 | which of its five errors a completion that fails reports, in the order of the checks, and that without any of their causes it succeeds |
| `BookingRequests.PaymentSaysWhy` | apps/api/src/booking-sessions/booking-sessions.service.ts:619-700 | the same for a payment, which looks for the hold before the service |
| `BookingRequests.SessionSaysWhy` | apps/api/src/booking-sessions/booking-sessions.service.ts:165-230 | editing and abandoning a session succeed exactly for the tenant's sessions in progress, and report an unknown session before a closed one |
| `Capacity.CapacityOverRuns` | apps/api/src/booking-sessions/reservation.service.ts:51-97 | in every state a matched run reaches, an instant of a service is occupied by at most one row per staff member ever named for it, plus one |
| `Capacity.OneAtATime` | apps/api/src/booking-sessions/reservation.service.ts:65-97 | if the run names no staff member, by at most one row |
| `Capacity.CapacityBound` | apps/api/src/booking-sessions/reservation.service.ts:51-97 | the same bound for any tables without double bookings |
| `Capacity.NamedBesideUnnamed` | apps/api/src/booking-sessions/reservation.service.ts:54-73 | right after a hold that names nobody, a request for the same time naming any staff member is accepted |
| `Capacity.CapacityIsReached` | apps/api/src/booking-sessions/reservation.service.ts:54-97 | the bound is reached: for every n a matched run ends with n staff members named and n + 1 rows occupying one instant |
| `Conservation.ConservationOverRuns` | apps/api/src/booking-sessions/booking-sessions.service.ts:352-388 | over every run, CONFIRMED holds, COMPLETED sessions and bookings made from holds point at each other one to one, each booking has its hold's interval or a recorded move and, if every move was counted, remembers its hold's day, and the three are equally many |
| `Conservation.OneBookingPerSession` | apps/api/src/booking-sessions/booking-sessions.service.ts:256-258 | no session yields two bookings through completion |
| `Conservation.StepKeepsLinks` | apps/api/src/booking-sessions/booking-sessions.service.ts:352-388 | every modelled step, payments, imports, portal reschedules and late jobs included, keeps those links |
| `Conservation.RunKeepsDeadlines` | apps/api/src/booking-sessions/reservation.service.ts:103-104 | in every reachable state no HELD row has more than five minutes left |
| `Conservation.ExpiryJobIsInvisible` | apps/api/src/jobs/expire-reservations.processor.ts:30-43 | the expiry job changes no row's claim on time |
| `Conservation.ExpiryJobIff` | apps/api/src/jobs/expire-reservations.processor.ts:30-43 | the job expires exactly the HELD rows strictly past their expiry and changes no other row |
| `Conservation.HoldFollows` | apps/api/src/booking-sessions/reservation.service.ts:131-185 | a HELD row is RELEASED by a release or its abandoned session, CONFIRMED by its session's completion and EXPIRED by the job, each exactly then; a row that is no longer HELD never changes |
| `Conservation.ReservedExpires` | apps/api/src/jobs/expire-reservations.processor.ts:30-43 | a reserved hold is expired by a run of the job exactly when more than five minutes have passed |
| `Jobs.ProcessCompletedBookingsHandler.QueryMissed` | apps/api/src/jobs/process-completed-bookings.processor.ts:146-152 | picks exactly the CONFIRMED bookings nobody has checked in that ended more than a quarter of an hour ago |
| `Jobs.ProcessCompletedBookingsHandler.MarkMissedBooking` | apps/api/src/jobs/process-completed-bookings.processor.ts:161-173 | marks a picked booking as missed if it is still CONFIRMED and not checked in, leaving its status |
| `Jobs.ProcessCompletedBookingsHandler.QueryEnded` | apps/api/src/jobs/process-completed-bookings.processor.ts:57-75 | picks exactly the CONFIRMED bookings that have ended and are not marked as missed |
| `Jobs.ProcessCompletedBookingsHandler.CompleteEndedBooking` | apps/api/src/jobs/process-completed-bookings.processor.ts:86-109 | completes a picked booking if it is still CONFIRMED, and adds a history entry in any case |
| `Jobs.EnforceApprovalDeadlinesHandler.QueryUnapproved` | apps/api/src/jobs/enforce-approval-deadlines.processor.ts:40-50 | picks the PENDING ones among the bookings past their approval deadline |
| `Jobs.EnforceApprovalDeadlinesHandler.CancelUnapprovedBooking` | apps/api/src/jobs/enforce-approval-deadlines.processor.ts:62-87 | cancels a picked booking whatever its status is by now, and records it as having been PENDING |
| `Jobs.AppointmentImportHandler.ImportAppointment` | apps/api/src/imports/handlers/appointment-import.handler.ts:22-70 | inserts a CONFIRMED booking of the service's duration without looking for conflicts, if client and service are found |
| `Portal.ClientPortalService.CountReschedules` | apps/api/src/client-portal/client-portal.service.ts:408-410 | counts the self-loops on CONFIRMED |
| `Portal.ClientPortalService.RequestRescheduleOf` | apps/api/src/client-portal/client-portal.service.ts:376-475 | checks owner, status, the counted reschedules against the limit (three by default), a start in the future and the bookings of the service, in that order, then moves the booking and records a self-loop, leaving counter and original date |
| `BookingRequests.PortalAcceptedIff` | apps/api/src/client-portal/client-portal.service.ts:383-470 | the portal moves a booking, to the time asked for, exactly when the caller is its client, it is PENDING or CONFIRMED, fewer of its history entries are CONFIRMED self-loops than the service allows, three without a limit of its own, the new start lies ahead and no other live booking of the tenant and service overlaps |
| `BookingRequests.PortalSaysWhy` | apps/api/src/client-portal/client-portal.service.ts:397-440 | which error a refused portal request reports, in the order of the checks |
| `BookingRequests.JobsPickIff` | apps/api/src/jobs/process-completed-bookings.processor.ts:57-156 | the jobs pick exactly the CONFIRMED bookings still unchecked more than fifteen minutes after their end, the CONFIRMED ones past their end that are not marked as missed, and the PENDING ones among the overdue |
| `BookingRequests.PicksStay` | apps/api/src/jobs/process-completed-bookings.processor.ts:57-156 | nothing but its own query changes what a job has picked |
| `BookingRequests.ImportSaysWhy` | apps/api/src/imports/handlers/appointment-import.handler.ts:21-54 | an import row that can be read fails exactly for lack of a client or, if it has one, of a service |
| `BookingRequests.AcceptedReturnsRow` | apps/api/src/bookings/bookings.service.ts:175-735 | an accepted request returns the row it has inserted, which is the last one, or the one it was about |
| `PortalLimits.MoveIsCountedIff` | apps/api/src/client-portal/client-portal.service.ts:408-410 | the portal counts a move it makes exactly when the booking is CONFIRMED |
| `PortalLimits.LimitBinds` | apps/api/src/client-portal/client-portal.service.ts:408-416 | over every run the portal makes at most as many moves of a booking that is not PENDING as the limit leaves over |
| `PortalLimits.PortalLimitBindsIff` | apps/api/src/client-portal/client-portal.service.ts:408-416 | once the portal accepts a move, its limit bounds the moves of every run exactly when the booking is not PENDING |
| `PortalLimits.BusinessLimitBinds` | apps/api/src/bookings/bookings.service.ts:323-336 | over every run the business makes at most as many moves of a booking, whatever its status, as its own limit leaves over |
| `PortalLimits.RunCountsAllMoves` | apps/api/src/bookings/bookings.service.ts:380-405 | over every run the self-loops of a history grow by the moves of the portal and of the business |
| `PortalLimits.BothLimitsBind` | apps/api/src/client-portal/client-portal.service.ts:408-416 | a booking that is not PENDING is moved at most as often as both limits together leave over |
| `Bookings.BookingsService.ConfirmBooking` | apps/api/src/bookings/bookings.service.ts:175-194 | PENDING to CONFIRMED with its history entry, else an error and no change |
| `Bookings.BookingsService.CancelBooking` | apps/api/src/bookings/bookings.service.ts:219-268 | PENDING, CONFIRMED or IN_PROGRESS to CANCELLED with its history entry |
| `Bookings.BookingsService.RescheduleBooking` | apps/api/src/bookings/bookings.service.ts:314-408 | checks status, limit, bookings and holds in that order, then moves the booking, counts the move, keeps the first start day and records a self-loop |
| `Bookings.BookingsService.MarkNoShowBooking` | apps/api/src/bookings/bookings.service.ts:436-481 | CONFIRMED to NO_SHOW once the grace period after the end, or without one the start, has passed |
| `Bookings.BookingsService.MarkArrived` | apps/api/src/bookings/bookings.service.ts:505-527 | CONFIRMED to IN_PROGRESS and checked in |
| `Bookings.BookingsService.MarkCompleted` | apps/api/src/bookings/bookings.service.ts:538-563 | IN_PROGRESS or CONFIRMED to COMPLETED |
| `Bookings.BookingsService.CreateWalkIn` | apps/api/src/bookings/bookings.service.ts:588-755 | refuses if anything of the service is in the way, else inserts a CONFIRMED booking with one history entry |
| `TakenSlots.WalkInIsTakenIff` | apps/api/src/bookings/bookings.service.ts:705-730 | a walk-in on an offered slot takes it off an availability query exactly when the query is for its tenant and service, for the venue of the service's own row or for none, and for no staff member |
| `BookingRequests.NewBookingIsTheClients` | apps/api/src/bookings/bookings.service.ts:705-730 | the booking of a walk-in or an import can be checked in at once, and in the portal its client alone finds it |
| `BookingRequests.NewBookingIsUnchecked` | apps/api/src/bookings/bookings.service.ts:785-815 | whatever step makes a booking, it can be checked in exactly once it is CONFIRMED, and it has no move counted, recorded or remembered |
| `BookingRequests.WalkInSaysWhy` | apps/api/src/bookings/bookings.service.ts:666-700 | a refused walk-in is told of a booking in its way if there is one, else of a hold |
| `BookingRequests.RescheduleSaysWhy` | apps/api/src/bookings/bookings.service.ts:314-400 | which of its five errors a refused reschedule reports, in the order of the checks |
| `BookingRequests.StatusRequestSaysWhy` | apps/api/src/bookings/bookings.service.ts:175-581 | a request to confirm, cancel, start, complete or mark a booking as missed succeeds exactly when the booking is the tenant's, the move is one of its life and a no-show has waited long enough, and else reports the first of these that fails |
| `BookingRequests.CheckInSaysWhy` | apps/api/src/bookings/bookings.service.ts:785-848 | a check-in is refused exactly unless the booking is the tenant's, CONFIRMED and unchecked, a check-out unless it is the tenant's and checked in |
| `Bookings.BookingsService.CheckInBooking` | apps/api/src/bookings/bookings.service.ts:785-811 | only a CONFIRMED booking whose check-in is pending |
| `Bookings.BookingsService.CheckOutBooking` | apps/api/src/bookings/bookings.service.ts:817-845 | only a checked-in booking |
| `BookingRecords.StatusChangesIff` | apps/api/src/bookings/bookings.service.ts:27-31 | a modelled step moves a booking to another status exactly when a request asks that booking, in its tenant and in time, for one of the eight moves to it, or a job completes a picked confirmed booking or cancels a picked one of any status |
| `BookingRecords.RunConsistentIff` | apps/api/src/jobs/process-completed-bookings.processor.ts:84-109 | over every run from consistent tables, each booking's history replays to its status over allowed edges, its reschedule count is at most the number of self-loops and a NO_SHOW has a NO_SHOW check-in, in every state, exactly when every job transaction finds the status its query asked for |
| `BookingRecords.CountsThroughoutIff` | apps/api/src/client-portal/client-portal.service.ts:446-471 | over every run, a booking's reschedule count is the number of self-loops in every state exactly when the portal never moves it, and then its creation day never changes |
| `BookingRecords.MovedUncounted` | apps/api/src/client-portal/client-portal.service.ts:446-471 | a run from empty tables in which the portal moves a booking by a day, its count stays zero and its creation day is lost |
| `BookingRecords.CreationDayStaysIff` | apps/api/src/bookings/bookings.service.ts:385-385 | a modelled step changes the day a booking was created for, as its row shows it, exactly when the portal moves a booking never rescheduled by the business to another day |
| `BookingRecords.StepConsistentIff` | apps/api/src/jobs/process-completed-bookings.processor.ts:90-108 | one modelled step keeps all records consistent exactly when it is not a job transaction that comes too late |
| `BookingRecords.ApprovedThenCancelled` | apps/api/src/jobs/enforce-approval-deadlines.processor.ts:62-87 | a booking approved between the query and the transaction of the approval job is cancelled all the same, and its history no longer replays |
| `BookingRecords.NoShowAgreesIff` | apps/api/src/jobs/process-completed-bookings.processor.ts:161-173 | over every run, status and check-in agree on a no-show in every state exactly when the no-show job never marks the booking and the approval job never cancels it as a NO_SHOW |
| `BookingRecords.MissedButConfirmed` | apps/api/src/jobs/process-completed-bookings.processor.ts:146-173 | a run from empty tables that ends with a CONFIRMED booking whose check-in is NO_SHOW |
| `BookingRecords.RunEvolves` | apps/api/src/bookings/bookings.service.ts:380-405 | over every run of the modelled steps history only grows, tenant, client, service, staff, venue and a recorded original date never change, the counter never falls, and times change only with a self-loop in the history |
| `BookingRecords.TerminalStaysIff` | apps/api/src/jobs/enforce-approval-deadlines.processor.ts:62-87 | over every run a booking stays CANCELLED, COMPLETED or NO_SHOW in every state exactly when the approval job never cancels it as COMPLETED or NO_SHOW |
| `BookingRecords.TerminalIsFinalIff` | apps/api/src/bookings/bookings.service.ts:27-31 | over every run nothing of such a booking but its check-in changes exactly when neither job transaction reaches it |
| `BookingRecords.TerminalLeft` | apps/api/src/jobs/enforce-approval-deadlines.processor.ts:62-87 | a run from empty tables in which a booking is picked while pending, approved, completed or marked NO_SHOW, and then CANCELLED by the job |
| `BookingRecords.CheckInFollows` | apps/api/src/bookings/bookings.service.ts:785-845 | a modelled step changes a check-in by arrival, no-show, checking in a confirmed booking, checking out after that or the no-show job, and in no other way |
| `BookingRecords.RescheduleAcceptedIff` | apps/api/src/bookings/bookings.service.ts:323-388 | a reschedule is accepted exactly within its limits and when no other row of the service, for any staff member, is in the way |
| `BookingRecords.WalkInRefusedIff` | apps/api/src/bookings/bookings.service.ts:669-699 | a walk-in is refused exactly when any row of the service is in the way |
| `BookingRecords.CancelUndoesWalkIn` | apps/api/src/bookings/bookings.service.ts:219-268 | after a cancellation every reservation request gets the answer it would have got without the booking |
| `Bookings.MovedIsConsistent` | apps/api/src/bookings/bookings.service.ts:179-194 | recording one allowed move keeps history, status and counters in step |
| `SlotGrid.GenerateSlotsForWindow` | apps/api/src/availability/availability.service.ts:394-451 | returns the free grid slots of the window in order and terminates, for a positive duration and non-negative buffers |
| `SlotGrid.GeneratedIff` | apps/api/src/availability/availability.service.ts:409-448 | a slot is generated exactly when it starts at windowStart + k * (before + duration + after) + before for some k, ends within the window and overlaps no conflict |
| `SlotGrid.BuffersFitIff` | apps/api/src/availability/availability.service.ts:414-425 | in a window without conflicts every slot leaves room for its after-buffer, as the comment asks, exactly when what remains of the window after whole steps is shorter than before-buffer plus duration |
| `SlotGrid.BufferMayLeaveWindow` | apps/api/src/availability/availability.service.ts:419-425 | an hour with half an hour after it is offered in a window of one hour |
| `SlotGrid.GeneratedApart` | apps/api/src/availability/availability.service.ts:389-393 | generated slots come in order, all of the duration, at least both buffers apart |
| `Offers.OfferedFromTableIff` | apps/api/src/availability/availability.service.ts:98-279 | the whole answer from the rows: a slot is offered exactly when its day is in range and not blocked for the service or the tenant, some active rule in the table that applies to the service, the venue and the weekday has room for it at a whole number of steps, the advance limits allow it, and no booking, unexpired hold or inbound event of the query's tenant, service, venue, staff member or owner meets it; a tenant-wide rule applies only on weekdays for which the service has none |
| `Offers.WindowsForIff` | apps/api/src/availability/availability.service.ts:348-387 | a window is one of a weekday exactly when a service rule gives it or, if no service rule names that day, a tenant-wide rule does |
| `Offers.LastRuleLast` | apps/api/src/availability/availability.service.ts:359-384 | windows come in the order of their rules: one more rule at the end of its list gives its day one more window, the last |
| `Offers.TenantRuleIgnored` | apps/api/src/availability/availability.service.ts:376-384 | one more tenant-wide rule on a weekday of any service rule changes no offer of any range of days |
| `Offers.ServiceRulesReplace` | apps/api/src/availability/availability.service.ts:364-384 | over days that service rules name all tenant-wide rules may be dropped without changing an offer |
| `Offers.TenantRulesFillIn` | apps/api/src/availability/availability.service.ts:376-384 | over days that no service rule names the offers are those of the tenant-wide rules alone |
| `Availability.BuildRulesByDay` | apps/api/src/availability/availability.service.ts:353-387 | the pushing loops give each day of the week the windows of the service's rules or, only if there are none, the tenant-wide ones, in order |
| `Availability.FetchLosesNothing` | apps/api/src/availability/availability.service.ts:156-236 | the range-limited fetch never drops a row that overlaps a slot of a day in range |
| `Offers.FetchBringsIff` | apps/api/src/availability/availability.service.ts:157-236 | the fetch brings exactly the counting rows that touch the days of the range, but for the last millisecond of the last one |
| `Availability.GetAvailableSlots` | apps/api/src/availability/availability.service.ts:48-280 | the day, rule and slot loops over the fetched rows return, day by day, what judging each day against every row would offer |
| `Availability.OfferedSplits` | apps/api/src/availability/availability.service.ts:238-280 | for a fixed state a query over a..c is the query over a..b followed by the query over b+1..c |
| `Availability.GetNextAvailable` | apps/api/src/availability/availability.service.ts:285-314 | returns the first of 90 days with a slot, heading the 90-day query, or nothing exactly when that query is empty |
| `Agreement.OfferedIff` | apps/api/src/availability/availability.service.ts:48-280 | a slot is offered exactly when its day is in range and open, it is a grid position of a window of that day, the advance limits allow it, and no booking, hold or calendar event that counts overlaps it |
| `Agreement.OfferedInOrder` | apps/api/src/availability/availability.service.ts:238-280 | when the windows of each weekday are disjoint, the slots offered over any days are in order and each ends at least the before-buffer ahead of the next |
| `Agreement.OverlappingWindows` | apps/api/src/availability/availability.service.ts:238-280 | two overlapping windows of a day give two slots that overlap |
| `Agreement.OfferedAcceptedIff` | apps/api/src/availability/availability.service.ts:160-186 | an offered slot can be reserved in the same state exactly when the service does not take that time at another venue |
| `Agreement.OfferedWalkInIff` | apps/api/src/bookings/bookings.service.ts:669-699 | an offered slot can be taken by a walk-in in the same state exactly when no row of the service that the query's venue or staff filter leaves out has the time, so always without filters |
| `Agreement.OfferedRescheduleIff` | apps/api/src/bookings/bookings.service.ts:344-378 | a booking that may still be rescheduled can be moved to an offered slot exactly when no other such row has the time |
| `Agreement.OfferedIsAccepted` | apps/api/src/booking-sessions/reservation.service.ts:54-101 | without a venue filter every offered slot can be reserved |
| `Agreement.OtherVenueSpoilsOffer` | apps/api/src/availability/availability.service.ts:167-183 | with one, booking an offered time at another venue leaves the slot on offer and makes reserving it fail |
| `TakenSlots.ReservedIsTakenIff` | apps/api/src/booking-sessions/reservation.service.ts:103-117 | a reservation of an offered slot takes it off a query exactly when the query is for its tenant and service and for its venue and staff member or for any |
| `TakenSlots.CompletedIsTakenIff` | apps/api/src/booking-sessions/booking-sessions.service.ts:352-366 | a slot that would be on offer but for the hold of a session goes with the session's completion exactly for queries that see the hold's venue and the session's tenant, service and staff member |
| `TakenSlots.PaidIsTakenIff` | apps/api/src/booking-sessions/booking-sessions.service.ts:741-752 | so does one that is on offer in spite of the hold with the booking of a payment |
| `TakenSlots.MovedIsTakenIff` | apps/api/src/bookings/bookings.service.ts:344-408 | a booking rescheduled by the business or the portal to an offered slot takes it off exactly the queries that see the booking's tenant, service, venue and staff member |
| `TakenSlots.ImportIsTakenIff` | apps/api/src/imports/handlers/appointment-import.handler.ts:58-70 | an imported booking takes an offered slot off exactly the queries that name neither a venue nor a staff member |
| `TakenSlots.ReservedForFiveMinutes` | apps/api/src/availability/availability.service.ts:173-186 | a reserved slot that nobody touches is back on offer exactly after five minutes to the millisecond, if the advance limits then still allow it |
| `RuleCache.RuleStore.LookUp` | apps/api/src/availability/availability.service.ts:97-129 | serves the unexpired cached rules, or if there are none or the read of the cache throws runs the query, serves its result and keeps it to be stored |
| `RuleCache.RuleStore.SetCachedRules` | apps/api/src/availability/availability.service.ts:341-346 | stores a queried result for half an hour from now, if the write succeeds |
| `RuleCache.RuleStore.CreateRule` | apps/api/src/availability/availability-rules.service.ts:65-79 | appends the rule and drops the tenant's cache keys if the delete succeeds |
| `RuleCache.RuleStore.UpdateRule` | apps/api/src/availability/availability-rules.service.ts:84-106 | changes exactly the given fields of a rule of the tenant, then invalidates |
| `RuleCache.RuleStore.RemoveRule` | apps/api/src/availability/availability-rules.service.ts:111-126 | deletes a rule of the tenant, then invalidates |
| `RuleEdits.DeactivatedIsRemoved` | apps/api/src/availability/availability-rules.service.ts:93-103 | deactivating a rule changes every query as removing it does |
| `RuleEdits.UpdatedIsRecreated` | apps/api/src/availability/availability-rules.service.ts:93-103 | after an update every query returns the same rules, each as often, as after removing the rule and creating the one with the given fields and for the rest the old ones |
| `RuleEdits.RemovedIsGone` | apps/api/src/availability/availability-rules.service.ts:111-123 | removing a rule takes that one row out of the queries that had it and nothing else out of any |
| `RuleEdits.StoredForHalfAnHour` | apps/api/src/availability/availability.service.ts:341-346 | a stored result is served for exactly half an hour to the millisecond |
| `RuleEdits.WriteDropsOwnTenant` | apps/api/src/availability/availability-rules.service.ts:128-139 | a write whose invalidation succeeds empties the cache for every key of its tenant and for no other key |
| `RuleEdits.StoredOnce` | apps/api/src/availability/availability.service.ts:98-129 | a request stores what it found once at most |
| `RuleEdits.LookLeavesResult` | apps/api/src/availability/availability.service.ts:316-336 | a request leaves a result to be stored exactly when its read of the cache throws or finds nothing unexpired, and that is what the table answers at that instant |
| `RuleCache.FreshThroughoutIff` | apps/api/src/availability/availability.service.ts:102-113 | with query and store as two steps, every read is served what the query returns, in every state of a run, exactly when no request stores a result that a write has outdated since its query and no write that changes a query with an unexpired entry fails to invalidate it |
| `RuleCache.ServedIsCurrent` | apps/api/src/availability/availability-rules.service.ts:133-139 | so while no invalidation fails and no write of a tenant falls between a query of that tenant and its store, every read is served what the database would return |
| `RuleCache.StaleAfterLateStore` | apps/api/src/availability/availability.service.ts:102-113 | a write in between is enough to leave later reads stale, even when its invalidation succeeds |
| `RuleCache.ServedIsRecent` | apps/api/src/availability/availability.service.ts:321-346 | whatever fails, reads of the cache included, and however requests interleave, what a read is served was the query's result at an instant less than 1800 s, plus the longest time from query to store, ago |
| `CachedAvailability.GetAvailableSlotsCached` | apps/api/src/availability/availability.service.ts:97-133 | loading both rule lists through the cache, whichever of the four cache accesses fail, and then running the day loops returns what is offered under the rules those reads serve |
| `CachedAvailability.CurrentOffers` | apps/api/src/availability/availability.service.ts:97-133 | while reads are current, the slots offered are those of the rules in the table, whichever reads fail |
| `CachedAvailability.FailedReadIsCurrent` | apps/api/src/availability/availability.service.ts:316-336 | each rule list whose read of the cache throws is the one in the table, whether or not the read of the other throws |
| `CachedAvailability.OfferedWronglyIff` | apps/api/src/availability/availability.service.ts:97-133 | a cache offers a slot the table would not exactly when nothing else is against the slot and only the served rules have a window for it |
| `CachedAvailability.WithheldWronglyIff` | apps/api/src/availability/availability.service.ts:97-133 | and withholds one exactly when only the rules in the table have a window for it |
| `CachedAvailability.RecentOffers` | apps/api/src/availability/availability.service.ts:97-133 | over every run, the slots offered are those that the rule tables of two earlier states would offer, each less than 1800 s, plus the longest time from query to store, before its list was read |
| `CachedAvailability.RemovedButOffered` | apps/api/src/availability/availability.service.ts:116-130 | a slot that a write takes away is still offered if the write comes between the query for the tenant's rules and its store, though its invalidation succeeds |
| `CachedAvailability.RemovedRuleStillOffered` | apps/api/src/availability/availability.service.ts:116-130 | a run from an empty store in which the only rule is removed and its slot still offered |
| `RuleCache.StaleAfterFailedInvalidation` | apps/api/src/availability/availability-rules.service.ts:133-139 | one failed invalidation of a write that changes a cached query does leave its reads stale |
| `RuleCache.OtherTenantsQueries` | apps/api/src/availability/availability-rules.service.ts:129-139 | a write by one tenant changes no query of another, so dropping that tenant's keys is enough |
| `RuleCache.SelectedSorted` | apps/api/src/availability/availability.service.ts:103-126 | rules are served by day and start time |
| `RuleEdits.InOrder` | apps/api/src/availability/availability.service.ts:110-126 | earlier days come first in a query, and within a day earlier start times |
| `RuleCache.SelectedIff` | apps/api/src/availability/availability.service.ts:103-126 | exactly the active rules of the key's scope and venue are served |
| `CalendarSync.CalendarService.SyncCalendarEvents` | apps/api/src/calendar/calendar.service.ts:886-1019 | sends the token it finds stored, applies every page in order, stores the new token, and on an invalid token drops the stored one and starts over; whenever the code returns at all |
| `CalendarSync.CalendarService.SyncInboundEvents` | apps/api/src/calendar/calendar.service.ts:535-570 | syncs each calendar in turn, adds up the counts and stops at the first failure |
| `CalendarSync.LastChangeWins` | apps/api/src/calendar/calendar.service.ts:932-995 | what is stored for an external id is what its last usable change in the feed asks for, or what was stored before; never more than one row |
| `CalendarSync.SyncKeepsAtMostOne` | apps/api/src/calendar/calendar.service.ts:961-994 | every sync, with restarts and failures and after any number of attempts, keeps at most one inbound row per connection and external id |
| `CalendarSync.PagingIsInvisible` | apps/api/src/calendar/calendar.service.ts:907-996 | how a feed is cut into pages changes neither rows nor tokens nor counts |
| `CalendarSync.ReplayChangesNothing` | apps/api/src/calendar/calendar.service.ts:969-994 | replaying a feed at a later instant changes no title or time |
| `CalendarSync.SyncKeepsOthers` | apps/api/src/calendar/calendar.service.ts:937-967 | outbound rows, rows of other connections and tokens of other calendars are untouched |
| `SyncResults.SyncStoresToken` | apps/api/src/calendar/calendar.service.ts:998-1018 | a sync that returns leaves its calendar the sync token that its last listing ended with; when that listing brought none or broke off, the token that was sent with it, the stored one or after a restart none; it fails exactly when its last listing broke off |
| `SyncResults.NextSyncSends` | apps/api/src/calendar/calendar.service.ts:898-921 | so the first attempt of the calendar's next sync sends exactly that token, at any later time and whatever other calendar was synced in between |
| `SyncResults.EveryPageCounts` | apps/api/src/calendar/calendar.service.ts:905-1018 | whether a sync finishes, breaks off or goes on restarting, the table is what the pages of all its attempts make of it one after the other: nothing stored before an error is lost and no change is applied twice |
| `SyncResults.LastChangeIsStored` | apps/api/src/calendar/calendar.service.ts:925-994 | after a feed the event of its last change is stored with its title, if it has one, and its dateTime or else its date at either end, gone if it was cancelled, and untouched if the change has no id or lacks an end |
| `SyncResults.RowsAreStamped` | apps/api/src/calendar/calendar.service.ts:969-994 | every row a sync writes belongs to the connection's tenant and carries the instant of the sync; the other rows are as they were |
| `SyncResults.CountsAreTally` | apps/api/src/calendar/calendar.service.ts:895-994 | the counts say how many events of the feed were new, how many were known and how many known ones it cancelled, each judged by the last change before it |
| `CalendarSync.FoldCountsRows` | apps/api/src/calendar/calendar.service.ts:895-897 | rows after = rows before + added - deleted, even over tables with duplicates |
| `CalendarSync.RestartAgreesIff` | apps/api/src/calendar/calendar.service.ts:1002-1013 | a restarted sync agrees with a plain full sync on an id exactly when the full listing has a usable change for it or the pages before the restart left it as it was |
| `CalendarSync.RestartCountsIff` | apps/api/src/calendar/calendar.service.ts:1005-1018 | the counts of a restarted sync account for the table exactly when the dropped pages added as many rows as they deleted |
| `CalendarSync.KeptAndUncounted` | apps/api/src/calendar/calendar.service.ts:1002-1018 | a restarted sync that keeps an event the full listing does not have and reports that it added nothing |
| `CalendarSync.SyncAllKeepsRows` | apps/api/src/calendar/calendar.service.ts:548-557 | syncing all calendars of a connection keeps at most one row per external id and touches nobody else's rows |
| `CalendarSync.SyncAllCountsRows` | apps/api/src/calendar/calendar.service.ts:554-569 | when no calendar restarts, the total counts account for the whole table |
| `CalendarSync.StartsOverIff` | apps/api/src/calendar/calendar.service.ts:1002-1013 | a sync has not returned after n attempts exactly when all of them were told their token is invalid: the stored one first, none after the delete; so the code may restart for ever |
| `CalendarSync.AtMostOneRestart` | apps/api/src/calendar/calendar.service.ts:1005-1013 | if no listing without a token reports an invalid token, a sync returns after at most one restart, with the attempt that sends the stored token or the one that follows with none; without a stored token it never restarts |
| `CalendarSync.SyncAllReturns` | apps/api/src/calendar/calendar.service.ts:548-557 | then the sync of all calendars returns, and more than two attempts each change nothing |
| `PushLimit.BrowserPushService.SendToUser` | apps/api/src/browser-push/browser-push.service.ts:117-223 | sends to every subscription below the limit, drops those that are gone unless the delete fails, and adds the recorded sends to a counter whose hour starts anew, or throws if it cannot be written |
| `PushLimit.HourlyLimitFromStart` | apps/api/src/browser-push/browser-push.service.ts:129-220 | over every run of sequential calls, no hour, wherever it starts, sees more than 4 + S recorded pushes and S more for each failed counter write, S bounding the subscriptions |
| `PushLimit.CallKeepsCover` | apps/api/src/browser-push/browser-push.service.ts:203-220 | each recorded send that is counted pushes the counter's expiry past the end of every running hour it falls in; a failed write leaves at most S uncounted |
| `PushLimit.HourlyLimitIff` | apps/api/src/browser-push/browser-push.service.ts:129-220 | for users with at most S subscriptions and at most f failed counter writes an hourly limit holds over all sequential runs exactly when it is at least 4 + S + f * S or S is zero |
| `PushLimit.FiveAnHourIff` | apps/api/src/browser-push/browser-push.service.ts:37-37 | so the documented five an hour hold exactly for one subscription and no failed counter write, or for none |
| `PushLimit.DeliveriesIff` | apps/api/src/browser-push/browser-push.service.ts:174-180 | deliveries, recorded or not, are limited by that bound plus the number of those whose bookkeeping fails, and by nothing less |
| `PushLimit.UnrecordedUnlimited` | apps/api/src/browser-push/browser-push.service.ts:174-180 | deliveries whose bookkeeping fails leave no counter and can go on without end in one instant |
| `PushCalls.CallKeepsIff` | apps/api/src/browser-push/browser-push.service.ts:182-198 | a subscription survives a call exactly when no send to it found its endpoint gone, or when an unexpired counter of five stops the call |
| `PushCalls.DeliveredAtIff` | apps/api/src/browser-push/browser-push.service.ts:148-200 | a call records exactly the deliveries of its sends, each at the instant its send ended, and none when stopped |
| `PushCalls.CounterShows` | apps/api/src/browser-push/browser-push.service.ts:203-220 | after a call that records pushes and can write the counter, the counter shows that many more than before for exactly an hour from its end, and any other call leaves it alone |
| `PushCalls.OneRowEach` | apps/api/src/browser-push/browser-push.service.ts:64-99 | over every run an endpoint has one subscription at most, however often it is registered, so no device gets a push of a call twice |
| `CancellationPolicy.RefundWithinTotal` | apps/api/src/bookings/cancellation-policy.evaluator.ts:96-141 | 0 <= refund <= total |
| `CancellationPolicy.EarlierRefundsMore` | apps/api/src/bookings/cancellation-policy.evaluator.ts:112-141 | cancelling earlier never refunds less |
| `CancellationPolicy.RefundAndFeeAddUp` | apps/api/src/bookings/cancellation-policy.evaluator.ts:96-141 | with a percentage of at most 100, refund + fee is the total, or one cent more exactly when the cancellation comes between the two windows of the policy and its fee falls on a half cent |
| `CancellationPolicy.OneCentTwice` | apps/api/src/bookings/cancellation-policy.evaluator.ts:125-140 | half of one cent is refunded and kept as a whole cent each |
| `CancellationPolicy.NothingBackAboveHundred` | apps/api/src/bookings/cancellation-policy.evaluator.ts:129-140 | above 100 percent a cancellation between the two windows refunds nothing and its fee is at least the total |
| `CancellationPolicy.NormalizeIsIdempotent` | apps/api/src/bookings/cancellation-policy.evaluator.ts:45-78 | normalizing a normalized policy changes nothing, whatever mix of names it came from |
| `CancellationPolicy.RefundFollows` | apps/api/src/bookings/cancellation-policy.evaluator.ts:45-141 | from the stored keys, new or legacy, and the hours left: everything is refunded in time, nothing within the no-refund window, and in between all but the fee asked for, a flat fee up to the total or a percentage, each rounded to the nearest cent and halves up |
| `Contracts.ContractsService.SignContract` | apps/api/src/contracts/contracts.service.ts:223-319 | only in SENT or PARTIALLY_SIGNED: adds the signature and becomes SIGNED or PARTIALLY_SIGNED by the quotas |
| `Contracts.ContractsService.CheckRequirements` | apps/api/src/contracts/contracts.service.ts:280-301 | the counting and comparing loops decide exactly whether every role has its quota |
| `Contracts.ContractsService.SendContract` | apps/api/src/contracts/contracts.service.ts:198-221 | only DRAFT becomes SENT |
| `Contracts.ContractsService.VoidContract` | apps/api/src/contracts/contracts.service.ts:321-346 | anything but VOID becomes VOID |
| `Contracts.ContractsService.AmendContract` | apps/api/src/contracts/contracts.service.ts:348-384 | only SIGNED becomes AMENDED |
| `Contracts.ContractsService.PortalSignContract` | apps/api/src/client-portal/client-portal.service.ts:731-797 | a client who has not signed yet may sign while SENT or PARTIALLY_SIGNED, and the contract becomes SIGNED at once |
| `Contracts.StatusIsHonestIff` | apps/api/src/contracts/contracts.service.ts:269-303 | in every state of a run SIGNED and AMENDED mean all quotas are met and PARTIALLY_SIGNED that there is a signature and some role is short, exactly when each signature given in the portal is the last one missing |
| `Contracts.PortalSignsEarly` | apps/api/src/client-portal/client-portal.service.ts:777-790 | a client's signature in the portal makes a contract SIGNED that still needs a vendor's |
| `Contracts.NoLateSignature` | apps/api/src/contracts/contracts.service.ts:242-246 | once SIGNED, AMENDED or VOID no signature is ever added |
| `Contracts.OrderDoesNotMatter` | apps/api/src/contracts/contracts.service.ts:290-303 | the status after an accepted signature depends only on the multiset of roles signed |
| `Contracts.SignatureFillsOne` | apps/api/src/contracts/contracts.service.ts:295-300 | a signature lowers what is missing by one if its role was short, and otherwise not at all |
| `Contracts.MissingNeverGrows` | apps/api/src/contracts/contracts.service.ts:223-319 | over every run what is missing never grows and falls by at most one per signature |
| `Contracts.SigningTakesEnough` | apps/api/src/contracts/contracts.service.ts:280-303 | a run that ends SIGNED, each portal signature being the last one missing, took at least as many signatures as were missing |
| `Contracts.StatusFollows` | apps/api/src/contracts/contracts.service.ts:198-384 | the status and the signatures after each operation, case by case; a signature signs the contract exactly when then no role lacks any |
| `Contracts.VoidedForGood` | apps/api/src/contracts/contracts.service.ts:321-346 | voiding works in every status, keeps the signatures and is never undone |
| `Contracts.AmendedUntilVoid` | apps/api/src/contracts/contracts.service.ts:348-384 | an amended contract takes no operation but voiding |
| `IcalFeed.PassesAreOnePass` | apps/api/src/calendar/ical-feed.service.ts:114-120 | the four global replacements equal one escape per character |
| `IcalFeed.RoundTrip` | apps/api/src/calendar/ical-feed.service.ts:114-120 | a decoder per section 3.3.11 of RFC 5545 recovers every text, and the output has no raw line feed, no bare comma or semicolon and no unknown escape |
| `IcalFeed.GenerateFeed` | apps/api/src/calendar/ical-feed.service.ts:72-107 | header, nine lines per booking in order, footer |
| `IcalFeed.FeedKeepsItsLines` | apps/api/src/calendar/ical-feed.service.ts:72-99 | every line stays one line exactly when the fields written unescaped (tenant name in PRODID, time zone, ids, dates) hold no line feed |
| `IcalFeed.SeparatorsAreLiteral` | apps/api/src/calendar/ical-feed.service.ts:72-99 | a reader of a description finds a backslash and an n before the e-mail and before the notes, and a line break exactly when the client's name, e-mail or notes hold one |
| `IcalReader.EventIsReadBack` | apps/api/src/calendar/ical-feed.service.ts:82-99 | a reader finds each property of an event exactly once and recovers its id, start, end, service and client, each under the property it belongs to |
| `IcalReader.EventsInOrder` | apps/api/src/calendar/ical-feed.service.ts:82-99 | the nine lines of the k-th booking follow the header and those of the bookings before it |
| `IcalReader.HeaderIsReadBack` | apps/api/src/calendar/ical-feed.service.ts:73-80 | a reader recovers the tenant's name in the calendar name, and the time zone |
| `TemplateHistory.TemplatesService.UpdateTemplate` | apps/api/src/communications/communication-templates.service.ts:107-176 | an accepted update stores the old content under the next version and replaces exactly the given fields |
| `TemplateHistory.TemplatesService.RollbackTemplate` | apps/api/src/communications/communication-templates.service.ts:210-264 | an accepted rollback stores the old content under the next version and restores the entry's |
| `TemplateHistory.TemplatesService.DeleteTemplate` | apps/api/src/communications/communication-templates.service.ts:178-193 | deactivates an active template |
| `TemplateHistory.VersionsAreConsecutive` | apps/api/src/communications/communication-templates.service.ts:136-141 | over every sequence of operations the versions are exactly 1 to n |
| `TemplateHistory.NothingIsLost` | apps/api/src/communications/communication-templates.service.ts:159-168 | whatever was current is still current or stored in the entry of the change that came next, and no entry moves |
| `TemplateHistory.RollbackUndoes` | apps/api/src/communications/communication-templates.service.ts:224-257 | rolling back to the newest entry undoes the last change |
| `TemplateHistory.RollbackRestores` | apps/api/src/communications/communication-templates.service.ts:224-257 | whatever was current at any earlier point can be restored by rolling back to the entry of the change that came next, at any later point at which the template is not deleted, and what is replaced is kept |
| `TemplateHistory.UpdateReplacesGiven` | apps/api/src/communications/communication-templates.service.ts:121-168 | an update replaces the subject and the body it gives and nothing else, unless the template is deleted or the sandbox refuses the body |
| `TemplateHistory.LastVersionIsGreatest` | apps/api/src/communications/communication-templates.service.ts:136-141 | the last version is the greatest there is, in whatever order the history rows come, or zero |
| `TemplateHistory.DeletedIsFinal` | apps/api/src/communications/communication-templates.service.ts:121-127 | a deleted template never changes again |
| `TemplateHistory.DeletedForGood` | apps/api/src/communications/communication-templates.service.ts:178-193 | deleting keeps content and history as they are, for good |
| `QuietHours.DeferralLandsAtEndIff` | apps/api/src/communications/quiet-hours.util.ts:94-119 | a deferral in quiet hours lands at endHour:00, outside quiet hours as the same formatter shows them and with its clamp idle, exactly unless quiet hours end at midnight and midnight is shown as hour 24 |
| `QuietHours.MisreadDefersByMinutes` | apps/api/src/communications/quiet-hours.util.ts:111-119 | in that case the whole hour after midnight is quiet and each deferral is the minimum of one minute |
| `QuietHours.LeastDeferral` | apps/api/src/communications/quiet-hours.util.ts:111-119 | when quiet hours span midnight no shorter whole-minute deferral would do, however the formatter writes midnight |
| `QuietHours.SameDayDefersADayTooLong` | apps/api/src/communications/quiet-hours.util.ts:111-119 | when they do not, the deferral is exactly one day longer than the least, however the formatter writes midnight |
| `QuietHours.CyclesDisagreeIff` | apps/api/src/communications/quiet-hours.util.ts:54-72 | writing midnight as hour 24 matters exactly in the hour after midnight: it misses the first hour of quiet hours that start at midnight and adds one to those that end there |
| `QuietHours.DeferredAtMostOnce` | apps/api/src/browser-push/browser-push.processor.ts:56-71 | a deferred push is sent when its delay is over |
| `QuietHours.PushWaitsIff` | apps/api/src/browser-push/browser-push.processor.ts:56-71 | a push is held back exactly from 21:00 to 08:00, however the formatter writes midnight |

## Left out

- The retention job (apps/api/src/jobs/cleanup-retention.processor.ts:80-92): it deletes RELEASED and EXPIRED holds and ABANDONED and EXPIRED sessions. None of these rows occupies time, but a later request that names a deleted session gets a not-found error where the model has another outcome, and a released hold may outlive its session.
- Administrative scripts: scripts/admin/import-appointments.ts inserts COMPLETED bookings without history.
- Isolation below the transaction: locking an empty query result locks nothing, so two truly concurrent inserts are not ruled out here; service handlers that read before they write (confirm, cancel, complete, the portal's, the payment deadline job's cancellation) are atomic too.
- `convertReservation`: nothing calls it.
- Abandoned-session e-mails, no-show risk scores, account anonymisation, reminders and payment bookkeeping: they write columns no modelled decision reads.
- The creation date of a booking and the approval deadline of its service: which bookings are overdue is a parameter of the approval job's query.
- The preview mode of the reserve endpoint: it answers without touching a table.
- Prices, payments and refunds as side effects of handlers, events, analytics, consent, referral codes, notes and check-in times: no modelled decision reads them.
- Time zones, daylight saving and local date getters: integer days and minutes on a UTC server; `QuietHours` assumes a fixed offset.
- Floating-point error and its epsilon in `round2`: amounts are exact reals.
- Slots carry minutes since midnight instead of HH:mm strings, and the conflict list is a set, because only membership is ever asked of it.
- Loading the service row and the booking flow (with its own 60-minute cache): parameters of the availability query.
- Cache keys are records, not strings; UUIDs never contain the separators or the words used in the key strings.
- PushLimit.HourlyLimitFromStart: calls are sequential; parallel calls that read the counter before either writes it are not modelled.
- CalendarSync.CalendarService.SyncCalendarEvents: specified for syncs that return, as `StartsOverIff` characterises them; database errors in the middle of a page are not modelled.
- The query parameters of a listing request and the time of the last sync: the answers to requests are given.
- Contract expiry dates, document hashes and amendment rows; editing a template's requirements between signatures: requirements are fixed.
- Layouts, names and channels of communication templates, and the template sandbox: its verdict is a parameter.
- Joining the feed's lines with CRLF, and formatting its dates.
- Reasons of history entries: an entry to CONFIRMED counts as a reschedule for the portal if it is a self-loop.
- Step resolution, listing and filtering endpoints, message templates, authentication, currencies, other imports and user interfaces: they hold no rows or rules that the properties above depend on.
