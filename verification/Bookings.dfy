/** Booking lifecycle: apps/api/src/bookings/bookings.service.ts. */
module Bookings {
  import opened Tables

  // ---------------------------------------------------------------------------
  // Status machine
  // ---------------------------------------------------------------------------

  /** VALID_TRANSITIONS. */
  function AllowedTargets(status: BookingStatus): set<BookingStatus> {
    match status
    case Pending => {Confirmed, Cancelled}
    case Confirmed => {InProgress, Cancelled, NoShow}
    case InProgress => {Completed, Cancelled}
    case _ => {}
  }

  predicate Terminal(status: BookingStatus) {
    status == Cancelled || status == Completed || status == NoShow
  }

  predicate BookingFound(db: Db, tenant: Id, b: Id) {
    b < |db.bookings| && db.bookings[b].tenant == tenant
  }

  /** The row moved to a new status, with the history entry for the move. */
  function Moved(row: Booking, to: BookingStatus): Booking {
    row.(status := to, history := row.history + [HistoryEntry(row.status, to)])
  }

  // ---------------------------------------------------------------------------
  // What each operation does to the tables
  // ---------------------------------------------------------------------------

  function SetRow(db: Db, b: Id, row: Booking): Outcome
    requires b < |db.bookings|
  {
    Done(db.(bookings := db.bookings[b := row]), b)
  }

  function Confirm(db: Db, tenant: Id, b: Id): Outcome {
    if !BookingFound(db, tenant, b) then Failed(NotFound)
    else if Confirmed !in AllowedTargets(db.bookings[b].status) then Failed(InvalidTransition)
    else SetRow(db, b, Moved(db.bookings[b], Confirmed))
  }

  function Cancel(db: Db, tenant: Id, b: Id): Outcome {
    if !BookingFound(db, tenant, b) then Failed(NotFound)
    else if Cancelled !in AllowedTargets(db.bookings[b].status) then Failed(InvalidTransition)
    else SetRow(db, b, Moved(db.bookings[b], Cancelled))
  }

  function Arrive(db: Db, tenant: Id, b: Id): Outcome {
    if !BookingFound(db, tenant, b) then Failed(NotFound)
    else if InProgress !in AllowedTargets(db.bookings[b].status) then Failed(InvalidTransition)
    else SetRow(db, b, Moved(db.bookings[b], InProgress).(checkIn := CheckedIn))
  }

  /** The instant from which a no-show may be recorded; grace is the service's noShowGraceMinutes. */
  function NoShowFrom(row: Booking, grace: Option<int>): int {
    if grace.Some? && grace.value > 0 then row.end + Minutes(grace.value) else row.start
  }

  function MarkNoShow(db: Db, tenant: Id, b: Id, grace: Option<int>): Outcome {
    if !BookingFound(db, tenant, b) then Failed(NotFound)
    else if NoShow !in AllowedTargets(db.bookings[b].status) then Failed(InvalidTransition)
    else if db.now < NoShowFrom(db.bookings[b], grace) then Failed(TooEarlyForNoShow)
    else SetRow(db, b, Moved(db.bookings[b], NoShow).(checkIn := CheckInNoShow))
  }

  function Finish(db: Db, tenant: Id, b: Id): Outcome {
    if !BookingFound(db, tenant, b) then Failed(NotFound)
    else if db.bookings[b].status != InProgress && db.bookings[b].status != Confirmed then Failed(InvalidTransition)
    else SetRow(db, b, Moved(db.bookings[b], Completed))
  }

  /** originalStartDate is a DATE column: it keeps the day of an instant. */
  function DayOf(t: int): int {
    t / 86_400_000
  }

  function Rescheduled(row: Booking, start: int, end: int): Booking {
    var original := if row.originalDate.Some? then row.originalDate else Some(DayOf(row.start));
    Moved(row, row.status).(start := start, end := end, originalDate := original,
        rescheduleCount := row.rescheduleCount + 1)
  }

  /** A reschedule queries conflicts for the whole service, whichever staff member the booking names. */
  function RescheduleQuery(row: Booking, start: int, end: int): Claim {
    Claim(row.tenant, row.service, None, start, end)
  }

  /** maxCount is the service's maxRescheduleCount. */
  function Reschedule(db: Db, tenant: Id, b: Id, start: int, end: int, maxCount: Option<int>): Outcome {
    if !BookingFound(db, tenant, b) then
      Failed(NotFound)
    else
      var row := db.bookings[b];
      if row.status != Confirmed && row.status != Pending then
        Failed(InvalidTransition)
      else if maxCount.Some? && row.rescheduleCount >= maxCount.value then
        Failed(RescheduleLimitReached)
      else if BookingConflict(db, RescheduleQuery(row, start, end), Some(b)) then
        Failed(SlotBooked)
      else if HoldConflict(db, RescheduleQuery(row, start, end)) then
        Failed(SlotReserved)
      else
        SetRow(db, b, Rescheduled(row, start, end))
  }

  /** The part of an active service row that a walk-in reads. */
  datatype WalkInService = WalkInService(venue: Option<Id>)

  function WalkInBooking(tenant: Id, client: Id, service: Id, venue: Option<Id>, start: int, end: int): Booking {
    Booking(tenant, client, service, venue, None, start, end, Confirmed, CheckInPending, 0, None,
            [HistoryEntry(Pending, Confirmed)], FromWalkIn)
  }

  /** row is the active service found, client the client found or created; None when the lookup failed. */
  function WalkIn(db: Db, tenant: Id, service: Id, row: Option<WalkInService>, client: Option<Id>,
      start: int, end: int): Outcome
  {
    var q := Claim(tenant, service, None, start, end);
    if row.None? then Failed(ServiceNotFound)
    else if client.None? then Failed(ClientNotFound)
    else if BookingConflict(db, q, None) then Failed(SlotBooked)
    else if HoldConflict(db, q) then Failed(SlotReserved)
    else
      var booking := WalkInBooking(tenant, client.value, service, row.value.venue, start, end);
      Done(db.(bookings := db.bookings + [booking]), |db.bookings|)
  }

  function CheckIn(db: Db, tenant: Id, b: Id): Outcome {
    if !BookingFound(db, tenant, b) then Failed(NotFound)
    else if db.bookings[b].status != Confirmed then Failed(InvalidCheckIn)
    else if db.bookings[b].checkIn != CheckInPending then Failed(InvalidCheckIn)
    else SetRow(db, b, db.bookings[b].(checkIn := CheckedIn))
  }

  function CheckOut(db: Db, tenant: Id, b: Id): Outcome {
    if !BookingFound(db, tenant, b) then Failed(NotFound)
    else if db.bookings[b].checkIn != CheckedIn then Failed(InvalidCheckIn)
    else SetRow(db, b, db.bookings[b].(checkIn := CheckedOut))
  }

  // ---------------------------------------------------------------------------
  // The service
  // ---------------------------------------------------------------------------

  class BookingsService {
    const db: Database

    constructor (db: Database)
      ensures this.db == db
    {
      this.db := db;
    }

    /** The update-and-append transaction shared by the plain status changes. */
    method MoveTo(b: Id, to: BookingStatus)
      requires b < |db.bookings|
      modifies db
      ensures db.Snapshot() == old(db.Snapshot()).(bookings := old(db.bookings)[b := Moved(old(db.bookings[b]), to)])
    {
      var from := db.bookings[b].status;
      db.bookings := db.bookings[b := db.bookings[b].(status := to)];
      db.bookings := db.bookings[b := db.bookings[b].(history := db.bookings[b].history + [HistoryEntry(from, to)])];
    }

    method ConfirmBooking(tenant: Id, b: Id) returns (r: Result)
      modifies db
      ensures Performs(old(db.Snapshot()), Confirm(old(db.Snapshot()), tenant, b), db.Snapshot(), r)
    {
      if !BookingFound(db.Snapshot(), tenant, b) {
        return Err(NotFound);
      }
      if Confirmed !in AllowedTargets(db.bookings[b].status) {
        return Err(InvalidTransition);
      }
      MoveTo(b, Confirmed);
      r := Ok(b);
    }

    method CancelBooking(tenant: Id, b: Id) returns (r: Result)
      modifies db
      ensures Performs(old(db.Snapshot()), Cancel(old(db.Snapshot()), tenant, b), db.Snapshot(), r)
    {
      if !BookingFound(db.Snapshot(), tenant, b) {
        return Err(NotFound);
      }
      if Cancelled !in AllowedTargets(db.bookings[b].status) {
        return Err(InvalidTransition);
      }
      MoveTo(b, Cancelled);
      r := Ok(b);
    }

    method MarkArrived(tenant: Id, b: Id) returns (r: Result)
      modifies db
      ensures Performs(old(db.Snapshot()), Arrive(old(db.Snapshot()), tenant, b), db.Snapshot(), r)
    {
      if !BookingFound(db.Snapshot(), tenant, b) {
        return Err(NotFound);
      }
      if InProgress !in AllowedTargets(db.bookings[b].status) {
        return Err(InvalidTransition);
      }
      MoveTo(b, InProgress);
      db.bookings := db.bookings[b := db.bookings[b].(checkIn := CheckedIn)];
      r := Ok(b);
    }

    method MarkNoShowBooking(tenant: Id, b: Id, grace: Option<int>) returns (r: Result)
      modifies db
      ensures Performs(old(db.Snapshot()), MarkNoShow(old(db.Snapshot()), tenant, b, grace), db.Snapshot(), r)
    {
      if !BookingFound(db.Snapshot(), tenant, b) {
        return Err(NotFound);
      }
      var row := db.bookings[b];
      if NoShow !in AllowedTargets(row.status) {
        return Err(InvalidTransition);
      }
      if grace.Some? && grace.value > 0 {
        var deadline := row.end + Minutes(grace.value);
        if db.now < deadline {
          return Err(TooEarlyForNoShow);
        }
      } else if db.now < row.start {
        return Err(TooEarlyForNoShow);
      }
      MoveTo(b, NoShow);
      db.bookings := db.bookings[b := db.bookings[b].(checkIn := CheckInNoShow)];
      r := Ok(b);
    }

    method MarkCompleted(tenant: Id, b: Id) returns (r: Result)
      modifies db
      ensures Performs(old(db.Snapshot()), Finish(old(db.Snapshot()), tenant, b), db.Snapshot(), r)
    {
      if !BookingFound(db.Snapshot(), tenant, b) {
        return Err(NotFound);
      }
      if db.bookings[b].status !in {InProgress, Confirmed} {
        return Err(InvalidTransition);
      }
      MoveTo(b, Completed);
      r := Ok(b);
    }

    method RescheduleBooking(tenant: Id, b: Id, start: int, end: int, maxCount: Option<int>) returns (r: Result)
      modifies db
      ensures Performs(old(db.Snapshot()), Reschedule(old(db.Snapshot()), tenant, b, start, end, maxCount),
              db.Snapshot(), r)
    {
      if !BookingFound(db.Snapshot(), tenant, b) {
        return Err(NotFound);
      }
      var row := db.bookings[b];
      if row.status !in {Confirmed, Pending} {
        return Err(InvalidTransition);
      }
      if maxCount.Some? && row.rescheduleCount >= maxCount.value {
        return Err(RescheduleLimitReached);
      }
      ghost var q := RescheduleQuery(row, start, end);
      var conflicts := set x | 0 <= x < |db.bookings| && x != b && (var other := db.bookings[x];
        other.tenant == tenant && other.service == row.service && other.status in {Confirmed, InProgress, Pending}
        && other.start < end && other.end > start);
      SelectedBookings(db.Snapshot(), q, Some(b), conflicts);
      if conflicts != {} {
        return Err(SlotBooked);
      }
      var reservationConflicts := set h | 0 <= h < |db.holds| && (var other := db.holds[h];
        other.tenant == tenant && other.service == row.service && other.status == Held && other.expiresAt > db.now
        && other.start < end && other.end > start);
      SelectedHolds(db.Snapshot(), q, reservationConflicts);
      if reservationConflicts != {} {
        return Err(SlotReserved);
      }
      var original := if row.originalDate.Some? then row.originalDate else Some(DayOf(row.start));
      MoveTo(b, row.status);
      db.bookings := db.bookings[b := db.bookings[b].(start := start, end := end, originalDate := original,
                                                      rescheduleCount := row.rescheduleCount + 1)];
      r := Ok(b);
    }

    method CreateWalkIn(tenant: Id, service: Id, row: Option<WalkInService>, client: Option<Id>, start: int, end: int)
      returns (r: Result)
      modifies db
      ensures Performs(old(db.Snapshot()), WalkIn(old(db.Snapshot()), tenant, service, row, client, start, end),
              db.Snapshot(), r)
    {
      if row.None? {
        return Err(ServiceNotFound);
      }
      if client.None? {
        return Err(ClientNotFound);
      }
      ghost var q := Claim(tenant, service, None, start, end);
      var bookingConflicts := set b | 0 <= b < |db.bookings| && (var row := db.bookings[b];
        row.tenant == tenant && row.service == service && row.status in {Confirmed, InProgress, Pending}
        && row.start < end && row.end > start);
      SelectedBookings(db.Snapshot(), q, None, bookingConflicts);
      if bookingConflicts != {} {
        return Err(SlotBooked);
      }
      var reservationConflicts := set h | 0 <= h < |db.holds| && (var row := db.holds[h];
        row.tenant == tenant && row.service == service && row.status == Held && row.expiresAt > db.now
        && row.start < end && row.end > start);
      SelectedHolds(db.Snapshot(), q, reservationConflicts);
      if reservationConflicts != {} {
        return Err(SlotReserved);
      }
      var booking := |db.bookings|;
      db.bookings := db.bookings + [Booking(tenant, client.value, service, row.value.venue, None, start, end,
                                            Confirmed, CheckInPending, 0, None, [], FromWalkIn)];
      db.bookings := db.bookings[booking := db.bookings[booking].(history := [HistoryEntry(Pending, Confirmed)])];
      ghost var walkIn := WalkInBooking(tenant, client.value, service, row.value.venue, start, end);
      assert db.bookings == old(db.bookings) + [walkIn];
      r := Ok(booking);
    }

    method CheckInBooking(tenant: Id, b: Id) returns (r: Result)
      modifies db
      ensures Performs(old(db.Snapshot()), CheckIn(old(db.Snapshot()), tenant, b), db.Snapshot(), r)
    {
      if !BookingFound(db.Snapshot(), tenant, b) {
        return Err(NotFound);
      }
      if db.bookings[b].status != Confirmed || db.bookings[b].checkIn != CheckInPending {
        return Err(InvalidCheckIn);
      }
      db.bookings := db.bookings[b := db.bookings[b].(checkIn := CheckedIn)];
      r := Ok(b);
    }

    method CheckOutBooking(tenant: Id, b: Id) returns (r: Result)
      modifies db
      ensures Performs(old(db.Snapshot()), CheckOut(old(db.Snapshot()), tenant, b), db.Snapshot(), r)
    {
      if !BookingFound(db.Snapshot(), tenant, b) {
        return Err(NotFound);
      }
      if db.bookings[b].checkIn != CheckedIn {
        return Err(InvalidCheckIn);
      }
      db.bookings := db.bookings[b := db.bookings[b].(checkIn := CheckedOut)];
      r := Ok(b);
    }
  }

  // ---------------------------------------------------------------------------
  // What a booking row and its history promise
  // ---------------------------------------------------------------------------

  predicate IsSelfLoop(e: HistoryEntry) {
    e.from == e.to
  }

  /** The edges a history may record: the table's, the completion shortcut, and a reschedule's self-loop. */
  predicate AllowedEdge(e: HistoryEntry) {
    || e.to in AllowedTargets(e.from)
    || (e.from == Confirmed && e.to == Completed)
    || (e.from == e.to && (e.from == Confirmed || e.from == Pending))
  }

  /**
   The status reached by replaying a history from a status, or None if an entry does not start where the last ended.
   */
  function Replay(from: BookingStatus, history: seq<HistoryEntry>): Option<BookingStatus>
    decreases |history|
  {
    if history == [] then Some(from)
    else
      var last := history[|history| - 1];
      if Replay(from, history[..|history| - 1]) == Some(last.from) then Some(last.to) else None
  }

  function SelfLoops(history: seq<HistoryEntry>): nat
    decreases |history|
  {
    if history == [] then 0
    else SelfLoops(history[..|history| - 1]) + if IsSelfLoop(history[|history| - 1]) then 1 else 0
  }

  /** The status a booking was inserted with, as its history shows it. */
  function Initial(b: Booking): BookingStatus {
    if b.history == [] then b.status else b.history[0].from
  }

  /** The record of a booking: its history replays to its status over allowed edges, and its counters agree with it. */
  ghost predicate Consistent(b: Booking) {
    && (Initial(b) == Pending || Initial(b) == Confirmed)
    && Replay(Initial(b), b.history) == Some(b.status)
    && (forall i :: 0 <= i < |b.history| ==> AllowedEdge(b.history[i]))
    && b.rescheduleCount <= SelfLoops(b.history)
    && (b.originalDate.Some? <==> b.rescheduleCount > 0)
    && (b.status == NoShow ==> b.checkIn == CheckInNoShow)
  }

  lemma SelfLoopsOfMore(history: seq<HistoryEntry>, e: HistoryEntry)
    ensures SelfLoops(history + [e]) == SelfLoops(history) + if IsSelfLoop(e) then 1 else 0
  {
    assert (history + [e])[..|history|] == history;
  }

  /** Recording one more allowed move keeps the record consistent. */
  lemma MovedIsConsistent(b: Booking, to: BookingStatus)
    requires Consistent(b) && AllowedEdge(HistoryEntry(b.status, to))
    ensures var m := Moved(b, to);
            && Initial(m) == Initial(b)
            && Replay(Initial(m), m.history) == Some(to)
            && (forall i :: 0 <= i < |m.history| ==> AllowedEdge(m.history[i]))
            && SelfLoops(m.history) == SelfLoops(b.history) + if b.status == to then 1 else 0
  {
    var m := Moved(b, to);
    assert m.history[..|m.history| - 1] == b.history;
    if b.history == [] {
      assert m.history[0].from == b.status;
    } else {
      assert m.history[0] == b.history[0];
    }
  }
}
