/** Rescheduling by the client: requestReschedule of apps/api/src/client-portal/client-portal.service.ts. */
module Portal {
  import opened Tables
  import opened Bookings

  /**
   The reschedules that the portal counts: history entries to CONFIRMED with a reschedule's reason, which are
   self-loops.
   */
  function ConfirmedLoops(history: seq<HistoryEntry>): nat
    decreases |history|
  {
    if history == [] then 0
    else
      var counts := history[|history| - 1] == HistoryEntry(Confirmed, Confirmed);
      ConfirmedLoops(history[..|history| - 1]) + if counts then 1 else 0
  }

  /** Without a limit of the service's own, the portal allows three. */
  function PortalLimit(maxCount: Option<int>): int {
    if maxCount.Some? then maxCount.value else 3
  }

  /** The row is moved and the move recorded; counter and original date stay. */
  function PortalMoved(row: Booking, start: int, end: int): Booking {
    Moved(row, row.status).(start := start, end := end)
  }

  /** maxCount is the service's maxRescheduleCount. Only bookings are asked for conflicts, not holds. */
  function RequestReschedule(db: Db, client: Id, b: Id, start: int, end: int, maxCount: Option<int>): Outcome {
    if b >= |db.bookings| || db.bookings[b].client != client then
      Failed(NotFound)
    else
      var row := db.bookings[b];
      if row.status != Pending && row.status != Confirmed then
        Failed(InvalidTransition)
      else if ConfirmedLoops(row.history) >= PortalLimit(maxCount) then
        Failed(RescheduleLimitReached)
      else if start <= db.now then
        Failed(StartNotInFuture)
      else if BookingConflict(db, RescheduleQuery(row, start, end), Some(b)) then
        Failed(SlotBooked)
      else
        SetRow(db, b, PortalMoved(row, start, end))
  }

  class ClientPortalService {
    const db: Database

    constructor (db: Database)
      ensures this.db == db
    {
      this.db := db;
    }

    /** The number of history rows that the portal's count query returns. */
    method CountReschedules(history: seq<HistoryEntry>) returns (count: nat)
      ensures count == ConfirmedLoops(history)
    {
      count := 0;
      for i := 0 to |history|
        invariant count == ConfirmedLoops(history[..i])
      {
        assert history[..i + 1][..i] == history[..i];
        if history[i] == HistoryEntry(Confirmed, Confirmed) {
          count := count + 1;
        }
      }
      assert history[..|history|] == history;
    }

    method RequestRescheduleOf(client: Id, b: Id, start: int, end: int, maxCount: Option<int>) returns (r: Result)
      modifies db
      ensures Performs(old(db.Snapshot()), RequestReschedule(old(db.Snapshot()), client, b, start, end, maxCount),
              db.Snapshot(), r)
    {
      if b >= |db.bookings| || db.bookings[b].client != client {
        return Err(NotFound);
      }
      var row := db.bookings[b];
      if row.status !in {Pending, Confirmed} {
        return Err(InvalidTransition);
      }
      var rescheduleCount := CountReschedules(row.history);
      var maxReschedules := 3;
      if maxCount.Some? {
        maxReschedules := maxCount.value;
      }
      if rescheduleCount >= maxReschedules {
        return Err(RescheduleLimitReached);
      }
      if start <= db.now {
        return Err(StartNotInFuture);
      }
      var conflicts := set x | 0 <= x < |db.bookings| && x != b && (var other := db.bookings[x];
        other.tenant == row.tenant && other.service == row.service && other.status in {Confirmed, InProgress, Pending}
        && other.start < end && other.end > start);
      SelectedBookings(db.Snapshot(), RescheduleQuery(row, start, end), Some(b), conflicts);
      if conflicts != {} {
        return Err(SlotBooked);
      }
      var entry := HistoryEntry(row.status, row.status);
      db.bookings := db.bookings[b := db.bookings[b].(history := db.bookings[b].history + [entry])];
      db.bookings := db.bookings[b := db.bookings[b].(start := start, end := end)];
      r := Ok(b);
    }
  }
}
