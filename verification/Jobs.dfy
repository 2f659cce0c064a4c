/**
 The writers of bookings outside the services: the two jobs that first query all tenants for bookings and then run one
 transaction for each, apps/api/src/jobs/process-completed-bookings.processor.ts and
 enforce-approval-deadlines.processor.ts, and the appointment import,
 apps/api/src/imports/handlers/appointment-import.handler.ts.
 */
module Jobs {
  import opened Tables
  import opened Bookings

  // ---------------------------------------------------------------------------
  // What each step does to the tables
  // ---------------------------------------------------------------------------

  /** What detectNoShows asks for: a confirmed booking nobody has checked in, a quarter of an hour past its end. */
  predicate Missed(b: Booking, now: int) {
    b.status == Confirmed && b.checkIn == CheckInPending && b.end + Minutes(15) < now
  }

  /** What auto-completion asks for. */
  predicate Ended(b: Booking, now: int) {
    b.status == Confirmed && b.end < now && b.checkIn != CheckInNoShow
  }

  function PickMissed(db: Db): Outcome {
    var found := set b: Id | b < |db.bookings| && Missed(db.bookings[b], db.now);
    Done(db.(picked := db.picked.(missed := db.picked.missed + found)), 0)
  }

  function PickEnded(db: Db): Outcome {
    var found := set b: Id | b < |db.bookings| && Ended(db.bookings[b], db.now);
    Done(db.(picked := db.picked.(ended := db.picked.ended + found)), 0)
  }

  /** overdue are the bookings of services with manual approval that are older than the service's approval deadline. */
  function PickUnapproved(db: Db, overdue: set<Id>): Outcome {
    Done(db.(picked := db.picked.(unapproved := db.picked.unapproved +
      set b: Id | b in overdue && b < |db.bookings| && db.bookings[b].status == Pending)), 0)
  }

  /** The update repeats the query's conditions, except for the time. */
  function MarkMissed(db: Db, b: Id): Outcome {
    if b >= |db.bookings| || b !in db.picked.missed then Failed(NotFound)
    else if db.bookings[b].status == Confirmed && db.bookings[b].checkIn == CheckInPending then
      SetRow(db, b, db.bookings[b].(checkIn := CheckInNoShow))
    else Done(db, b)
  }

  /** Only a CONFIRMED row is updated, but the history entry is inserted in any case. */
  function JobCompleted(row: Booking): Booking {
    row.(status := if row.status == Confirmed then Completed else row.status,
         history := row.history + [HistoryEntry(Confirmed, Completed)])
  }

  function CompleteEnded(db: Db, b: Id): Outcome {
    if b >= |db.bookings| || b !in db.picked.ended then Failed(NotFound)
    else SetRow(db, b, JobCompleted(db.bookings[b]))
  }

  /** The row is cancelled whatever its status is by now, and recorded as having been PENDING. */
  function JobCancelled(row: Booking): Booking {
    row.(status := Cancelled, history := row.history + [HistoryEntry(Pending, Cancelled)])
  }

  function CancelUnapproved(db: Db, b: Id): Outcome {
    if b >= |db.bookings| || b !in db.picked.unapproved then Failed(NotFound)
    else SetRow(db, b, JobCancelled(db.bookings[b]))
  }

  function ImportedBooking(tenant: Id, client: Id, service: Id, start: int, duration: int): Booking {
    Booking(tenant, client, service, None, None, start, start + Minutes(duration), Confirmed, CheckInPending, 0, None,
        [], FromImport)
  }

  /** client and the service with its duration are those found by e-mail and name, if any. No conflict is looked for. */
  function Import(db: Db, tenant: Id, client: Option<Id>, service: Option<(Id, int)>, start: int): Outcome {
    if client.None? then Failed(ClientNotFound)
    else if service.None? then Failed(ServiceNotFound)
    else
      var booking := ImportedBooking(tenant, client.value, service.value.0, start, service.value.1);
      Done(db.(bookings := db.bookings + [booking]), |db.bookings|)
  }

  // ---------------------------------------------------------------------------
  // The handlers
  // ---------------------------------------------------------------------------

  class ProcessCompletedBookingsHandler {
    const db: Database

    constructor (db: Database)
      ensures this.db == db
    {
      this.db := db;
    }

    /** The query of detectNoShows. */
    method QueryMissed()
      modifies db
      ensures Performs(old(db.Snapshot()), PickMissed(old(db.Snapshot())), db.Snapshot(), Ok(0))
    {
      var found := set b: Id | b < |db.bookings| && (var row := db.bookings[b];
        row.status == Confirmed && row.checkIn == CheckInPending && row.end + 15 * 60_000 < db.now);
      db.picked := db.picked.(missed := db.picked.missed + found);
    }

    /** The transaction of detectNoShows for one booking. */
    method MarkMissedBooking(b: Id)
      requires b < |db.bookings| && b in db.picked.missed
      modifies db
      ensures Performs(old(db.Snapshot()), MarkMissed(old(db.Snapshot()), b), db.Snapshot(), Ok(b))
    {
      if db.bookings[b].status == Confirmed && db.bookings[b].checkIn == CheckInPending {
        db.bookings := db.bookings[b := db.bookings[b].(checkIn := CheckInNoShow)];
      }
    }

    /** The query of auto-completion. */
    method QueryEnded()
      modifies db
      ensures Performs(old(db.Snapshot()), PickEnded(old(db.Snapshot())), db.Snapshot(), Ok(0))
    {
      var found := set b: Id | b < |db.bookings| && (var row := db.bookings[b];
        row.status == Confirmed && row.end < db.now && row.checkIn != CheckInNoShow);
      db.picked := db.picked.(ended := db.picked.ended + found);
    }

    /** The transaction of auto-completion for one booking. */
    method CompleteEndedBooking(b: Id)
      requires b < |db.bookings| && b in db.picked.ended
      modifies db
      ensures Performs(old(db.Snapshot()), CompleteEnded(old(db.Snapshot()), b), db.Snapshot(), Ok(b))
    {
      if db.bookings[b].status == Confirmed {
        db.bookings := db.bookings[b := db.bookings[b].(status := Completed)];
      }
      var entry := HistoryEntry(Confirmed, Completed);
      db.bookings := db.bookings[b := db.bookings[b].(history := db.bookings[b].history + [entry])];
    }
  }

  class EnforceApprovalDeadlinesHandler {
    const db: Database

    constructor (db: Database)
      ensures this.db == db
    {
      this.db := db;
    }

    method QueryUnapproved(overdue: set<Id>)
      modifies db
      ensures Performs(old(db.Snapshot()), PickUnapproved(old(db.Snapshot()), overdue), db.Snapshot(), Ok(0))
    {
      var found := set b: Id | b in overdue && b < |db.bookings| && db.bookings[b].status == Pending;
      db.picked := db.picked.(unapproved := db.picked.unapproved + found);
    }

    method CancelUnapprovedBooking(b: Id)
      requires b < |db.bookings| && b in db.picked.unapproved
      modifies db
      ensures Performs(old(db.Snapshot()), CancelUnapproved(old(db.Snapshot()), b), db.Snapshot(), Ok(b))
    {
      db.bookings := db.bookings[b := db.bookings[b].(status := Cancelled)];
      var entry := HistoryEntry(Pending, Cancelled);
      db.bookings := db.bookings[b := db.bookings[b].(history := db.bookings[b].history + [entry])];
    }
  }

  class AppointmentImportHandler {
    const db: Database

    constructor (db: Database)
      ensures this.db == db
    {
      this.db := db;
    }

    method ImportAppointment(tenant: Id, client: Option<Id>, service: Option<(Id, int)>, start: int) returns (r: Result)
      modifies db
      ensures Performs(old(db.Snapshot()), Import(old(db.Snapshot()), tenant, client, service, start), db.Snapshot(), r)
    {
      if client.None? {
        return Err(ClientNotFound);
      }
      if service.None? {
        return Err(ServiceNotFound);
      }
      var endTime := start + Minutes(service.value.1);
      r := Ok(|db.bookings|);
      db.bookings := db.bookings + [Booking(tenant, client.value, service.value.0, None, None, start, endTime,
                                            Confirmed, CheckInPending, 0, None, [], FromImport)];
    }
  }
}
