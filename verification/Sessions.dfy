/** Booking sessions: apps/api/src/booking-sessions/booking-sessions.service.ts. */
module Sessions {
  import opened Tables
  import opened Reservations

  // ---------------------------------------------------------------------------
  // What each operation does to the tables
  // ---------------------------------------------------------------------------

  /** The part of a service row that completing a session reads. */
  datatype ServiceMode = ServiceMode(autoConfirm: bool)

  function Create(db: Db, tenant: Id, service: Option<Id>): Outcome {
    var row := Session(tenant, service, None, SessionData(None, None, None), SessionInProgress, None);
    Done(db.(sessions := db.sessions + [row]), |db.sessions|)
  }

  predicate SessionFound(db: Db, tenant: Id, s: Id) {
    s < |db.sessions| && db.sessions[s].tenant == tenant
  }

  /** A session update: each key that is present replaces the stored one (JSON data is merged key by key). */
  datatype Patch = Patch(service: Option<Id>, client: Option<Option<Id>>, guest: Option<Option<Id>>,
      staff: Option<Option<Id>>)

  function Merged(patch: Option<Option<Id>>, stored: Option<Id>): Option<Id> {
    if patch.Some? then patch.value else stored
  }

  function Update(db: Db, tenant: Id, s: Id, p: Patch): Outcome {
    if !SessionFound(db, tenant, s) then
      Failed(NotFound)
    else if db.sessions[s].status != SessionInProgress then
      Failed(SessionNotInProgress)
    else
      var row := db.sessions[s];
      var data := SessionData(Merged(p.client, row.data.client), Merged(p.guest, row.data.guest),
          Merged(p.staff, row.data.staff));
      var service := if p.service.Some? then p.service else row.service;
      Done(db.(sessions := db.sessions[s := row.(data := data, service := service)]), s)
  }

  function Abandon(db: Db, tenant: Id, s: Id): Outcome {
    if !SessionFound(db, tenant, s) then
      Failed(NotFound)
    else if db.sessions[s].status != SessionInProgress then
      Failed(SessionNotInProgress)
    else
      Done(db.(holds := ReleasedFor(db.holds, tenant, s),
               sessions := db.sessions[s := db.sessions[s].(status := SessionAbandoned)]), s)
  }

  /** The unexpired HELD holds of a session; which of them findFirst returns is not specified. */
  function ActiveHoldsOf(db: Db, tenant: Id, s: Id): set<Id> {
    set h | 0 <= h < |db.holds| && HeldForSession(db.holds[h], tenant, s) && db.holds[h].expiresAt > db.now
  }

  /** The client of a booking made from the session: the session's, else the one in its data, else its guest. */
  function ClientFor(row: Session): Option<Id> {
    if row.client.Some? then row.client else if row.data.client.Some? then row.data.client else row.data.guest
  }

  /** Only a guest checkout stores the resolved client on the session. */
  function StoredClient(row: Session): Option<Id> {
    if row.client.None? && row.data.client.None? then row.data.guest else row.client
  }

  /** The booking that completing the session inserts for its hold. */
  function BookingFrom(db: Db, s: Id, pick: Id, mode: ServiceMode): Booking
    requires s < |db.sessions| && pick < |db.holds|
    requires db.sessions[s].service.Some? && ClientFor(db.sessions[s]).Some?
  {
    var row, hold := db.sessions[s], db.holds[pick];
    Booking(row.tenant, ClientFor(row).value, row.service.value, hold.venue, row.data.staff, hold.start, hold.end,
            if mode.autoConfirm then Confirmed else Pending, CheckInPending, 0, None, [], FromHold(pick))
  }

  /** pick is the hold that findFirst returned, service the row of the session's service in its tenant. */
  function Complete(db: Db, tenant: Id, s: Id, pick: Id, service: Option<ServiceMode>): Outcome {
    if !SessionFound(db, tenant, s) then
      Failed(NotFound)
    else if db.sessions[s].status != SessionInProgress then
      Failed(SessionNotInProgress)
    else if db.sessions[s].service.None? then
      Failed(NoServiceSelected)
    else if pick !in ActiveHoldsOf(db, tenant, s) then
      Failed(NoActiveReservation)
    else if service.None? then
      Failed(ServiceNotFound)
    else if ClientFor(db.sessions[s]).None? then
      Failed(GuestDetailsMissing)
    else
      var row := db.sessions[s];
      Done(db.(bookings := db.bookings + [BookingFrom(db, s, pick, service.value)],
               holds := db.holds[pick := db.holds[pick].(status := HoldConfirmed)],
               sessions := db.sessions[s := row.(client := StoredClient(row), status := SessionCompleted,
                                                 token := Some(pick))]),
           |db.bookings|)
  }

  /** The live bookings that processPayment takes to be the session's own: same service, exactly the hold's interval. */
  function MatchingBookings(db: Db, tenant: Id, service: Id, hold: Hold): set<Id> {
    set b | 0 <= b < |db.bookings| && db.bookings[b].tenant == tenant && db.bookings[b].service == service
         && db.bookings[b].start == hold.start && db.bookings[b].end == hold.end
         && (db.bookings[b].status == Pending || db.bookings[b].status == Confirmed)
  }

  /** The table changes of processPayment, up to the call to the payment provider. */
  function Pay(db: Db, s: Id, pick: Id): Outcome {
    if s >= |db.sessions| then
      Failed(NotFound)
    else
      var row := db.sessions[s];
      if row.status != SessionInProgress then
        Failed(SessionNotInProgress)
      else if pick !in ActiveHoldsOf(db, row.tenant, s) then
        Failed(NoActiveReservation)
      else if row.service.None? then
        Failed(NoServiceSelected)
      else if ClientFor(row).None? then
        Failed(GuestDetailsMissing)
      else
        var paid := db.(sessions := db.sessions[s := row.(client := StoredClient(row))]);
        var matching := MatchingBookings(db, row.tenant, row.service.value, db.holds[pick]);
        if matching != {} then
          Done(paid, s)
        else
          var booking := BookingFrom(db, s, pick, ServiceMode(false)).(origin := FromPayment(s));
          Done(paid.(bookings := db.bookings + [booking]), s)
  }

  // ---------------------------------------------------------------------------
  // The service
  // ---------------------------------------------------------------------------

  class BookingSessionsService {
    const db: Database
    const reservations: ReservationService

    constructor (db: Database, reservations: ReservationService)
      requires reservations.db == db
      ensures this.db == db && this.reservations == reservations
    {
      this.db, this.reservations := db, reservations;
    }

    method CreateSession(tenant: Id, service: Option<Id>) returns (r: Result)
      modifies db
      ensures Performs(old(db.Snapshot()), Create(old(db.Snapshot()), tenant, service), db.Snapshot(), r)
    {
      r := Ok(|db.sessions|);
      var data := SessionData(None, None, None);
      db.sessions := db.sessions + [Session(tenant, service, None, data, SessionInProgress, None)];
    }

    method UpdateSession(tenant: Id, s: Id, p: Patch) returns (r: Result)
      modifies db
      ensures Performs(old(db.Snapshot()), Update(old(db.Snapshot()), tenant, s, p), db.Snapshot(), r)
    {
      if !SessionFound(db.Snapshot(), tenant, s) {
        return Err(NotFound);
      }
      var row := db.sessions[s];
      if row.status != SessionInProgress {
        return Err(SessionNotInProgress);
      }
      var data := SessionData(Merged(p.client, row.data.client), Merged(p.guest, row.data.guest),
          Merged(p.staff, row.data.staff));
      row := row.(data := data);
      if p.service.Some? {
        row := row.(service := p.service);
      }
      db.sessions := db.sessions[s := row];
      r := Ok(s);
    }

    method AbandonSession(tenant: Id, s: Id) returns (r: Result)
      requires reservations.db == db
      modifies db
      ensures Performs(old(db.Snapshot()), Abandon(old(db.Snapshot()), tenant, s), db.Snapshot(), r)
    {
      if !SessionFound(db.Snapshot(), tenant, s) {
        return Err(NotFound);
      }
      if db.sessions[s].status != SessionInProgress {
        return Err(SessionNotInProgress);
      }
      reservations.ReleaseAllForSession(tenant, s);
      db.sessions := db.sessions[s := db.sessions[s].(status := SessionAbandoned)];
      r := Ok(s);
    }

    method CompleteSession(tenant: Id, s: Id, service: Option<ServiceMode>) returns (r: Result, pick: Id)
      modifies db
      ensures Performs(old(db.Snapshot()), Complete(old(db.Snapshot()), tenant, s, pick, service), db.Snapshot(), r)
      ensures r == Err(NoActiveReservation) ==> ActiveHoldsOf(old(db.Snapshot()), tenant, s) == {}
    {
      pick := 0;
      if !SessionFound(db.Snapshot(), tenant, s) {
        return Err(NotFound), pick;
      }
      var row := db.sessions[s];
      if row.status != SessionInProgress {
        return Err(SessionNotInProgress), pick;
      }
      if row.service.None? {
        return Err(NoServiceSelected), pick;
      }
      var active := ActiveHoldsOf(db.Snapshot(), tenant, s);
      if active == {} {
        return Err(NoActiveReservation), pick;
      }
      pick :| pick in active;
      if service.None? {
        return Err(ServiceNotFound), pick;
      }
      if ClientFor(row).None? {
        return Err(GuestDetailsMissing), pick;
      }
      var bookingStatus := if service.value.autoConfirm then Confirmed else Pending;
      var hold := db.holds[pick];
      r := Ok(|db.bookings|);
      db.bookings := db.bookings + [Booking(tenant, ClientFor(row).value, row.service.value, hold.venue, row.data.staff,
                                            hold.start, hold.end, bookingStatus, CheckInPending, 0, None,
                                            [], FromHold(pick))];
      db.holds := db.holds[pick := db.holds[pick].(status := HoldConfirmed)];
      db.sessions := db.sessions[s := row.(client := StoredClient(row), status := SessionCompleted,
          token := Some(pick))];
    }

    method ProcessPayment(s: Id) returns (r: Result, pick: Id)
      modifies db
      ensures Performs(old(db.Snapshot()), Pay(old(db.Snapshot()), s, pick), db.Snapshot(), r)
      ensures r == Err(NoActiveReservation) ==> ActiveHoldsOf(old(db.Snapshot()), old(db.sessions[s].tenant), s) == {}
    {
      pick := 0;
      if s >= |db.sessions| {
        return Err(NotFound), pick;
      }
      var row := db.sessions[s];
      if row.status != SessionInProgress {
        return Err(SessionNotInProgress), pick;
      }
      var active := ActiveHoldsOf(db.Snapshot(), row.tenant, s);
      if active == {} {
        return Err(NoActiveReservation), pick;
      }
      pick :| pick in active;
      if row.service.None? {
        return Err(NoServiceSelected), pick;
      }
      if ClientFor(row).None? {
        return Err(GuestDetailsMissing), pick;
      }
      var hold := db.holds[pick];
      var matching := MatchingBookings(db.Snapshot(), row.tenant, row.service.value, hold);
      if matching == {} {
        db.bookings := db.bookings + [Booking(row.tenant, ClientFor(row).value, row.service.value, hold.venue,
                                              row.data.staff, hold.start, hold.end, Pending, CheckInPending,
                                              0, None, [], FromPayment(s))];
      }
      db.sessions := db.sessions[s := row.(client := StoredClient(row))];
      r := Ok(s);
    }
  }
}
