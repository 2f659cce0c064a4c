/** Slot holds: apps/api/src/booking-sessions/reservation.service.ts. */
module Reservations {
  import opened Tables

  // ---------------------------------------------------------------------------
  // What each operation does to the tables
  // ---------------------------------------------------------------------------

  datatype ReserveParams = ReserveParams(session: Id, service: Id, venue: Option<Id>, staff: Option<Id>, start: int,
      end: int)

  /** The claim a reservation request makes; without a staff member its conflict queries match every row. */
  function RequestClaim(tenant: Id, p: ReserveParams): Claim {
    Claim(tenant, p.service, p.staff, p.start, p.end)
  }

  function Reserve(db: Db, p: ReserveParams): Outcome {
    if p.session >= |db.sessions| then
      Failed(NotFound)
    else
      var tenant := db.sessions[p.session].tenant;
      var q := RequestClaim(tenant, p);
      if HoldConflict(db, q) then
        Failed(SlotReserved)
      else if BookingConflict(db, q, None) then
        Failed(SlotBooked)
      else
        var hold := Hold(tenant, p.session, p.service, p.venue, p.staff, p.start, p.end, db.now + HOLD_MS, Held);
        Done(db.(holds := db.holds + [hold]), |db.holds|)
  }

  function Release(db: Db, tenant: Id, token: Id): Outcome {
    if token < |db.holds| && db.holds[token].tenant == tenant && db.holds[token].status == Held then
      Done(db.(holds := db.holds[token := db.holds[token].(status := Released)]), token)
    else
      Failed(NotFound)
  }

  predicate HeldForSession(h: Hold, tenant: Id, session: Id) {
    h.tenant == tenant && h.session == session && h.status == Held
  }

  /** The holds after every HELD one of the session has been released. */
  function ReleasedFor(holds: seq<Hold>, tenant: Id, session: Id): (r: seq<Hold>)
    ensures |r| == |holds|
    ensures forall i :: 0 <= i < |holds| ==>
              r[i] == if HeldForSession(holds[i], tenant, session) then holds[i].(status := Released) else holds[i]
  {
    seq(|holds|, i requires 0 <= i < |holds| =>
      if HeldForSession(holds[i], tenant, session) then holds[i].(status := Released) else holds[i])
  }

  /** The holds after the expiry job: HELD rows strictly past their expiry become EXPIRED. */
  function ExpiredAt(holds: seq<Hold>, now: int): (r: seq<Hold>)
    ensures |r| == |holds|
    ensures forall i :: 0 <= i < |holds| ==>
              r[i] ==
                if holds[i].status == Held && holds[i].expiresAt < now then holds[i].(status := Expired) else holds[i]
  {
    seq(|holds|, i requires 0 <= i < |holds| =>
      if holds[i].status == Held && holds[i].expiresAt < now then holds[i].(status := Expired) else holds[i])
  }

  // ---------------------------------------------------------------------------
  // The service
  // ---------------------------------------------------------------------------

  class ReservationService {
    const db: Database

    constructor (db: Database)
      ensures this.db == db
    {
      this.db := db;
    }

    method ReserveSlot(p: ReserveParams) returns (r: Result)
      modifies db
      ensures Performs(old(db.Snapshot()), Reserve(old(db.Snapshot()), p), db.Snapshot(), r)
    {
      if p.session >= |db.sessions| {
        return Err(NotFound);
      }
      var tenant := db.sessions[p.session].tenant;
      ghost var q := RequestClaim(tenant, p);
      var conflicts: set<Id>;
      if p.staff.Some? {
        conflicts := set h | 0 <= h < |db.holds| && (var row := db.holds[h];
          row.tenant == tenant && row.service == p.service && row.staff == p.staff && row.status == Held
              && row.expiresAt > db.now
          && row.start < p.end && row.end > p.start);
      } else {
        conflicts := set h | 0 <= h < |db.holds| && (var row := db.holds[h];
          row.tenant == tenant && row.service == p.service && row.status == Held && row.expiresAt > db.now
          && row.start < p.end && row.end > p.start);
      }
      SelectedHolds(db.Snapshot(), q, conflicts);
      if conflicts != {} {
        return Err(SlotReserved);
      }
      var bookingConflicts: set<Id>;
      if p.staff.Some? {
        bookingConflicts := set b | 0 <= b < |db.bookings| && (var row := db.bookings[b];
          row.tenant == tenant && row.service == p.service && row.staff == p.staff
              && row.status in {Confirmed, InProgress, Pending}
          && row.start < p.end && row.end > p.start);
      } else {
        bookingConflicts := set b | 0 <= b < |db.bookings| && (var row := db.bookings[b];
          row.tenant == tenant && row.service == p.service && row.status in {Confirmed, InProgress, Pending}
          && row.start < p.end && row.end > p.start);
      }
      SelectedBookings(db.Snapshot(), q, None, bookingConflicts);
      if bookingConflicts != {} {
        return Err(SlotBooked);
      }
      var expiresAt := db.now + HOLD_MS;
      var row := |db.holds|;
      db.holds := db.holds + [Hold(tenant, p.session, p.service, p.venue, p.staff, p.start, p.end, expiresAt, Held)];
      r := Ok(row);
    }

    method ReleaseReservation(tenant: Id, token: Id) returns (r: Result)
      modifies db
      ensures Performs(old(db.Snapshot()), Release(old(db.Snapshot()), tenant, token), db.Snapshot(), r)
    {
      if !(token < |db.holds| && db.holds[token].tenant == tenant && db.holds[token].status == Held) {
        return Err(NotFound);
      }
      db.holds := db.holds[token := db.holds[token].(status := Released)];
      r := Ok(token);
    }

    method ReleaseAllForSession(tenant: Id, session: Id)
      modifies db
      ensures db.Snapshot() == old(db.Snapshot()).(holds := ReleasedFor(old(db.holds), tenant, session))
    {
      var rows := db.holds;
      db.holds := seq(|rows|, i requires 0 <= i < |rows| =>
        var row := rows[i];
        if row.tenant == tenant && row.session == session && row.status == Held then row.(status := Released) else row);
    }
  }

  // ---------------------------------------------------------------------------
  // Properties
  // ---------------------------------------------------------------------------

  /**
   A request is refused exactly when some occupying row of the tenant, service and (if named) staff member overlaps
   it.
   */
  lemma ReserveRefusedIff(db: Db, p: ReserveParams)
    requires p.session < |db.sessions|
    ensures var q := RequestClaim(db.sessions[p.session].tenant, p);
            Reserve(db, p).Failed? <==> exists o :: Occupies(db, o) && Conflicts(q, ClaimOf(db, o))
  {
    QueriesFindConflictsIff(db, RequestClaim(db.sessions[p.session].tenant, p), None);
  }

  /**
   An accepted request occupies exactly what it asked for and moves nobody else, and reserving never double-books,
   for any tables it is called on and any interval, even a malformed one.
   */
  lemma ReserveKeepsSafety(db: Db, p: ReserveParams)
    requires NoDoubleBooking(db)
    ensures NoDoubleBooking(After(db, Reserve(db, p)))
    ensures Reserve(db, p).Done? ==>
              Claims(db, Reserve(db, p).db, HoldRow(|db.holds|), RequestClaim(db.sessions[p.session].tenant, p), None)
  {
    var o := Reserve(db, p);
    if o.Done? {
      var q := RequestClaim(db.sessions[p.session].tenant, p);
      QueriesFindEveryClash(db, q, None);
      ClaimingKeepsSafetyIff(db, o.db, HoldRow(|db.holds|), q, None);
    }
  }

  /** A hold that is released leaves no trace: every later request gets the answer it would have got without it. */
  lemma ReleaseUndoesReserve(db: Db, p: ReserveParams, later: ReserveParams)
    requires Reserve(db, p).Done?
    ensures var release := Release(Reserve(db, p).db, db.sessions[p.session].tenant, |db.holds|);
            && release.Done?
            && (Reserve(release.db, later).Done? <==> Reserve(db, later).Done?)
            && (Reserve(db, later).Failed? ==> Reserve(release.db, later) == Reserve(db, later))
  {
    var freed := Release(Reserve(db, p).db, db.sessions[p.session].tenant, |db.holds|).db;
    if later.session < |db.sessions| {
      var q := RequestClaim(db.sessions[later.session].tenant, later);
      assert HoldConflict(freed, q) <==> HoldConflict(db, q) by {
        assert forall h :: 0 <= h < |db.holds| ==> freed.holds[h] == db.holds[h];
      }
      assert BookingConflict(freed, q, None) <==> BookingConflict(db, q, None);
    }
  }
}
