/**
 The rows the booking engine reads and writes, the snapshot of all of them that the
 specifications speak about, and the claims on time that the no-double-booking
 invariant compares.
 */
module Tables {

  datatype Option<+T> = None | Some(value: T)

  /** Row identifiers. No modelled step deletes a row of these tables, so a row's identifier is its position. */
  type Id = nat

  /** All instants and durations are in milliseconds. */
  function Minutes(n: int): int { n * 60_000 }
  function Days(n: int): int { n * 86_400_000 }

  /** How long a reservation is held: five minutes. */
  const HOLD_MS: int := 300_000

  datatype HoldStatus = Held | Released | HoldConfirmed | Expired
  datatype SessionStatus = SessionInProgress | SessionCompleted | SessionAbandoned
  datatype BookingStatus = Pending | Confirmed | InProgress | Completed | Cancelled | NoShow
  datatype CheckInStatus = CheckInPending | CheckedIn | CheckedOut | CheckInNoShow

  /** A row of date_reservations. Its token is unique, so the row's identifier stands for it. */
  datatype Hold = Hold(
    tenant: Id, session: Id, service: Id, venue: Option<Id>, staff: Option<Id>,
    start: int, end: int, expiresAt: int, status: HoldStatus)

  /** The keys of a session's JSON data that the engine reads; guest is the user its guest contact resolves to. */
  datatype SessionData = SessionData(client: Option<Id>, guest: Option<Id>, staff: Option<Id>)

  datatype Session = Session(
    tenant: Id, service: Option<Id>, client: Option<Id>, data: SessionData,
    status: SessionStatus, token: Option<Id>)

  /** Which code path inserted a booking. Not a column: kept so that conservation can be stated. */
  datatype Origin = FromWalkIn | FromHold(hold: Id) | FromPayment(session: Id) | FromImport

  datatype HistoryEntry = HistoryEntry(from: BookingStatus, to: BookingStatus)

  /** A row of bookings together with its booking_state_history rows, oldest first. */
  datatype Booking = Booking(
    tenant: Id, client: Id, service: Id, venue: Option<Id>, staff: Option<Id>,
    start: int, end: int, status: BookingStatus, checkIn: CheckInStatus,
    rescheduleCount: nat, originalDate: Option<int>, history: seq<HistoryEntry>, origin: Origin)

  /** The bookings that queries of the booking jobs have returned; the job's transaction for each comes later. */
  datatype Picked = Picked(missed: set<Id>, ended: set<Id>, unapproved: set<Id>)

  datatype Db = Db(now: int, holds: seq<Hold>, sessions: seq<Session>, bookings: seq<Booking>, picked: Picked)

  /** The mutable tables behind the services. */
  class Database {
    var now: int
    var holds: seq<Hold>
    var sessions: seq<Session>
    var bookings: seq<Booking>
    var picked: Picked

    constructor (now: int)
      ensures Snapshot() == Db(now, [], [], [], Picked({}, {}, {}))
    {
      this.now, holds, sessions, bookings, picked := now, [], [], [], Picked({}, {}, {});
    }

    function Snapshot(): Db
      reads this
    {
      Db(now, holds, sessions, bookings, picked)
    }
  }

  datatype Error =
    | NotFound
    | SlotReserved
    | SlotBooked
    | NoActiveReservation
    | SessionNotInProgress
    | NoServiceSelected
    | ServiceNotFound
    | ClientNotFound
    | GuestDetailsMissing
    | InvalidTransition
    | RescheduleLimitReached
    | TooEarlyForNoShow
    | InvalidCheckIn
    | StartNotInFuture

  /** What a handler does to the tables: a new snapshot and the row it returns, or an error and no change. */
  datatype Outcome = Done(db: Db, row: Id) | Failed(error: Error)

  datatype Result = Ok(row: Id) | Err(error: Error)

  /** A method that returned r and moved the tables from before to after did what o says. */
  predicate Performs(before: Db, o: Outcome, after: Db, r: Result) {
    match o
    case Done(db, row) => after == db && r == Ok(row)
    case Failed(e) => after == before && r == Err(e)
  }

  /** A method that performs an outcome has no choice of tables or result left. */
  lemma PerformsDetermines(before: Db, o: Outcome, after: Db, r: Result)
    requires Performs(before, o, after, r)
    ensures after == After(before, o) && (r.Ok? <==> o.Done?)
    ensures forall other, result :: Performs(before, o, other, result) ==> other == after && result == r
  {
  }

  function After(db: Db, o: Outcome): Db {
    if o.Done? then o.db else db
  }

  // ---------------------------------------------------------------------------
  // Claims on time
  // ---------------------------------------------------------------------------

  /** The overlap test every conflict query uses. */
  predicate Overlaps(start: int, end: int, otherStart: int, otherEnd: int) {
    start < otherEnd && end > otherStart
  }

  datatype Claim = Claim(tenant: Id, service: Id, staff: Option<Id>, start: int, end: int)

  function HoldClaim(h: Hold): Claim {
    Claim(h.tenant, h.service, h.staff, h.start, h.end)
  }

  function BookingClaim(b: Booking): Claim {
    Claim(b.tenant, b.service, b.staff, b.start, b.end)
  }

  /** Two claims on the same tenant, service and staff member (or both on none) that overlap. */
  predicate Clash(a: Claim, b: Claim) {
    && a.tenant == b.tenant && a.service == b.service && a.staff == b.staff
    && Overlaps(a.start, a.end, b.start, b.end)
  }

  /** What a conflict query for q matches: with a staff member only that member's rows, without one every row. */
  predicate Conflicts(q: Claim, c: Claim) {
    && c.tenant == q.tenant && c.service == q.service
    && (q.staff.Some? ==> c.staff == q.staff)
    && Overlaps(c.start, c.end, q.start, q.end)
  }

  predicate ActiveHold(h: Hold, now: int) {
    h.status == Held && h.expiresAt > now
  }

  predicate TakesTime(status: BookingStatus) {
    status == Confirmed || status == InProgress || status == Pending
  }

  /** SELECT ... FROM date_reservations WHERE status = 'HELD' AND expires_at > NOW() AND ... is not empty. */
  predicate HoldConflict(db: Db, q: Claim) {
    exists h :: 0 <= h < |db.holds| && ActiveHold(db.holds[h], db.now) && Conflicts(q, HoldClaim(db.holds[h]))
  }

  /** SELECT ... FROM bookings WHERE status IN ('CONFIRMED', 'IN_PROGRESS', 'PENDING') AND ... is not empty. */
  predicate BookingConflict(db: Db, q: Claim, except: Option<Id>) {
    exists b :: 0 <= b < |db.bookings| && Some(b) != except
             && TakesTime(db.bookings[b].status) && Conflicts(q, BookingClaim(db.bookings[b]))
  }

  /** The rows that a hold query for q selects. */
  predicate SelectsHolds(db: Db, q: Claim, rows: set<Id>) {
    && (forall h :: h in rows ==> h < |db.holds|)
    && (forall h :: 0 <= h < |db.holds|
          ==> (h in rows <==> ActiveHold(db.holds[h], db.now) && Conflicts(q, HoldClaim(db.holds[h]))))
  }

  predicate SelectsBookings(db: Db, q: Claim, except: Option<Id>, rows: set<Id>) {
    && (forall b :: b in rows ==> b < |db.bookings|)
    && (forall b :: 0 <= b < |db.bookings| ==>
          (b in rows <==>
            Some(b) != except && TakesTime(db.bookings[b].status) && Conflicts(q, BookingClaim(db.bookings[b]))))
  }

  lemma SelectedHolds(db: Db, q: Claim, rows: set<Id>)
    requires SelectsHolds(db, q, rows)
    ensures rows != {} <==> HoldConflict(db, q)
  {
  }

  lemma SelectedBookings(db: Db, q: Claim, except: Option<Id>, rows: set<Id>)
    requires SelectsBookings(db, q, except, rows)
    ensures rows != {} <==> BookingConflict(db, q, except)
  {
  }

  /** A row that may occupy time. */
  datatype Occupier = HoldRow(h: nat) | BookingRow(b: nat)

  predicate Occupies(db: Db, o: Occupier) {
    match o
    case HoldRow(h) => h < |db.holds| && ActiveHold(db.holds[h], db.now)
    case BookingRow(b) => b < |db.bookings| && TakesTime(db.bookings[b].status)
  }

  function ClaimOf(db: Db, o: Occupier): Claim
    requires Occupies(db, o)
  {
    match o
    case HoldRow(h) => HoldClaim(db.holds[h])
    case BookingRow(b) => BookingClaim(db.bookings[b])
  }

  /** The safety property: no two rows that occupy time clash. */
  ghost predicate NoDoubleBooking(db: Db) {
    forall o, p :: Occupies(db, o) && Occupies(db, p) && o != p ==> !Clash(ClaimOf(db, o), ClaimOf(db, p))
  }

  /** The check that keeps the property: nothing but the row to be replaced clashes with the new claim. */
  ghost predicate Unclaimed(db: Db, c: Claim, replaced: Option<Occupier>) {
    forall o :: Occupies(db, o) && Some(o) != replaced ==> !Clash(ClaimOf(db, o), c)
  }

  /** From db to db', row x took claim c and otherwise rows only kept or (for replaced) gave up theirs. */
  ghost predicate Claims(db: Db, db': Db, x: Occupier, c: Claim, replaced: Option<Occupier>) {
    && Occupies(db', x) && ClaimOf(db', x) == c
    && (replaced == Some(x) || !Occupies(db, x))
    && forall o :: o != x ==>
         && (Occupies(db', o) <==> Occupies(db, o) && Some(o) != replaced)
         && (Occupies(db', o) ==> ClaimOf(db', o) == ClaimOf(db, o))
  }

  /** From db to db', rows only kept or gave up their claims. */
  ghost predicate OnlyFrees(db: Db, db': Db) {
    forall o :: Occupies(db', o) ==> Occupies(db, o) && ClaimOf(db', o) == ClaimOf(db, o)
  }

  lemma FreeingKeepsSafety(db: Db, db': Db)
    requires NoDoubleBooking(db) && OnlyFrees(db, db')
    ensures NoDoubleBooking(db')
  {
    forall o, p | Occupies(db', o) && Occupies(db', p) && o != p
      ensures !Clash(ClaimOf(db', o), ClaimOf(db', p))
    {
      assert Occupies(db, o) && Occupies(db, p);
    }
  }

  /** Taking a claim keeps the tables safe exactly when the claim was free to take. */
  lemma ClaimingKeepsSafetyIff(db: Db, db': Db, x: Occupier, c: Claim, replaced: Option<Occupier>)
    requires NoDoubleBooking(db) && Claims(db, db', x, c, replaced)
    ensures NoDoubleBooking(db') <==> Unclaimed(db, c, replaced)
  {
    if NoDoubleBooking(db') {
      forall o | Occupies(db, o) && Some(o) != replaced ensures !Clash(ClaimOf(db, o), c) {
        assert o != x;
        assert Occupies(db', o);
      }
    }
    if Unclaimed(db, c, replaced) {
      forall o, p | Occupies(db', o) && Occupies(db', p) && o != p
        ensures !Clash(ClaimOf(db', o), ClaimOf(db', p))
      {
        if o != x { assert Occupies(db, o); }
        if p != x { assert Occupies(db, p); }
      }
    }
  }

  /** The row that a booking query leaves out. */
  function Excepted(except: Option<Id>): Option<Occupier> {
    if except.Some? then Some(BookingRow(except.value)) else None
  }

  /** The two conflict queries together find something exactly when some other occupying row conflicts. */
  lemma QueriesFindConflictsIff(db: Db, q: Claim, except: Option<Id>)
    ensures HoldConflict(db, q) || BookingConflict(db, q, except)
            <==> exists o :: Occupies(db, o) && Some(o) != Excepted(except) && Conflicts(q, ClaimOf(db, o))
  {
    if HoldConflict(db, q) {
      var h :| 0 <= h < |db.holds| && ActiveHold(db.holds[h], db.now) && Conflicts(q, HoldClaim(db.holds[h]));
      assert Occupies(db, HoldRow(h));
    }
    if BookingConflict(db, q, except) {
      var b :| 0 <= b < |db.bookings| && Some(b) != except && TakesTime(db.bookings[b].status)
          && Conflicts(q, BookingClaim(db.bookings[b]));
      assert Occupies(db, BookingRow(b));
    }
  }

  /** A claim that passed both conflict queries is free to take, whichever staff member it names. */
  lemma QueriesFindEveryClash(db: Db, q: Claim, except: Option<Id>)
    requires !HoldConflict(db, q) && !BookingConflict(db, q, except)
    ensures Unclaimed(db, q, Excepted(except))
  {
    QueriesFindConflictsIff(db, q, except);
    forall o | Occupies(db, o) && Some(o) != Excepted(except) ensures !Clash(ClaimOf(db, o), q) {
      assert !Conflicts(q, ClaimOf(db, o));
    }
  }
}
