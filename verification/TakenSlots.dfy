/** When an offered slot stops being offered: what each step that takes its time leaves of the offer. */
module TakenSlots {
  import opened Tables
  import opened Reservations
  import opened Sessions
  import opened Bookings
  import opened Jobs
  import opened Portal
  import opened Protocol
  import opened SlotGrid
  import opened Availability
  import opened Agreement
  import opened Offers

  /** The world after a step on the tables. */
  function Next(w: World, op: Op): World {
    w.(db := Step(w.db, op))
  }

  /** The interval is exactly the slot's. */
  predicate IsSlot(s: Slot, start: int, end: int) {
    start == At(s.day, s.start) && end == At(s.day, s.end)
  }

  /** The row occupies exactly the slot. */
  predicate OccupiesSlot(db: Db, x: Occupier, s: Slot) {
    Occupies(db, x) && IsSlot(s, ClaimOf(db, x).start, ClaimOf(db, x).end)
  }

  /** Every other row that occupies time did so before, for the same claim at the same venue. */
  ghost predicate OthersOnlyFree(db: Db, db': Db, x: Occupier) {
    forall o :: o != x && Occupies(db', o) ==>
      Occupies(db, o) && ClaimOf(db', o) == ClaimOf(db, o) && VenueOf(db', o) == VenueOf(db, o)
  }

  predicate RowSeen(q: Query, db: Db, x: Occupier)
    requires Occupies(db, x)
  {
    var c := ClaimOf(db, x);
    SeenBy(q, c.tenant, c.service, VenueOf(db, x), c.staff)
  }

  /** What meets a slot is an occupying row that the query sees, or an event. */
  lemma RowsInTheWay(w: World, q: Query, s: Slot)
    ensures NothingInTheWay(w, q, s) <==>
            && (forall o :: Occupies(w.db, o) && RowSeen(q, w.db, o)
                  ==> !Takes(s, ClaimOf(w.db, o).start, ClaimOf(w.db, o).end))
            && (forall i :: 0 <= i < |w.events| && EventCounts(w.events[i], q)
                  ==> !Takes(s, w.events[i].start, w.events[i].end))
  {
    if forall o :: Occupies(w.db, o) && RowSeen(q, w.db, o)
         ==> !Takes(s, ClaimOf(w.db, o).start, ClaimOf(w.db, o).end)
    {
      forall i | 0 <= i < |w.db.bookings| && BookingCounts(w.db.bookings[i], q)
        ensures !Takes(s, w.db.bookings[i].start, w.db.bookings[i].end)
      {
        assert Occupies(w.db, BookingRow(i)) && RowSeen(q, w.db, BookingRow(i));
      }
      forall i | 0 <= i < |w.db.holds| && HoldCounts(w.db.holds[i], w.db.now, q)
        ensures !Takes(s, w.db.holds[i].start, w.db.holds[i].end)
      {
        assert Occupies(w.db, HoldRow(i)) && RowSeen(q, w.db, HoldRow(i));
      }
    }
  }

  /** However much later it is: whether a row is in the way of a slot that had been offered. */
  lemma InTheWayIff(w: World, db': Db, q: Query, a: int, b: int, s: Slot, x: Occupier)
    requires q.timing.Valid() && s in Offered(w, q, a, b) && OthersOnlyFree(w.db, db', x)
    requires Occupies(db', x) ==> OccupiesSlot(db', x, s)
    ensures s in Offered(w.(db := db'), q, a, b)
            <==> InAdvanceWindow(s, db'.now, q) && !(Occupies(db', x) && RowSeen(q, db', x))
  {
    var w' := w.(db := db');
    OfferedIff(w, q, a, b, s);
    OfferedIff(w', q, a, b, s);
    RowsInTheWay(w, q, s);
    RowsInTheWay(w', q, s);
    SlotsLast(q, s);
    forall o | o != x && Occupies(db', o) && RowSeen(q, db', o)
      ensures !Takes(s, ClaimOf(db', o).start, ClaimOf(db', o).end)
    {
      assert Occupies(w.db, o) && RowSeen(q, w.db, o);
    }
  }

  /**
   A row that comes to occupy an offered slot, while all others keep or give up theirs, takes it off the offer exactly
   when the query sees that row.
   */
  lemma TakenIff(w: World, db': Db, q: Query, a: int, b: int, s: Slot, x: Occupier)
    requires q.timing.Valid() && s in Offered(w, q, a, b)
    requires db'.now == w.db.now && OccupiesSlot(db', x, s) && OthersOnlyFree(w.db, db', x)
    ensures s !in Offered(w.(db := db'), q, a, b) <==> RowSeen(q, db', x)
  {
    OfferedIff(w, q, a, b, s);
    InTheWayIff(w, db', q, a, b, s, x);
  }

  lemma SlotsLast(q: Query, s: Slot)
    requires q.timing.Valid() && OnGrid(q, s)
    ensures At(s.day, s.start) < At(s.day, s.end)
  {
  }

  // ---------------------------------------------------------------------------
  // The steps that take a slot
  // ---------------------------------------------------------------------------

  /** A hold takes the slot off the offers for its service, venue and staff member, and off those that name neither. */
  lemma ReservedIsTakenIff(w: World, op: Op, q: Query, a: int, b: int, s: Slot)
    requires q.timing.Valid() && s in Offered(w, q, a, b)
    requires op.ReserveSlot? && Apply(w.db, op).Done? && IsSlot(s, op.params.start, op.params.end)
    ensures s !in Offered(Next(w, op), q, a, b) <==>
              && w.db.sessions[op.params.session].tenant == q.tenant && op.params.service == q.service
              && (q.venue.Some? ==> op.params.venue == q.venue) && (q.staff.Some? ==> op.params.staff == q.staff)
  {
    TakenIff(w, Step(w.db, op), q, a, b, s, HoldRow(|w.db.holds|));
  }

  /** A walk-in is booked at the venue of the service's own row and for no staff member. */
  lemma WalkInIsTakenIff(w: World, op: Op, q: Query, a: int, b: int, s: Slot)
    requires q.timing.Valid() && s in Offered(w, q, a, b)
    requires op.WalkInNow? && Apply(w.db, op).Done? && IsSlot(s, op.start, op.end)
    ensures s !in Offered(Next(w, op), q, a, b) <==>
              && op.tenant == q.tenant && op.service == q.service
              && (q.venue.Some? ==> op.row.value.venue == q.venue) && q.staff.None?
  {
    TakenIff(w, Step(w.db, op), q, a, b, s, BookingRow(|w.db.bookings|));
  }

  /** An imported booking has no venue and no staff member. */
  lemma ImportIsTakenIff(w: World, op: Op, q: Query, a: int, b: int, s: Slot)
    requires q.timing.Valid() && s in Offered(w, q, a, b) && ImportInserts(op)
    requires op.start == At(s.day, s.start) && op.found.value.1 == s.end - s.start
    ensures s !in Offered(Next(w, op), q, a, b) <==>
              op.tenant == q.tenant && op.found.value.0 == q.service && q.venue.None? && q.staff.None?
  {
    TakenIff(w, Step(w.db, op), q, a, b, s, BookingRow(|w.db.bookings|));
  }

  /** The world in which the hold has been released. */
  function WithoutHold(w: World, h: Id): World
    requires h < |w.db.holds|
  {
    w.(db := w.db.(holds := w.db.holds[h := w.db.holds[h].(status := Released)]))
  }

  /**
   A completed session's booking stands in for its hold at the hold's time and venue, for the service and staff member
   of the session.
   */
  lemma CompletedIsTakenIff(w: World, op: Op, q: Query, a: int, b: int, s: Slot)
    requires q.timing.Valid() && CompletionInserts(w.db, op) && s in Offered(WithoutHold(w, op.pick), q, a, b)
    requires IsSlot(s, w.db.holds[op.pick].start, w.db.holds[op.pick].end)
    ensures var row, hold := w.db.sessions[op.session], w.db.holds[op.pick];
            s !in Offered(Next(w, op), q, a, b) <==>
              && row.tenant == q.tenant && row.service == Some(q.service)
              && (q.venue.Some? ==> hold.venue == q.venue) && (q.staff.Some? ==> row.data.staff == q.staff)
  {
    TakenIff(WithoutHold(w, op.pick), Step(w.db, op), q, a, b, s, BookingRow(|w.db.bookings|));
  }

  /** So does the booking of a payment, beside the hold: a slot offered in spite of the hold may go with the payment. */
  lemma PaidIsTakenIff(w: World, op: Op, q: Query, a: int, b: int, s: Slot)
    requires q.timing.Valid() && PaymentInserts(w.db, op) && s in Offered(w, q, a, b)
    requires IsSlot(s, w.db.holds[op.pick].start, w.db.holds[op.pick].end)
    ensures var row, hold := w.db.sessions[op.session], w.db.holds[op.pick];
            s !in Offered(Next(w, op), q, a, b) <==>
              && row.tenant == q.tenant && row.service == Some(q.service)
              && (q.venue.Some? ==> hold.venue == q.venue) && (q.staff.Some? ==> row.data.staff == q.staff)
  {
    TakenIff(w, Step(w.db, op), q, a, b, s, BookingRow(|w.db.bookings|));
  }

  /** A booking moved by the business or through the portal takes its service, venue and staff member along. */
  lemma MovedIsTakenIff(w: World, op: Op, q: Query, a: int, b: int, s: Slot)
    requires q.timing.Valid() && s in Offered(w, q, a, b)
    requires (op.RescheduleTo? || op.PortalMove?) && Apply(w.db, op).Done? && IsSlot(s, op.start, op.end)
    ensures var row := w.db.bookings[op.booking];
            s !in Offered(Next(w, op), q, a, b) <==>
              && row.tenant == q.tenant && row.service == q.service
              && (q.venue.Some? ==> row.venue == q.venue) && (q.staff.Some? ==> row.staff == q.staff)
  {
    TakenIff(w, Step(w.db, op), q, a, b, s, BookingRow(op.booking));
  }

  // ---------------------------------------------------------------------------
  // How long a hold keeps its slot
  // ---------------------------------------------------------------------------

  /**
   A reserved slot that nobody touches stays off the offers that see its hold for five minutes to the millisecond; then
   it is back, if the advance limits still allow it.
   */
  lemma ReservedForFiveMinutes(w: World, op: Op, ms: nat, q: Query, a: int, b: int, s: Slot)
    requires q.timing.Valid() && s in Offered(w, q, a, b)
    requires op.ReserveSlot? && Apply(w.db, op).Done? && IsSlot(s, op.params.start, op.params.end)
    requires w.db.sessions[op.params.session].tenant == q.tenant && op.params.service == q.service
    requires op.params.venue == q.venue && op.params.staff == q.staff
    ensures s in Offered(Next(Next(w, op), Tick(ms)), q, a, b) <==> ms >= 300_000 && AdvanceAllows(w.db.now + ms, q, s)
  {
    var x, db' := HoldRow(|w.db.holds|), Next(Next(w, op), Tick(ms)).db;
    HeldForFiveMinutes(w.db, op, ms);
    InTheWayIff(w, db', q, a, b, s, x);
    assert AdvanceAllows(w.db.now + ms, q, s) <==> InAdvanceWindow(s, db'.now, q);
  }

  lemma HeldForFiveMinutes(db: Db, op: Op, ms: nat)
    requires op.ReserveSlot? && Apply(db, op).Done?
    ensures var x, db', p := HoldRow(|db.holds|), Step(Step(db, op), Tick(ms)), op.params;
            && OthersOnlyFree(db, db', x) && db'.now == db.now + ms
            && (Occupies(db', x) <==> ms < 300_000)
            && (Occupies(db', x) ==>
                  ClaimOf(db', x) == RequestClaim(db.sessions[p.session].tenant, p) && VenueOf(db', x) == p.venue)
  {
  }
}
