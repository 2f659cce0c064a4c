/** What availability offers, slot by slot, and whether reserving accepts it. */
module Agreement {
  import opened Tables
  import opened Reservations
  import opened Bookings
  import opened SlotGrid
  import opened Availability
  import BookingRecords

  // ---------------------------------------------------------------------------
  // Exactly which slots are offered
  // ---------------------------------------------------------------------------

  /** The slot is a grid position of one of the windows that the rules give its day. */
  ghost predicate OnGrid(q: Query, s: Slot) {
    var ws := WindowsFor(q, DayOfWeek(s.day));
    exists i: nat, k: nat :: i < |ws| && s.end <= ws[i].end && s == GridSlot(s.day, ws[i].start, q.timing, k)
  }

  predicate Takes(s: Slot, start: int, end: int) {
    Overlaps(At(s.day, s.start), At(s.day, s.end), start, end)
  }

  /** No booking, hold or calendar event that counts for the query overlaps the slot. */
  predicate NothingInTheWay(w: World, q: Query, s: Slot) {
    && (forall i :: 0 <= i < |w.db.bookings| && BookingCounts(w.db.bookings[i], q)
          ==> !Takes(s, w.db.bookings[i].start, w.db.bookings[i].end))
    && (forall i :: 0 <= i < |w.db.holds| && HoldCounts(w.db.holds[i], w.db.now, q)
          ==> !Takes(s, w.db.holds[i].start, w.db.holds[i].end))
    && (forall i :: 0 <= i < |w.events| && EventCounts(w.events[i], q)
          ==> !Takes(s, w.events[i].start, w.events[i].end))
  }

  lemma FreeIffNothingInTheWay(w: World, q: Query, s: Slot)
    ensures IsFree(s, AllConflicts(w, q)) <==> NothingInTheWay(w, q, s)
  {
    if IsFree(s, AllConflicts(w, q)) {
      forall i | 0 <= i < |w.db.bookings| && BookingCounts(w.db.bookings[i], q)
        ensures !Takes(s, w.db.bookings[i].start, w.db.bookings[i].end)
      {
        assert Interval(w.db.bookings[i].start, w.db.bookings[i].end) in AllConflicts(w, q);
      }
      forall i | 0 <= i < |w.db.holds| && HoldCounts(w.db.holds[i], w.db.now, q)
        ensures !Takes(s, w.db.holds[i].start, w.db.holds[i].end)
      {
        assert Interval(w.db.holds[i].start, w.db.holds[i].end) in AllConflicts(w, q);
      }
      forall i | 0 <= i < |w.events| && EventCounts(w.events[i], q)
        ensures !Takes(s, w.events[i].start, w.events[i].end)
      {
        assert Interval(w.events[i].start, w.events[i].end) in AllConflicts(w, q);
      }
    }
  }

  lemma {:induction false} InWindowsIff(day: int, ws: seq<Window>, n: nat, t: Timing, conflicts: set<Interval>, s: Slot)
    requires t.Valid() && n <= |ws|
    ensures s in SlotsOfWindows(day, ws, n, t, conflicts)
            <==> && IsFree(s, conflicts)
                 && exists i: nat, k: nat :: i < n && s.end <= ws[i].end && s == GridSlot(day, ws[i].start, t, k)
  {
    if n == 0 {
    } else {
      InWindowsIff(day, ws, n - 1, t, conflicts, s);
      GeneratedIff(day, ws[n - 1].start, ws[n - 1].end, t, conflicts, s);
    }
  }

  /** A slot is in a day's list exactly when that day is open and it is a free grid position of it. */
  lemma InDayIff(w: World, q: Query, day: int, s: Slot)
    requires q.timing.Valid()
    ensures s in DaySlots(w, q, day, AllConflicts(w, q))
            <==> s.day == day && day !in BlockedDays(w, q) && OnGrid(q, s) && NothingInTheWay(w, q, s)
  {
    var ws := WindowsFor(q, DayOfWeek(day));
    InWindowsIff(day, ws, |ws|, q.timing, AllConflicts(w, q), s);
    FreeIffNothingInTheWay(w, q, s);
  }

  /**
   The specification of availability: a slot is offered exactly when its day is in range and not blocked, it is a
   grid position of a window of that day, the advance limits allow it, and nothing that counts is in its way.
   */
  lemma OfferedIff(w: World, q: Query, a: int, b: int, s: Slot)
    requires q.timing.Valid()
    ensures s in Offered(w, q, a, b)
            <==> a <= s.day <= b && s.day !in BlockedDays(w, q) && OnGrid(q, s) && InAdvanceWindow(s, w.db.now, q)
                 && NothingInTheWay(w, q, s)
  {
    var f := DayOffers(w, q);
    InDays(f, a, b, s);
    forall d ensures s in f(d) <==> s in DaySlots(w, q, d, AllConflicts(w, q)) && InAdvanceWindow(s, w.db.now, q) {
      var slots := DaySlots(w, q, d, AllConflicts(w, q));
      KeptIff(slots, |slots|, w.db.now, q, s);
    }
    forall d ensures s in f(d) ==> d == s.day {
      InDayIff(w, q, d, s);
    }
    InDayIff(w, q, s.day, s);
  }

  // ---------------------------------------------------------------------------
  // When offered slots do not overlap
  // ---------------------------------------------------------------------------

  /** Each window ends before the next one starts. */
  predicate Disjoint(ws: seq<Window>) {
    forall i, j :: 0 <= i < j < |ws| ==> ws[i].end <= ws[j].start
  }

  /** The first slot ends, a given time before the second starts. */
  predicate Precedes(s: Slot, t: Slot, gap: int) {
    At(s.day, s.end) + Minutes(gap) <= At(t.day, t.start)
  }

  /** In order and at least the before-buffer apart. */
  ghost predicate InOrder(slots: seq<Slot>, gap: int) {
    forall i, j :: 0 <= i < j < |slots| ==> Precedes(slots[i], slots[j], gap)
  }

  /** Slots of one day between two times. */
  predicate Between(slots: seq<Slot>, day: int, from: int, to: int) {
    forall i :: 0 <= i < |slots| ==> slots[i].day == day && from <= slots[i].start && slots[i].end <= to
  }

  lemma {:induction false} WindowBetween(day: int, from: int, end: int, t: Timing, conflicts: set<Interval>)
    requires t.Valid()
    ensures Between(SlotsFrom(day, from, end, t, conflicts), day, from + t.before, end)
    decreases end - from
  {
    if SlotAt(day, from, t).end > end {
    } else {
      WindowBetween(day, from + t.Step(), end, t, conflicts);
    }
  }

  lemma WindowInOrder(day: int, from: int, end: int, t: Timing, conflicts: set<Interval>)
    requires t.Valid()
    ensures InOrder(SlotsFrom(day, from, end, t, conflicts), t.before)
  {
    var slots := SlotsFrom(day, from, end, t, conflicts);
    GeneratedApart(day, from, end, t, conflicts);
    WindowBetween(day, from, end, t, conflicts);
    forall i, j | 0 <= i < j < |slots| ensures Precedes(slots[i], slots[j], t.before) {
      assert slots[i].end + t.after + t.before <= slots[j].start;
    }
  }

  lemma InOrderConcat(a: seq<Slot>, b: seq<Slot>, gap: int)
    requires InOrder(a, gap) && InOrder(b, gap)
    requires forall i, j :: 0 <= i < |a| && 0 <= j < |b| ==> Precedes(a[i], b[j], gap)
    ensures InOrder(a + b, gap)
  {
    forall i, j | 0 <= i < j < |a + b| ensures Precedes((a + b)[i], (a + b)[j], gap) {
      if j < |a| {
        assert Precedes(a[i], a[j], gap);
      } else if i < |a| {
        assert Precedes(a[i], b[j - |a|], gap);
      } else {
        assert Precedes(b[i - |a|], b[j - |a|], gap);
      }
    }
  }

  lemma {:induction false} WindowsBetween(day: int, ws: seq<Window>, n: nat, t: Timing, conflicts: set<Interval>,
      to: int)
    requires t.Valid() && n <= |ws| && forall i :: 0 <= i < n ==> ws[i].end <= to
    ensures Between(SlotsOfWindows(day, ws, n, t, conflicts), day, t.before, to)
  {
    if n == 0 {
    } else {
      WindowsBetween(day, ws, n - 1, t, conflicts, to);
      WindowBetween(day, ws[n - 1].start, ws[n - 1].end, t, conflicts);
    }
  }

  /** The slots of disjoint windows are in order and at least the before-buffer apart. */
  lemma {:induction false} WindowsInOrder(day: int, ws: seq<Window>, n: nat, t: Timing, conflicts: set<Interval>)
    requires t.Valid() && n <= |ws| && Disjoint(ws)
    ensures InOrder(SlotsOfWindows(day, ws, n, t, conflicts), t.before)
  {
    if n == 0 {
    } else {
      WindowsInOrder(day, ws, n - 1, t, conflicts);
      var last, earlier := ws[n - 1], SlotsOfWindows(day, ws, n - 1, t, conflicts);
      var slots := SlotsFrom(day, last.start, last.end, t, conflicts);
      WindowInOrder(day, last.start, last.end, t, conflicts);
      WindowBetween(day, last.start, last.end, t, conflicts);
      WindowsBetween(day, ws, n - 1, t, conflicts, last.start);
      InOrderConcat(earlier, slots, t.before);
    }
  }

  lemma {:induction false} KeptInOrder(slots: seq<Slot>, n: nat, now: int, q: Query, gap: int)
    requires n <= |slots| && InOrder(slots, gap)
    ensures InOrder(Kept(slots, n, now, q), gap)
  {
    if n == 0 {
    } else {
      KeptInOrder(slots, n - 1, now, q, gap);
      if InAdvanceWindow(slots[n - 1], now, q) {
        var kept := Kept(slots, n - 1, now, q);
        var next := [slots[n - 1]];
        forall i, j | 0 <= i < |kept| && 0 <= j < |next| ensures Precedes(kept[i], next[j], gap) {
          KeptIff(slots, n - 1, now, q, kept[i]);
          var k :| 0 <= k < n - 1 && slots[k] == kept[i];
          assert Precedes(slots[k], slots[n - 1], gap);
        }
        InOrderConcat(kept, next, gap);
      }
    }
  }

  /** The windows that the rules give each day of the week are disjoint. */
  ghost predicate DisjointRules(q: Query) {
    forall dow :: 0 <= dow < 7 ==> Disjoint(WindowsFor(q, dow))
  }

  /** On one day. */
  lemma DayInOrder(w: World, q: Query, day: int)
    requires q.timing.Valid() && DisjointRules(q)
    ensures InOrder(OfferedOn(w, q, day), q.timing.before)
    ensures Between(OfferedOn(w, q, day), day, q.timing.before, 1440)
  {
    var ws, slots := WindowsFor(q, DayOfWeek(day)), DaySlots(w, q, day, AllConflicts(w, q));
    WindowsInOrder(day, ws, |ws|, q.timing, AllConflicts(w, q));
    WindowsBetween(day, ws, |ws|, q.timing, AllConflicts(w, q), 1440);
    KeptInOrder(slots, |slots|, w.db.now, q, q.timing.before);
    var kept := OfferedOn(w, q, day);
    forall i | 0 <= i < |kept|
      ensures kept[i].day == day && q.timing.before <= kept[i].start && kept[i].end <= 1440
    {
      KeptIff(slots, |slots|, w.db.now, q, kept[i]);
    }
  }

  /** Slots on the days a..b, within each day. */
  predicate OnDays(slots: seq<Slot>, a: int, b: int, from: int) {
    forall i :: 0 <= i < |slots| ==> a <= slots[i].day <= b && from <= slots[i].start && slots[i].end <= 1440
  }

  /**
   When the windows of each day are disjoint, the slots offered over any range of days are in order and never overlap:
   each ends at least the before-buffer ahead of the next.
   */
  lemma {:induction false} OfferedInOrder(w: World, q: Query, a: int, b: int)
    requires q.timing.Valid() && DisjointRules(q)
    ensures InOrder(Offered(w, q, a, b), q.timing.before)
    ensures OnDays(Offered(w, q, a, b), a, b, q.timing.before)
    decreases b - a
  {
    if b < a {
    } else {
      DayInOrder(w, q, b);
      LastDay(DayOffers(w, q), a, b);
      OfferedInOrder(w, q, a, b - 1);
      var earlier, today := Offered(w, q, a, b - 1), OfferedOn(w, q, b);
      forall i, j | 0 <= i < |earlier| && 0 <= j < |today| ensures Precedes(earlier[i], today[j], q.timing.before) {
        DayBoundary(earlier[i], today[j], q.timing.before);
      }
      InOrderConcat(earlier, today, q.timing.before);
    }
  }

  lemma DayBoundary(s: Slot, t: Slot, gap: int)
    requires s.day < t.day && s.end <= 1440 && gap <= t.start
    ensures Precedes(s, t, gap)
  {
  }

  /**
   Windows that overlap may give slots that do: an hour of service, from midnight to one and from half past to half
   past.
   */
  lemma OverlappingWindows(day: int)
    ensures SlotsOfWindows(day, [Window(0, 60), Window(30, 90)], 2, Timing(60, 0, 0), {})
            == [Slot(day, 0, 60), Slot(day, 30, 90)]
  {
    var ws, t := [Window(0, 60), Window(30, 90)], Timing(60, 0, 0);
    assert SlotsFrom(day, 0, 60, t, {}) == [Slot(day, 0, 60)] + SlotsFrom(day, 60, 60, t, {});
    assert SlotsFrom(day, 30, 90, t, {}) == [Slot(day, 30, 90)] + SlotsFrom(day, 90, 90, t, {});
    assert SlotsOfWindows(day, ws, 0, t, {}) == [];
    assert SlotsOfWindows(day, ws, 1, t, {}) == [Slot(day, 0, 60)];
  }

  // ---------------------------------------------------------------------------
  // Whether an offered slot can be reserved
  // ---------------------------------------------------------------------------

  /** The reservation request a client makes for a slot it was offered. */
  function RequestFor(q: Query, s: Slot, session: Id): ReserveParams {
    ReserveParams(session, q.service, q.venue, q.staff, At(s.day, s.start), At(s.day, s.end))
  }

  function VenueOf(db: Db, o: Occupier): Option<Id>
    requires Occupies(db, o)
  {
    match o
    case HoldRow(h) => db.holds[h].venue
    case BookingRow(b) => db.bookings[b].venue
  }

  /** A row of the service at a venue that the availability query filtered out, overlapping the slot. */
  ghost predicate TakenElsewhere(db: Db, q: Query, s: Slot) {
    q.venue.Some? && exists o :: Occupies(db, o) && VenueOf(db, o) != q.venue
                              && Conflicts(Claim(q.tenant, q.service, q.staff, At(s.day, s.start), At(s.day, s.end)),
                                 ClaimOf(db, o))
  }

  /**
   An offered slot is accepted, in the same state, exactly when the service does not take that time at another venue.
   */
  lemma OfferedAcceptedIff(w: World, q: Query, a: int, b: int, s: Slot, session: Id)
    requires q.timing.Valid() && s in Offered(w, q, a, b)
    requires session < |w.db.sessions| && w.db.sessions[session].tenant == q.tenant
    ensures Reserve(w.db, RequestFor(q, s, session)).Done? <==> !TakenElsewhere(w.db, q, s)
  {
    OfferedIff(w, q, a, b, s);
    var p := RequestFor(q, s, session);
    var claim := RequestClaim(q.tenant, p);
    ReserveRefusedIff(w.db, p);
    forall o | Occupies(w.db, o) && Conflicts(claim, ClaimOf(w.db, o))
      ensures q.venue.Some? && VenueOf(w.db, o) != q.venue
    {
      match o
      case HoldRow(h) => assert HoldCounts(w.db.holds[h], w.db.now, q)
          ==> !Takes(s, w.db.holds[h].start, w.db.holds[h].end);
      case BookingRow(i) => assert BookingCounts(w.db.bookings[i], q)
          ==> !Takes(s, w.db.bookings[i].start, w.db.bookings[i].end);
    }
  }

  /** Without a venue filter, every slot that availability offers can be reserved. */
  lemma OfferedIsAccepted(w: World, q: Query, a: int, b: int, s: Slot, session: Id)
    requires q.timing.Valid() && s in Offered(w, q, a, b) && q.venue.None?
    requires session < |w.db.sessions| && w.db.sessions[session].tenant == q.tenant
    ensures Reserve(w.db, RequestFor(q, s, session)).Done?
  {
    OfferedAcceptedIff(w, q, a, b, s, session);
  }

  // ---------------------------------------------------------------------------
  // Whether an offered slot can be taken by a walk-in or a reschedule
  // ---------------------------------------------------------------------------

  function StaffOf(db: Db, o: Occupier): Option<Id>
    requires Occupies(db, o)
  {
    ClaimOf(db, o).staff
  }

  /** A row of the service that the query's venue or staff filter leaves out, overlapping the slot. */
  ghost predicate TakenOutsideFilter(db: Db, q: Query, s: Slot, except: Option<Occupier>) {
    exists o :: Occupies(db, o) && Some(o) != except && Conflicts(SlotClaim(q, s), ClaimOf(db, o))
             && ((q.venue.Some? && VenueOf(db, o) != q.venue) || (q.staff.Some? && StaffOf(db, o) != q.staff))
  }

  /** The whole-service query for the slot's time. */
  function SlotClaim(q: Query, s: Slot): Claim {
    Claim(q.tenant, q.service, None, At(s.day, s.start), At(s.day, s.end))
  }

  /** Whatever overlaps an offered slot was left out by one of the query's filters. */
  lemma OverlapsAreFilteredOut(w: World, q: Query, a: int, b: int, s: Slot, o: Occupier)
    requires q.timing.Valid() && s in Offered(w, q, a, b)
    requires Occupies(w.db, o) && Conflicts(SlotClaim(q, s), ClaimOf(w.db, o))
    ensures (q.venue.Some? && VenueOf(w.db, o) != q.venue) || (q.staff.Some? && StaffOf(w.db, o) != q.staff)
  {
    OfferedIff(w, q, a, b, s);
    match o
    case HoldRow(h) =>
      assert HoldCounts(w.db.holds[h], w.db.now, q) ==> !Takes(s, w.db.holds[h].start, w.db.holds[h].end);
    case BookingRow(i) =>
      assert BookingCounts(w.db.bookings[i], q) ==> !Takes(s, w.db.bookings[i].start, w.db.bookings[i].end);
  }

  /**
   A walk-in takes an offered slot exactly when no row that the query's filters leave out has it; without filters
   always.
   */
  lemma OfferedWalkInIff(w: World, q: Query, a: int, b: int, s: Slot, row: WalkInService, client: Id)
    requires q.timing.Valid() && s in Offered(w, q, a, b)
    ensures var o := WalkIn(w.db, q.tenant, q.service, Some(row), Some(client), At(s.day, s.start), At(s.day, s.end));
            o.Done? <==> !TakenOutsideFilter(w.db, q, s, None)
    ensures q.venue.None? && q.staff.None? ==> !TakenOutsideFilter(w.db, q, s, None)
  {
    BookingRecords.WalkInRefusedIff(w.db, q.tenant, q.service, row, client, At(s.day, s.start), At(s.day, s.end));
    forall o | Occupies(w.db, o) && Conflicts(SlotClaim(q, s), ClaimOf(w.db, o))
      ensures (q.venue.Some? && VenueOf(w.db, o) != q.venue) || (q.staff.Some? && StaffOf(w.db, o) != q.staff)
    {
      OverlapsAreFilteredOut(w, q, a, b, s, o);
    }
  }

  /**
   A booking of the service that may still be rescheduled can be moved to an offered slot exactly in the same case.
   */
  lemma OfferedRescheduleIff(w: World, q: Query, a: int, b: int, s: Slot, id: Id, maxCount: Option<int>)
    requires q.timing.Valid() && s in Offered(w, q, a, b)
    requires id < |w.db.bookings| && w.db.bookings[id].tenant == q.tenant && w.db.bookings[id].service == q.service
    requires w.db.bookings[id].status == Pending || w.db.bookings[id].status == Confirmed
    requires maxCount.Some? ==> w.db.bookings[id].rescheduleCount < maxCount.value
    ensures Reschedule(w.db, q.tenant, id, At(s.day, s.start), At(s.day, s.end), maxCount).Done?
            <==> !TakenOutsideFilter(w.db, q, s, Some(BookingRow(id)))
  {
    BookingRecords.RescheduleAcceptedIff(w.db, q.tenant, id, At(s.day, s.start), At(s.day, s.end), maxCount);
    forall o | Occupies(w.db, o) && Conflicts(SlotClaim(q, s), ClaimOf(w.db, o))
      ensures (q.venue.Some? && VenueOf(w.db, o) != q.venue) || (q.staff.Some? && StaffOf(w.db, o) != q.staff)
    {
      OverlapsAreFilteredOut(w, q, a, b, s, o);
    }
  }

  /** The world with one more booking. */
  function WithBooking(w: World, b: Booking): World {
    w.(db := w.db.(bookings := w.db.bookings + [b]))
  }

  /**
   With a venue filter the agreement really fails: booking any offered time at another venue leaves
   the slot on offer and makes every reservation of it fail.
   */
  lemma OtherVenueSpoilsOffer(w: World, q: Query, from: int, to: int, s: Slot, session: Id, b: Booking)
    requires q.timing.Valid() && s in Offered(w, q, from, to)
    requires session < |w.db.sessions| && w.db.sessions[session].tenant == q.tenant
    requires q.venue.Some? && b.venue != q.venue && TakesTime(b.status)
    requires b.tenant == q.tenant && b.service == q.service && b.staff == q.staff && Takes(s, b.start, b.end)
    ensures s in Offered(WithBooking(w, b), q, from, to)
    ensures Reserve(WithBooking(w, b).db, RequestFor(q, s, session)).Failed?
  {
    var w' := WithBooking(w, b);
    OfferedIff(w, q, from, to, s);
    OfferedIff(w', q, from, to, s);
    assert NothingInTheWay(w', q, s) by {
      forall i | 0 <= i < |w'.db.bookings| && BookingCounts(w'.db.bookings[i], q)
        ensures !Takes(s, w'.db.bookings[i].start, w'.db.bookings[i].end)
      {
        assert w'.db.bookings[i] == w.db.bookings[i];
      }
    }
    assert Occupies(w'.db, BookingRow(|w.db.bookings|));
    OfferedAcceptedIff(w', q, from, to, s, session);
  }
}
