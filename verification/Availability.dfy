/** Availability queries: apps/api/src/availability/availability.service.ts. */
module Availability {
  import opened Tables
  import opened SlotGrid
  import opened Reservations

  datatype Rule = Rule(dayOfWeek: int, window: Window)

  /** A blocked_dates row; without a service it blocks the whole tenant. */
  datatype BlockedDate = BlockedDate(tenant: Id, service: Option<Id>, day: int)

  /** An external calendar event; owner is the user whose connection it came through. */
  datatype CalendarEvent = CalendarEvent(tenant: Id, inbound: bool, owner: Id, start: int, end: int)

  datatype World = World(db: Db, blocked: seq<BlockedDate>, events: seq<CalendarEvent>)

  /** An availability request with the service row, the loaded rules and the booking flow's advance limits in days. */
  datatype Query = Query(
    tenant: Id, service: Id, staff: Option<Id>, venue: Option<Id>, timing: Timing,
    serviceRules: seq<Rule>, tenantRules: seq<Rule>, minAdvance: Option<int>, maxAdvance: Option<int>)

  // ---------------------------------------------------------------------------
  // Rules of a day
  // ---------------------------------------------------------------------------

  predicate NamesDay(rules: seq<Rule>, dow: int) {
    exists i :: 0 <= i < |rules| && rules[i].dayOfWeek == dow
  }

  /** The windows that the first n rules give a day of the week, in order. */
  function OnDay(rules: seq<Rule>, n: nat, dow: int): seq<Window>
    requires n <= |rules|
  {
    if n == 0 then []
    else if rules[n - 1].dayOfWeek == dow then OnDay(rules, n - 1, dow) + [rules[n - 1].window]
    else OnDay(rules, n - 1, dow)
  }

  /** A service rule for a day replaces every tenant-wide rule for it. */
  function WindowsFor(q: Query, dow: int): seq<Window> {
    if NamesDay(q.serviceRules, dow) then OnDay(q.serviceRules, |q.serviceRules|, dow)
    else OnDay(q.tenantRules, |q.tenantRules|, dow)
  }

  lemma {:induction false} OnDayEmptyIff(rules: seq<Rule>, n: nat, dow: int)
    requires n <= |rules|
    ensures OnDay(rules, n, dow) == [] <==> forall i :: 0 <= i < n ==> rules[i].dayOfWeek != dow
  {
    if n == 0 {
    } else {
      OnDayEmptyIff(rules, n - 1, dow);
    }
  }

  function Lookup(m: map<int, seq<Window>>, dow: int): seq<Window> {
    if dow in m then m[dow] else []
  }

  /** The map with a window pushed onto the list of its day. */
  method Push(byDay: map<int, seq<Window>>, rule: Rule) returns (r: map<int, seq<Window>>)
    ensures forall dow :: Lookup(r, dow) ==
              if rule.dayOfWeek == dow then Lookup(byDay, dow) + [rule.window] else Lookup(byDay, dow)
  {
    r := byDay;
    if rule.dayOfWeek !in r {
      r := r[rule.dayOfWeek := []];
    }
    r := r[rule.dayOfWeek := r[rule.dayOfWeek] + [rule.window]];
  }

  /** Push every rule whose day is not to be skipped; the map is still empty for the days that are not. */
  method PushAll(byDay: map<int, seq<Window>>, rules: seq<Rule>, skip: set<int>) returns (r: map<int, seq<Window>>)
    requires forall dow :: dow !in skip ==> Lookup(byDay, dow) == []
    ensures forall dow :: Lookup(r, dow) == if dow in skip then Lookup(byDay, dow) else OnDay(rules, |rules|, dow)
  {
    r := byDay;
    for i := 0 to |rules|
      invariant forall dow :: Lookup(r, dow) == if dow in skip then Lookup(byDay, dow) else OnDay(rules, i, dow)
    {
      if rules[i].dayOfWeek !in skip {
        r := Push(r, rules[i]);
      }
    }
  }

  /** buildRulesByDay. */
  method BuildRulesByDay(q: Query) returns (byDay: map<int, seq<Window>>)
    ensures forall dow :: Lookup(byDay, dow) == WindowsFor(q, dow)
  {
    var daysWithServiceRules := set i | 0 <= i < |q.serviceRules| :: q.serviceRules[i].dayOfWeek;
    byDay := PushAll(map[], q.serviceRules, {});
    forall dow ensures OnDay(q.serviceRules, |q.serviceRules|, dow) == [] <==> dow !in daysWithServiceRules {
      OnDayEmptyIff(q.serviceRules, |q.serviceRules|, dow);
    }
    byDay := PushAll(byDay, q.tenantRules, daysWithServiceRules);
    assert forall dow :: dow in daysWithServiceRules <==> NamesDay(q.serviceRules, dow);
  }

  // ---------------------------------------------------------------------------
  // Conflicts
  // ---------------------------------------------------------------------------

  /** 00:00:00.000 of the first day and 23:59:59.999 of the last day of a range. */
  function RangeStart(a: int): int { At(a, 0) }
  function RangeEnd(b: int): int { At(b + 1, 0) - 1 }

  predicate InRange(start: int, end: int, a: int, b: int) {
    start < RangeEnd(b) && end > RangeStart(a)
  }

  predicate Scoped(tenant: Id, service: Id, venue: Option<Id>, staff: Option<Id>, q: Query) {
    && tenant == q.tenant && service == q.service
    && (q.venue.Some? ==> venue == q.venue)
    && (q.staff.Some? ==> staff == q.staff)
  }

  predicate BookingCounts(b: Booking, q: Query) {
    TakesTime(b.status) && Scoped(b.tenant, b.service, b.venue, b.staff, q)
  }

  predicate HoldCounts(h: Hold, now: int, q: Query) {
    ActiveHold(h, now) && Scoped(h.tenant, h.service, h.venue, h.staff, q)
  }

  predicate EventCounts(e: CalendarEvent, q: Query) {
    e.tenant == q.tenant && e.inbound && (q.staff.Some? ==> e.owner == q.staff.value)
  }

  /** Steps 4 to 5b: the rows that count for the query and touch the days a..b. */
  function FetchConflicts(w: World, q: Query, a: int, b: int): set<Interval> {
    (set i | 0 <= i < |w.db.bookings| && BookingCounts(w.db.bookings[i], q)
        && InRange(w.db.bookings[i].start, w.db.bookings[i].end, a, b)
      :: Interval(w.db.bookings[i].start, w.db.bookings[i].end)) +
    (set i | 0 <= i < |w.db.holds| && HoldCounts(w.db.holds[i], w.db.now, q)
        && InRange(w.db.holds[i].start, w.db.holds[i].end, a, b)
      :: Interval(w.db.holds[i].start, w.db.holds[i].end)) +
    (set i | 0 <= i < |w.events| && EventCounts(w.events[i], q) && InRange(w.events[i].start, w.events[i].end, a, b)
      :: Interval(w.events[i].start, w.events[i].end))
  }

  /** Every row that counts for the query, on whatever day. */
  function AllConflicts(w: World, q: Query): set<Interval> {
    (set i | 0 <= i < |w.db.bookings| && BookingCounts(w.db.bookings[i], q)
        :: Interval(w.db.bookings[i].start, w.db.bookings[i].end)) +
    (set i | 0 <= i < |w.db.holds| && HoldCounts(w.db.holds[i], w.db.now, q)
        :: Interval(w.db.holds[i].start, w.db.holds[i].end)) +
    (set i | 0 <= i < |w.events| && EventCounts(w.events[i], q) :: Interval(w.events[i].start, w.events[i].end))
  }

  lemma FetchedIff(w: World, q: Query, a: int, b: int, c: Interval)
    ensures c in FetchConflicts(w, q, a, b) <==> c in AllConflicts(w, q) && InRange(c.start, c.end, a, b)
  {
  }

  /** The range-limited fetch loses no conflict: a slot inside one of the days is free of it iff free of every row. */
  lemma FetchLosesNothing(w: World, q: Query, a: int, b: int, s: Slot)
    requires a <= s.day <= b && 0 <= s.start && s.end < 1440
    ensures IsFree(s, FetchConflicts(w, q, a, b)) <==> IsFree(s, AllConflicts(w, q))
  {
    forall c | c in AllConflicts(w, q) && Overlaps(At(s.day, s.start), At(s.day, s.end), c.start, c.end)
      ensures c in FetchConflicts(w, q, a, b)
    {
      FetchedIff(w, q, a, b, c);
    }
    forall c | c in FetchConflicts(w, q, a, b) ensures c in AllConflicts(w, q) {
      FetchedIff(w, q, a, b, c);
    }
  }

  // ---------------------------------------------------------------------------
  // What a query should return
  // ---------------------------------------------------------------------------

  /** getDay() of a day number, on a server whose clock is UTC; day 0 was a Thursday. */
  function DayOfWeek(day: int): int {
    (day + 4) % 7
  }

  predicate Blocks(d: BlockedDate, q: Query) {
    d.tenant == q.tenant && (d.service.None? || d.service == Some(q.service))
  }

  function BlockedDays(w: World, q: Query): set<int> {
    set i | 0 <= i < |w.blocked| && Blocks(w.blocked[i], q) :: w.blocked[i].day
  }

  /** The advance limits; a limit of zero days counts as no limit. */
  predicate InAdvanceWindow(s: Slot, now: int, q: Query) {
    && (q.minAdvance.Some? && q.minAdvance.value != 0 ==> At(s.day, s.start) >= now + Days(q.minAdvance.value))
    && (q.maxAdvance.Some? && q.maxAdvance.value != 0 ==> At(s.day, s.start) <= now + Days(q.maxAdvance.value))
  }

  /** Those of the first n slots that the advance limits allow. */
  function Kept(slots: seq<Slot>, n: nat, now: int, q: Query): seq<Slot>
    requires n <= |slots|
  {
    if n == 0 then []
    else if InAdvanceWindow(slots[n - 1], now, q) then Kept(slots, n - 1, now, q) + [slots[n - 1]]
    else Kept(slots, n - 1, now, q)
  }

  function WithinAdvance(slots: seq<Slot>, now: int, q: Query): seq<Slot> {
    Kept(slots, |slots|, now, q)
  }

  /** The slots of the first n windows of a day, window by window. */
  function SlotsOfWindows(day: int, ws: seq<Window>, n: nat, t: Timing, conflicts: set<Interval>): seq<Slot>
    requires t.Valid() && n <= |ws|
  {
    if n == 0 then []
    else SlotsOfWindows(day, ws, n - 1, t, conflicts) + SlotsFrom(day, ws[n - 1].start, ws[n - 1].end, t, conflicts)
  }

  /** The slots of one day, before the advance limits. */
  function DaySlots(w: World, q: Query, day: int, conflicts: set<Interval>): seq<Slot>
    requires q.timing.Valid()
  {
    if day in BlockedDays(w, q) then []
    else
      var ws := WindowsFor(q, DayOfWeek(day));
      SlotsOfWindows(day, ws, |ws|, q.timing, conflicts)
  }

  /** The slots offered on one day, judged against every row there is. */
  function OfferedOn(w: World, q: Query, day: int): seq<Slot>
    requires q.timing.Valid()
  {
    WithinAdvance(DaySlots(w, q, day, AllConflicts(w, q)), w.db.now, q)
  }

  /** OfferedOn as a function of the day. */
  function DayOffers(w: World, q: Query): int -> seq<Slot>
    requires q.timing.Valid()
  {
    day => OfferedOn(w, q, day)
  }

  /** What a function gives for a, a + 1, ..., b, in order. */
  function DayByDay(f: int -> seq<Slot>, a: int, b: int): seq<Slot>
    decreases b - a
  {
    if b < a then [] else if b == a then f(a) else DayByDay(f, a, b - 1) + f(b)
  }

  /** The slots offered on the days a..b. */
  function Offered(w: World, q: Query, a: int, b: int): seq<Slot>
    requires q.timing.Valid()
  {
    DayByDay(DayOffers(w, q), a, b)
  }

  lemma LastDay(f: int -> seq<Slot>, a: int, b: int)
    requires a <= b
    ensures DayByDay(f, a, b) == DayByDay(f, a, b - 1) + f(b)
  {
  }

  lemma {:induction false} DaysSplit(f: int -> seq<Slot>, a: int, b: int, c: int)
    requires a <= b + 1 && b <= c
    ensures DayByDay(f, a, c) == DayByDay(f, a, b) + DayByDay(f, b + 1, c)
    decreases c - b
  {
    if b == c {
      assert DayByDay(f, b + 1, c) == [];
    } else {
      DaysSplit(f, a, b, c - 1);
      LastDay(f, a, c);
      LastDay(f, b + 1, c);
      assert DayByDay(f, a, c) == DayByDay(f, a, b) + DayByDay(f, b + 1, c - 1) + f(c);
    }
  }

  lemma {:induction false} InDays(f: int -> seq<Slot>, a: int, b: int, s: Slot)
    ensures s in DayByDay(f, a, b) <==> exists d :: a <= d <= b && s in f(d)
    decreases b - a
  {
    if b < a {
    } else {
      InDays(f, a, b - 1, s);
    }
  }

  lemma {:induction false} KeptPrefix(s: seq<Slot>, t: seq<Slot>, n: nat, now: int, q: Query)
    requires n <= |s|
    ensures Kept(s + t, n, now, q) == Kept(s, n, now, q)
  {
    if n == 0 {
    } else {
      KeptPrefix(s, t, n - 1, now, q);
    }
  }

  lemma {:induction false} KeptConcat(s: seq<Slot>, t: seq<Slot>, n: nat, now: int, q: Query)
    requires n <= |t|
    ensures Kept(s + t, |s| + n, now, q) == Kept(s, |s|, now, q) + Kept(t, n, now, q)
  {
    if n == 0 {
      KeptPrefix(s, t, |s|, now, q);
    } else {
      KeptConcat(s, t, n - 1, now, q);
    }
  }

  lemma {:induction false} KeptIff(slots: seq<Slot>, n: nat, now: int, q: Query, s: Slot)
    requires n <= |slots|
    ensures s in Kept(slots, n, now, q) <==> InAdvanceWindow(s, now, q) && exists i :: 0 <= i < n && slots[i] == s
  {
    if n == 0 {
    } else {
      KeptIff(slots, n - 1, now, q, s);
    }
  }

  /** Within the fetched days, the limited conflict list gives the same slots as all rows would. */
  lemma {:induction false} FetchedSlotsOfWindows(w: World, q: Query, a: int, b: int, day: int, ws: seq<Window>, n: nat)
    requires a <= day <= b && q.timing.Valid() && n <= |ws|
    ensures SlotsOfWindows(day, ws, n, q.timing, FetchConflicts(w, q, a, b))
            == SlotsOfWindows(day, ws, n, q.timing, AllConflicts(w, q))
  {
    if n == 0 {
    } else {
      FetchedSlotsOfWindows(w, q, a, b, day, ws, n - 1);
      var last := ws[n - 1];
      forall s: Slot | s.day == day && last.start + q.timing.before <= s.start && s.end <= last.end
        ensures IsFree(s, FetchConflicts(w, q, a, b)) <==> IsFree(s, AllConflicts(w, q))
      {
        FetchLosesNothing(w, q, a, b, s);
      }
      SameConflictsSameSlots(day, last.start, last.end, q.timing, FetchConflicts(w, q, a, b), AllConflicts(w, q));
    }
  }

  // ---------------------------------------------------------------------------
  // The service
  // ---------------------------------------------------------------------------

  /** The body of the day loop: nothing on a blocked day, else the slots of each of the day's rules. */
  method SlotsForDay(w: World, q: Query, day: int, rulesByDay: map<int, seq<Window>>, blockedDays: set<int>,
      conflicts: set<Interval>)
    returns (slots: seq<Slot>)
    requires q.timing.Valid()
    requires forall dow :: Lookup(rulesByDay, dow) == WindowsFor(q, dow)
    requires day in blockedDays <==> day in BlockedDays(w, q)
    ensures slots == DaySlots(w, q, day, conflicts)
  {
    slots := [];
    if day !in blockedDays {
      var dow := DayOfWeek(day);
      assert Lookup(rulesByDay, dow) == WindowsFor(q, dow);
      if dow in rulesByDay && |rulesByDay[dow]| > 0 {
        var dayRules := rulesByDay[dow];
        for i := 0 to |dayRules|
          invariant slots == SlotsOfWindows(day, dayRules, i, q.timing, conflicts)
        {
          var windowSlots := GenerateSlotsForWindow(day, dayRules[i], q.timing, conflicts);
          slots := slots + windowSlots;
        }
      }
    }
  }

  /** What has been found before a day, cut to the advance limits, is what the days before it offer. */
  ghost predicate FoundBefore(w: World, q: Query, a: int, day: int, found: seq<Slot>)
    requires q.timing.Valid()
  {
    WithinAdvance(found, w.db.now, q) == DayByDay(DayOffers(w, q), a, day - 1)
  }

  lemma FoundGrows(w: World, q: Query, a: int, b: int, day: int, found: seq<Slot>)
    requires a <= day <= b && q.timing.Valid() && FoundBefore(w, q, a, day, found)
    ensures FoundBefore(w, q, a, day + 1, found + DaySlots(w, q, day, FetchConflicts(w, q, a, b)))
  {
    DayFromFetched(w, q, a, b, day);
    var today := DaySlots(w, q, day, AllConflicts(w, q));
    KeptConcat(found, today, |today|, w.db.now, q);
  }

  /** getAvailableSlots, from the loaded rules and flow on. */
  method GetAvailableSlots(w: World, q: Query, a: int, b: int) returns (slots: seq<Slot>)
    requires q.timing.Valid()
    ensures slots == Offered(w, q, a, b)
  {
    var rulesByDay := BuildRulesByDay(q);
    var blockedDays := set i | 0 <= i < |w.blocked| && Blocks(w.blocked[i], q)
        && a <= w.blocked[i].day <= b :: w.blocked[i].day;
    assert forall d :: a <= d <= b ==> (d in blockedDays <==> d in BlockedDays(w, q));
    var conflicts := FetchConflicts(w, q, a, b);
    var found: seq<Slot> := [];
    var current := a;
    while current <= b
      invariant a <= current && (current <= b + 1 || current == a)
      invariant FoundBefore(w, q, a, current, found)
      decreases b - current
    {
      var daySlots := SlotsForDay(w, q, current, rulesByDay, blockedDays, conflicts);
      FoundGrows(w, q, a, b, current, found);
      found := found + daySlots;
      current := current + 1;
    }
    FoundAll(w, q, a, b, current, found);
    slots := WithinAdvance(found, w.db.now, q);
  }

  lemma FoundAll(w: World, q: Query, a: int, b: int, day: int, found: seq<Slot>)
    requires q.timing.Valid() && FoundBefore(w, q, a, day, found)
    requires day == b + 1 || (day == a && b < a)
    ensures WithinAdvance(found, w.db.now, q) == Offered(w, q, a, b)
  {
  }

  lemma DayFromFetched(w: World, q: Query, a: int, b: int, day: int)
    requires a <= day <= b && q.timing.Valid()
    ensures DaySlots(w, q, day, AllConflicts(w, q)) == DaySlots(w, q, day, FetchConflicts(w, q, a, b))
  {
    var ws := WindowsFor(q, DayOfWeek(day));
    FetchedSlotsOfWindows(w, q, a, b, day, ws, |ws|);
  }

  datatype NextDay = NextDay(day: int, slots: seq<Slot>)

  const MAX_DAYS: int := 90

  /** The answer to "when next?" over some days: the first day with anything, together with what it gives. */
  ghost predicate FirstDay(f: int -> seq<Slot>, a: int, b: int, next: Option<NextDay>) {
    match next
    case None => NothingBefore(f, a, b + 1)
    case Some(d) =>
      && a <= d.day <= b && d.slots == f(d.day) && d.slots != []
      && NothingBefore(f, a, d.day)
      && DayByDay(f, a, b) == d.slots + DayByDay(f, d.day + 1, b)
  }

  ghost predicate NothingBefore(f: int -> seq<Slot>, a: int, day: int) {
    DayByDay(f, a, day - 1) == []
  }

  /** One more day looked at, after days that gave nothing. */
  lemma NextDayLooked(f: int -> seq<Slot>, a: int, b: int, day: int, slots: seq<Slot>)
    requires a <= day <= b && NothingBefore(f, a, day) && slots == DayByDay(f, day, day)
    ensures |slots| == 0 ==> NothingBefore(f, a, day + 1)
    ensures |slots| > 0 ==> FirstDay(f, a, b, Some(NextDay(day, slots)))
  {
    assert slots == f(day);
    LastDay(f, a, day);
    if |slots| > 0 {
      FirstDayFound(f, a, b, day);
    }
  }

  lemma FirstDayFound(f: int -> seq<Slot>, a: int, b: int, day: int)
    requires a <= day <= b && NothingBefore(f, a, day) && f(day) != []
    ensures FirstDay(f, a, b, Some(NextDay(day, f(day))))
  {
    LastDay(f, a, day);
    DaysSplit(f, a, day, b);
    assert DayByDay(f, a, day) == f(day);
  }

  ghost predicate NothingOffered(w: World, q: Query, a: int, day: int)
    requires q.timing.Valid()
  {
    NothingBefore(DayOffers(w, q), a, day)
  }

  ghost predicate FirstOffer(w: World, q: Query, a: int, b: int, next: Option<NextDay>)
    requires q.timing.Valid()
  {
    FirstDay(DayOffers(w, q), a, b, next)
  }

  lemma OfferLooked(w: World, q: Query, a: int, b: int, day: int, slots: seq<Slot>)
    requires q.timing.Valid() && a <= day <= b && NothingOffered(w, q, a, day) && slots == Offered(w, q, day, day)
    ensures |slots| == 0 ==> NothingOffered(w, q, a, day + 1)
    ensures |slots| > 0 ==> FirstOffer(w, q, a, b, Some(NextDay(day, slots)))
  {
    NextDayLooked(DayOffers(w, q), a, b, day, slots);
  }

  lemma NothingInRange(w: World, q: Query, a: int, b: int)
    requires q.timing.Valid() && NothingOffered(w, q, a, b + 1)
    ensures FirstOffer(w, q, a, b, None)
  {
  }

  lemma NothingYet(w: World, q: Query, a: int)
    requires q.timing.Valid()
    ensures NothingOffered(w, q, a, a)
  {
  }

  /** The single-day query in the body of its loop. */
  method SlotsOfNextDay(w: World, q: Query, a: int, b: int, day: int) returns (slots: seq<Slot>)
    requires q.timing.Valid() && a <= day <= b && NothingOffered(w, q, a, day)
    ensures |slots| == 0 ==> NothingOffered(w, q, a, day + 1)
    ensures |slots| > 0 ==> FirstOffer(w, q, a, b, Some(NextDay(day, slots)))
  {
    slots := GetAvailableSlots(w, q, day, day);
    OfferLooked(w, q, a, b, day, slots);
  }

  /** getNextAvailable: the first of the next 90 days with a slot heads the 90-day query, or that query is empty. */
  method GetNextAvailable(w: World, q: Query, today: int) returns (next: Option<NextDay>)
    requires q.timing.Valid()
    ensures FirstOffer(w, q, today, today + 89, next)
  {
    next := None;
    var checkDate := today;
    var end := today + MAX_DAYS;
    NothingYet(w, q, today);
    while checkDate < end
      invariant today <= checkDate <= end
      invariant NothingOffered(w, q, today, checkDate)
    {
      var slots := SlotsOfNextDay(w, q, today, end - 1, checkDate);
      if |slots| > 0 {
        next := Some(NextDay(checkDate, slots));
        return;
      }
      checkDate := checkDate + 1;
    }
    NothingInRange(w, q, today, end - 1);
  }

  /** A query over a..c is the query over a..b followed by the query over b+1..c. */
  lemma OfferedSplits(w: World, q: Query, a: int, b: int, c: int)
    requires q.timing.Valid() && a <= b + 1 && b <= c
    ensures Offered(w, q, a, c) == Offered(w, q, a, b) + Offered(w, q, b + 1, c)
  {
    DaysSplit(DayOffers(w, q), a, b, c);
  }
}
