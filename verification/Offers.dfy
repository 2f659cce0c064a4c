/** What the rules and rows behind an availability query decide, in terms of the rows themselves. */
module Offers {
  import opened Tables
  import opened Bookings
  import opened SlotGrid
  import opened Availability
  import opened Agreement
  import opened CachedAvailability
  import RuleCache

  // ---------------------------------------------------------------------------
  // Which rules apply on a day
  // ---------------------------------------------------------------------------

  lemma {:induction false} OnDayIff(rules: seq<Rule>, n: nat, dow: int, w: Window)
    requires n <= |rules|
    ensures w in OnDay(rules, n, dow) <==> exists i :: 0 <= i < n && rules[i] == Rule(dow, w)
  {
    if n == 0 {
    } else {
      OnDayIff(rules, n - 1, dow, w);
    }
  }

  /** A service's own rules for a day are the day's windows; only where it has none are the tenant-wide ones. */
  lemma WindowsForIff(q: Query, dow: int, w: Window)
    ensures w in WindowsFor(q, dow)
            <==> || Rule(dow, w) in q.serviceRules
                 || (Rule(dow, w) in q.tenantRules && forall r :: r in q.serviceRules ==> r.dayOfWeek != dow)
  {
    OnDayIff(q.serviceRules, |q.serviceRules|, dow, w);
    OnDayIff(q.tenantRules, |q.tenantRules|, dow, w);
  }

  lemma {:induction false} OnDayPrefix(rules: seq<Rule>, r: Rule, n: nat, dow: int)
    requires n <= |rules|
    ensures OnDay(rules + [r], n, dow) == OnDay(rules, n, dow)
  {
    if n == 0 {
    } else {
      OnDayPrefix(rules, r, n - 1, dow);
    }
  }

  /** Some of the service's own rules is for the day of the week. */
  predicate HasOwnRule(q: Query, dow: int) {
    exists s :: s in q.serviceRules && s.dayOfWeek == dow
  }

  /**
   Windows come in the order of their rules: a rule at the end of its list gives the last window of its day, the
   service's first rule for a day its only one.
   */
  lemma LastRuleLast(q: Query, r: Rule)
    ensures WindowsFor(q.(serviceRules := q.serviceRules + [r]), r.dayOfWeek)
            == (if HasOwnRule(q, r.dayOfWeek) then WindowsFor(q, r.dayOfWeek) else []) + [r.window]
    ensures !HasOwnRule(q, r.dayOfWeek) ==>
              WindowsFor(q.(tenantRules := q.tenantRules + [r]), r.dayOfWeek) == WindowsFor(q, r.dayOfWeek) + [r.window]
  {
    var more := q.serviceRules + [r];
    OnDayPrefix(q.serviceRules, r, |q.serviceRules|, r.dayOfWeek);
    OnDayPrefix(q.tenantRules, r, |q.tenantRules|, r.dayOfWeek);
    assert more[|q.serviceRules|] == r;
    OnDayEmptyIff(q.serviceRules, |q.serviceRules|, r.dayOfWeek);
  }

  lemma {:induction false} SameAdvance(slots: seq<Slot>, n: nat, now: int, q: Query, p: Query)
    requires n <= |slots| && p.minAdvance == q.minAdvance && p.maxAdvance == q.maxAdvance
    ensures Kept(slots, n, now, p) == Kept(slots, n, now, q)
  {
    if n == 0 {
    } else {
      SameAdvance(slots, n - 1, now, q, p);
    }
  }

  /** Two queries that differ in their rules only. */
  predicate SameButRules(p: Query, q: Query) {
    p == q.(serviceRules := p.serviceRules, tenantRules := p.tenantRules)
  }

  lemma SameConflicts(w: World, p: Query, q: Query)
    requires SameButRules(p, q)
    ensures AllConflicts(w, p) == AllConflicts(w, q)
  {
  }

  /** The query's answer for a day depends on its two rule lists through the windows of that day alone. */
  lemma SameWindowsSameDay(w: World, p: Query, q: Query, day: int)
    requires q.timing.Valid() && SameButRules(p, q) && WindowsFor(p, DayOfWeek(day)) == WindowsFor(q, DayOfWeek(day))
    ensures OfferedOn(w, p, day) == OfferedOn(w, q, day)
  {
    SameConflicts(w, p, q);
    assert BlockedDays(w, p) == BlockedDays(w, q);
    var slots := DaySlots(w, q, day, AllConflicts(w, q));
    SameAdvance(slots, |slots|, w.db.now, q, p);
  }

  lemma {:induction false} SameDaysSameOffers(w: World, p: Query, q: Query, a: int, b: int)
    requires p.timing.Valid() && q.timing.Valid()
    requires forall day :: a <= day <= b ==> OfferedOn(w, p, day) == OfferedOn(w, q, day)
    ensures Offered(w, p, a, b) == Offered(w, q, a, b)
    decreases b - a
  {
    if b < a {
    } else {
      SameDaysSameOffers(w, p, q, a, b - 1);
      LastDay(DayOffers(w, p), a, b);
      LastDay(DayOffers(w, q), a, b);
    }
  }

  /**
   On the weekday of any of the service's own rules the tenant-wide ones make no difference: one more of them changes no
   offer at all.
   */
  lemma TenantRuleIgnored(w: World, q: Query, r: Rule, a: int, b: int)
    requires q.timing.Valid() && HasOwnRule(q, r.dayOfWeek)
    ensures Offered(w, q.(tenantRules := q.tenantRules + [r]), a, b) == Offered(w, q, a, b)
  {
    var p := q.(tenantRules := q.tenantRules + [r]);
    forall day | a <= day <= b ensures OfferedOn(w, p, day) == OfferedOn(w, q, day) {
      OnDayPrefix(q.tenantRules, r, |q.tenantRules|, DayOfWeek(day));
      assert WindowsFor(p, DayOfWeek(day)) == WindowsFor(q, DayOfWeek(day));
      SameWindowsSameDay(w, p, q, day);
    }
    SameDaysSameOffers(w, p, q, a, b);
  }

  /** Where the service has rules of its own for every day of a range, it is offered by them alone. */
  lemma ServiceRulesReplace(w: World, q: Query, a: int, b: int)
    requires q.timing.Valid()
    requires forall day :: a <= day <= b ==> HasOwnRule(q, DayOfWeek(day))
    ensures Offered(w, q.(tenantRules := []), a, b) == Offered(w, q, a, b)
  {
    var p := q.(tenantRules := []);
    forall day | a <= day <= b ensures OfferedOn(w, p, day) == OfferedOn(w, q, day) {
      var s :| s in q.serviceRules && s.dayOfWeek == DayOfWeek(day);
      var i :| 0 <= i < |q.serviceRules| && q.serviceRules[i] == s;
      assert NamesDay(q.serviceRules, DayOfWeek(day));
      SameWindowsSameDay(w, p, q, day);
    }
    SameDaysSameOffers(w, p, q, a, b);
  }

  /** Where it has none for any day of the range, it is offered by the tenant-wide ones alone. */
  lemma TenantRulesFillIn(w: World, q: Query, a: int, b: int)
    requires q.timing.Valid()
    requires forall day :: a <= day <= b ==> !HasOwnRule(q, DayOfWeek(day))
    ensures Offered(w, q.(serviceRules := []), a, b) == Offered(w, q, a, b)
  {
    var p := q.(serviceRules := []);
    forall day | a <= day <= b ensures OfferedOn(w, p, day) == OfferedOn(w, q, day) {
      assert !HasOwnRule(q, DayOfWeek(day));
      assert forall i :: 0 <= i < |q.serviceRules| ==> q.serviceRules[i] in q.serviceRules;
      SameWindowsSameDay(w, p, q, day);
    }
    SameDaysSameOffers(w, p, q, a, b);
  }

  // ---------------------------------------------------------------------------
  // The whole answer, from the rows of the tables
  // ---------------------------------------------------------------------------

  /** One of the service's own rules, at the venue asked for. */
  predicate OwnRule(r: RuleCache.RuleRow, q: Query, dow: int) {
    && r.active && r.dayOfWeek == dow && r.tenant == q.tenant && r.service == Some(q.service)
    && (q.venue.Some? ==> r.venue == q.venue)
  }

  /** A rule for all services, at the venue asked for or at any. */
  predicate GeneralRule(r: RuleCache.RuleRow, q: Query, dow: int) {
    && r.active && r.dayOfWeek == dow && r.tenant == q.tenant && r.service.None?
    && (q.venue.Some? ==> r.venue == q.venue || r.venue.None?)
  }

  /** The rule is in the table and applies: general rules only where the service has none of its own for the day. */
  ghost predicate AppliesOn(rows: seq<Option<RuleCache.RuleRow>>, r: RuleCache.RuleRow, q: Query, dow: int) {
    && Some(r) in rows
    && (OwnRule(r, q, dow) || (GeneralRule(r, q, dow) && forall x :: Some(x) in rows ==> !OwnRule(x, q, dow)))
  }

  /** The slots before the k-th take k times a service with both its buffers. */
  function TakenBefore(t: Timing, k: nat): int {
    k * (t.before + t.duration + t.after)
  }

  /** The slot comes after a whole number of others and the buffer before it, and is over before the window is. */
  ghost predicate FitsWindow(s: Slot, w: Window, t: Timing) {
    && s.end == s.start + t.duration && s.end <= w.end
    && exists k: nat :: s.start == w.start + TakenBefore(t, k) + t.before
  }

  lemma FitsIff(s: Slot, w: Window, t: Timing)
    ensures FitsWindow(s, w, t) <==> s.end <= w.end && exists k: nat :: s == GridSlot(s.day, w.start, t, k)
  {
    if k: nat :| s == GridSlot(s.day, w.start, t, k) {
      assert s.start == w.start + TakenBefore(t, k) + t.before;
    }
    if FitsWindow(s, w, t) {
      var k: nat :| s.start == w.start + TakenBefore(t, k) + t.before;
      assert s == GridSlot(s.day, w.start, t, k);
    }
  }

  lemma RuleOfIff(rows: seq<RuleCache.RuleRow>, dow: int, w: Window)
    ensures Rule(dow, w) in RulesOf(rows) <==> exists r :: r in rows && r.dayOfWeek == dow && r.window == w
  {
    var rules := RulesOf(rows);
    if Rule(dow, w) in rules {
      var i :| 0 <= i < |rules| && rules[i] == Rule(dow, w);
      assert rows[i] in rows;
    }
    if r :| r in rows && r.dayOfWeek == dow && r.window == w {
      var i :| 0 <= i < |rows| && rows[i] == r;
      assert rules[i] == Rule(dow, w);
    }
  }

  lemma DayOfRules(rows: seq<RuleCache.RuleRow>, dow: int)
    ensures (exists s :: s in RulesOf(rows) && s.dayOfWeek == dow) <==> exists r :: r in rows && r.dayOfWeek == dow
  {
    var rules := RulesOf(rows);
    if s :| s in rules && s.dayOfWeek == dow {
      RuleOfIff(rows, dow, s.window);
    }
    if r :| r in rows && r.dayOfWeek == dow {
      RuleOfIff(rows, dow, r.window);
    }
  }

  /** What the two rule queries find for a day of the week. */
  lemma LoadedIff(rows: seq<Option<RuleCache.RuleRow>>, q: Query, dow: int, r: RuleCache.RuleRow)
    ensures r in RuleCache.Query(rows, ServiceKey(q)) && r.dayOfWeek == dow <==> Some(r) in rows && OwnRule(r, q, dow)
    ensures r in RuleCache.Query(rows, TenantKey(q)) && r.dayOfWeek == dow
            <==> Some(r) in rows && GeneralRule(r, q, dow)
  {
    RuleCache.SelectedIff(rows, |rows|, ServiceKey(q), r);
    RuleCache.SelectedIff(rows, |rows|, TenantKey(q), r);
  }

  /** From the table: the windows of a weekday are those of the rules that apply on it. */
  lemma TableWindowsIff(q: Query, s: RuleCache.State, dow: int, w: Window)
    ensures w in WindowsFor(FromTable(q, s), dow) <==> exists r :: AppliesOn(s.rows, r, q, dow) && r.window == w
  {
    var own, general := RuleCache.Query(s.rows, ServiceKey(q)), RuleCache.Query(s.rows, TenantKey(q));
    WindowsForIff(FromTable(q, s), dow, w);
    RuleOfIff(own, dow, w);
    RuleOfIff(general, dow, w);
    DayOfRules(own, dow);
    forall r
      ensures r in own && r.dayOfWeek == dow <==> Some(r) in s.rows && OwnRule(r, q, dow)
      ensures r in general && r.dayOfWeek == dow <==> Some(r) in s.rows && GeneralRule(r, q, dow)
    {
      LoadedIff(s.rows, q, dow, r);
    }
  }

  lemma OnTableGridIff(q: Query, st: RuleCache.State, s: Slot)
    ensures OnGrid(FromTable(q, st), s)
            <==> exists r :: AppliesOn(st.rows, r, q, DayOfWeek(s.day)) && FitsWindow(s, r.window, q.timing)
  {
    var loaded, dow := FromTable(q, st), DayOfWeek(s.day);
    var ws := WindowsFor(loaded, dow);
    if OnGrid(loaded, s) {
      var i: nat, k: nat :| i < |ws| && s.end <= ws[i].end && s == GridSlot(s.day, ws[i].start, loaded.timing, k);
      FitsIff(s, ws[i], q.timing);
      TableWindowsIff(q, st, dow, ws[i]);
    }
    if r :| AppliesOn(st.rows, r, q, dow) && FitsWindow(s, r.window, q.timing) {
      TableWindowsIff(q, st, dow, r.window);
      FitsIff(s, r.window, q.timing);
      var i: nat :| i < |ws| && ws[i] == r.window;
      var k: nat :| s == GridSlot(s.day, r.window.start, q.timing, k);
      assert s == GridSlot(s.day, ws[i].start, loaded.timing, k);
    }
  }

  /** A row of the tenant and service, within the query's venue and staff filters if it has them. */
  predicate SeenBy(q: Query, tenant: Id, service: Id, venue: Option<Id>, staff: Option<Id>) {
    && tenant == q.tenant && service == q.service
    && (q.venue.Some? ==> venue == q.venue) && (q.staff.Some? ==> staff == q.staff)
  }

  /** Some instant is both in the slot and in the interval. */
  predicate Meets(s: Slot, start: int, end: int) {
    At(s.day, s.start) < end && start < At(s.day, s.end)
  }

  /**
   No pending, confirmed or running booking, no unexpired hold and no synced event of those the query sees meets s.
   */
  predicate Unhindered(w: World, q: Query, s: Slot) {
    && (forall b :: b in w.db.bookings && SeenBy(q, b.tenant, b.service, b.venue, b.staff) && !Terminal(b.status)
          ==> !Meets(s, b.start, b.end))
    && (forall h :: h in w.db.holds && SeenBy(q, h.tenant, h.service, h.venue, h.staff)
                    && h.status == Held && w.db.now < h.expiresAt
          ==> !Meets(s, h.start, h.end))
    && (forall e :: e in w.events && e.tenant == q.tenant && e.inbound && (q.staff.Some? ==> q.staff == Some(e.owner))
          ==> !Meets(s, e.start, e.end))
  }

  /** At least the minimum and at most the maximum number of days ahead; a limit of zero days limits nothing. */
  predicate AdvanceAllows(now: int, q: Query, s: Slot) {
    var ahead := At(s.day, s.start) - now;
    && (q.minAdvance.Some? ==> q.minAdvance.value == 0 || Days(q.minAdvance.value) <= ahead)
    && (q.maxAdvance.Some? ==> q.maxAdvance.value == 0 || ahead <= Days(q.maxAdvance.value))
  }

  /** The tenant has blocked the day for this service or for all. */
  predicate Closed(w: World, q: Query, day: int) {
    BlockedDate(q.tenant, None, day) in w.blocked || BlockedDate(q.tenant, Some(q.service), day) in w.blocked
  }

  lemma ClosedIff(w: World, q: Query, day: int)
    ensures day in BlockedDays(w, q) <==> Closed(w, q, day)
  {
    if day in BlockedDays(w, q) {
      var i :| 0 <= i < |w.blocked| && Blocks(w.blocked[i], q) && w.blocked[i].day == day;
      assert w.blocked[i] in w.blocked;
      assert w.blocked[i] == BlockedDate(q.tenant, w.blocked[i].service, day);
    }
    if Closed(w, q, day) {
      var d :| d in w.blocked && d.tenant == q.tenant && d.day == day
          && (d.service.None? || d.service == Some(q.service));
      var i :| 0 <= i < |w.blocked| && w.blocked[i] == d;
      assert Blocks(w.blocked[i], q);
    }
  }

  lemma UnhinderedIff(w: World, q: Query, s: Slot)
    ensures NothingInTheWay(w, q, s) <==> Unhindered(w, q, s)
  {
  }

  /**
   The whole answer from the rows: a slot of a day in range is offered exactly when the tenant has not blocked the day,
   an active rule that applies to the service has room for it, the advance limits allow it, and no row that the query
   sees meets it.
   */
  lemma OfferedFromTableIff(w: World, q: Query, st: RuleCache.State, a: int, b: int, s: Slot)
    requires q.timing.Valid()
    ensures s in Offered(w, FromTable(q, st), a, b)
            <==> && a <= s.day <= b && !Closed(w, q, s.day)
                 && (exists r :: AppliesOn(st.rows, r, q, DayOfWeek(s.day)) && FitsWindow(s, r.window, q.timing))
                 && AdvanceAllows(w.db.now, q, s) && Unhindered(w, q, s)
  {
    RulesMatterOnGridOnly(w, q, FromTable(q, st), a, b, s);
    ClosedIff(w, q, s.day);
    OnTableGridIff(q, st, s);
    UnhinderedIff(w, q, s);
  }

  /** The fetch behind a query brings the rows that touch its days, but for the last millisecond of the last one. */
  lemma FetchBringsIff(w: World, q: Query, a: int, b: int, c: Interval)
    ensures c in FetchConflicts(w, q, a, b)
            <==> c in AllConflicts(w, q) && c.start < At(b + 1, 0) - 1 && At(a, 0) < c.end
  {
    FetchedIff(w, q, a, b, c);
  }

  // ---------------------------------------------------------------------------
  // Days and instants
  // ---------------------------------------------------------------------------

  /** Weekdays follow each other, and 1970-01-01 was a Thursday. */
  lemma WeekdaysFollow(day: int)
    ensures DayOfWeek(0) == 4
    ensures DayOfWeek(day + 1) == if DayOfWeek(day) == 6 then 0 else DayOfWeek(day) + 1
  {
  }

  /**
   A time of day lies on its day, midnight is its first instant, and each minute is 60 seconds after the one before,
   across midnight too.
   */
  lemma MinutesFollow(day: int, m: TimeOfDay)
    ensures DayOf(At(day, m)) == day && DayOf(At(day, 0) - 1) == day - 1
    ensures At(day, m + 1) == At(day, m) + 60_000 && At(day, 1440) == At(day + 1, 0)
  {
  }
}
