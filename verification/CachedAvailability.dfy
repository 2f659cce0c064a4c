/**
 Availability queries served from the rule cache: getAvailableSlots of
 apps/api/src/availability/availability.service.ts.
 */
module CachedAvailability {
  import opened Tables
  import opened SlotGrid
  import opened Availability
  import opened Agreement
  import RuleCache

  /** The cache keys of a query's two rule lists. */
  function ServiceKey(q: Query): RuleCache.Key {
    RuleCache.Key(q.tenant, Some(q.service), q.venue)
  }

  function TenantKey(q: Query): RuleCache.Key {
    RuleCache.Key(q.tenant, None, q.venue)
  }

  /** What the slot loops read of the rule rows. */
  function RulesOf(rows: seq<RuleCache.RuleRow>): seq<Rule> {
    seq(|rows|, i requires 0 <= i < |rows| => Rule(rows[i].dayOfWeek, rows[i].window))
  }

  function WithRules(q: Query, service: seq<RuleCache.RuleRow>, tenant: seq<RuleCache.RuleRow>): Query {
    q.(serviceRules := RulesOf(service), tenantRules := RulesOf(tenant))
  }

  /** The query with the rules that the cache, or on a miss the table, serves. */
  function FromCache(q: Query, s: RuleCache.State): Query {
    FromReads(q, s, true, true)
  }

  /** The same when the two reads of the cache may throw. */
  function FromReads(q: Query, s: RuleCache.State, ok: bool, okToo: bool): Query {
    WithRules(q, RuleCache.ServedTo(s, ServiceKey(q), ok), RuleCache.ServedTo(s, TenantKey(q), okToo))
  }

  /** The query with the rules in the table. */
  function FromTable(q: Query, s: RuleCache.State): Query {
    WithRules(q, RuleCache.Query(s.rows, ServiceKey(q)), RuleCache.Query(s.rows, TenantKey(q)))
  }

  /** Which of the four cache accesses of a query succeed. */
  datatype Luck = Luck(read: bool, stored: bool, readToo: bool, storedToo: bool)

  /** The rule-loading steps of getAvailableSlots and what follows them. */
  method GetAvailableSlotsCached(store: RuleCache.RuleStore, w: World, q: Query, a: int, b: int, luck: Luck)
    returns (slots: seq<Slot>)
    requires q.timing.Valid()
    modifies store
    ensures slots == Offered(w, FromReads(q, old(store.Value()), luck.read, luck.readToo), a, b)
    ensures store.rows == old(store.rows) && store.now == old(store.now)
  {
    ghost var was := store.Value();
    var serviceRules, read, missed := store.LookUp(ServiceKey(q), luck.read);
    if missed {
      store.SetCachedRules(read, luck.stored);
    }
    assert RuleCache.Served(store.Value(), TenantKey(q)) == RuleCache.Served(was, TenantKey(q));
    var tenantWideRules;
    tenantWideRules, read, missed := store.LookUp(TenantKey(q), luck.readToo);
    if missed {
      store.SetCachedRules(read, luck.storedToo);
    }
    slots := GetAvailableSlots(w, WithRules(q, serviceRules, tenantWideRules), a, b);
  }

  /**
   While every read of the cache is current, the slots offered are those of the rules in the table, whatever fails.
   */
  lemma CurrentOffers(w: World, q: Query, s: RuleCache.State, ok: bool, okToo: bool, a: int, b: int)
    requires q.timing.Valid() && RuleCache.Fresh(s)
    ensures Offered(w, FromReads(q, s, ok, okToo), a, b) == Offered(w, FromTable(q, s), a, b)
  {
    assert RuleCache.Served(s, ServiceKey(q)) == RuleCache.Query(s.rows, ServiceKey(q));
    assert RuleCache.Served(s, TenantKey(q)) == RuleCache.Query(s.rows, TenantKey(q));
  }

  /** The rules decide only which windows a slot may come from; the rest of a query's answer does not depend on them. */
  ghost predicate OfferableOtherwise(w: World, q: Query, a: int, b: int, slot: Slot) {
    && a <= slot.day <= b && slot.day !in BlockedDays(w, q) && InAdvanceWindow(slot, w.db.now, q)
    && NothingInTheWay(w, q, slot)
  }

  /**
   A stale cache offers a slot wrongly exactly when nothing else is against it and only the outdated rules have a
   window for it.
   */
  lemma OfferedWronglyIff(w: World, q: Query, s: RuleCache.State, a: int, b: int, slot: Slot)
    requires q.timing.Valid()
    ensures slot in Offered(w, FromCache(q, s), a, b) && slot !in Offered(w, FromTable(q, s), a, b)
            <==> OfferableOtherwise(w, q, a, b, slot) && OnGrid(FromCache(q, s), slot) && !OnGrid(FromTable(q, s), slot)
  {
    RulesMatterOnGridOnly(w, q, FromCache(q, s), a, b, slot);
    RulesMatterOnGridOnly(w, q, FromTable(q, s), a, b, slot);
  }

  /** And it withholds one wrongly exactly when only the rules in the table have a window for it. */
  lemma WithheldWronglyIff(w: World, q: Query, s: RuleCache.State, a: int, b: int, slot: Slot)
    requires q.timing.Valid()
    ensures slot !in Offered(w, FromCache(q, s), a, b) && slot in Offered(w, FromTable(q, s), a, b)
            <==> OfferableOtherwise(w, q, a, b, slot) && !OnGrid(FromCache(q, s), slot) && OnGrid(FromTable(q, s), slot)
  {
    RulesMatterOnGridOnly(w, q, FromCache(q, s), a, b, slot);
    RulesMatterOnGridOnly(w, q, FromTable(q, s), a, b, slot);
  }

  lemma RulesMatterOnGridOnly(w: World, q: Query, loaded: Query, a: int, b: int, slot: Slot)
    requires q.timing.Valid() && loaded == q.(serviceRules := loaded.serviceRules, tenantRules := loaded.tenantRules)
    ensures slot in Offered(w, loaded, a, b) <==> OfferableOtherwise(w, q, a, b, slot) && OnGrid(loaded, slot)
  {
    OfferedIff(w, loaded, a, b, slot);
    assert BlockedDays(w, loaded) == BlockedDays(w, q);
    forall i | 0 <= i < |w.db.bookings|
      ensures BookingCounts(w.db.bookings[i], loaded) <==> BookingCounts(w.db.bookings[i], q)
    {
    }
    forall i | 0 <= i < |w.db.holds|
      ensures HoldCounts(w.db.holds[i], w.db.now, loaded) <==> HoldCounts(w.db.holds[i], w.db.now, q)
    {
    }
    forall i | 0 <= i < |w.events| ensures EventCounts(w.events[i], loaded) <==> EventCounts(w.events[i], q) {
    }
  }

  /** A query that runs its two rule queries on the table as it was after i and after j steps of a run. */
  function FromHistory(q: Query, now: int, ops: seq<RuleCache.Op>, i: nat, j: nat): Query
    requires i <= |ops| && j <= |ops|
  {
    WithRules(q, RuleCache.Query(RuleCache.After(RuleCache.Empty(now), ops, i).rows, ServiceKey(q)),
              RuleCache.Query(RuleCache.After(RuleCache.Empty(now), ops, j).rows, TenantKey(q)))
  }

  /** What a query is offered that reads the service's rules after m steps of a run and the tenant's after n. */
  function FromRun(q: Query, now: int, ops: seq<RuleCache.Op>, m: nat, ok: bool, n: nat, okToo: bool): Query
    requires m <= |ops| && n <= |ops|
  {
    WithRules(q, RuleCache.ServedTo(RuleCache.After(RuleCache.Empty(now), ops, m), ServiceKey(q), ok),
              RuleCache.ServedTo(RuleCache.After(RuleCache.Empty(now), ops, n), TenantKey(q), okToo))
  }

  /** The rules served after n steps are those in the table after some i <= n, less than the given time before. */
  lemma ServedFromHistory(now: int, ops: seq<RuleCache.Op>, n: nat, k: RuleCache.Key, ok: bool, delay: nat)
    returns (i: nat)
    requires n <= |ops| && RuleCache.StoresWithin(RuleCache.Empty(now), ops, n, delay)
    ensures i <= n
    ensures RuleCache.ServedTo(RuleCache.After(RuleCache.Empty(now), ops, n), k, ok)
            == RuleCache.Query(RuleCache.After(RuleCache.Empty(now), ops, i).rows, k)
    ensures RuleCache.After(RuleCache.Empty(now), ops, n).now
            < RuleCache.After(RuleCache.Empty(now), ops, i).now + delay + RuleCache.CACHE_MS
  {
    var start := RuleCache.Empty(now);
    var rules := RuleCache.ServedTo(RuleCache.After(start, ops, n), k, ok);
    var t := RuleCache.ServedIsRecent(now, ops, n, k, ok, delay);
    i :| && i <= n && rules == RuleCache.Query(RuleCache.After(start, ops, i).rows, k)
         && RuleCache.After(start, ops, i).now == t;
  }

  /**
   Whatever fails and whatever interleaves, also between the two reads of one query: the slots offered are exactly those
   that the tables of two earlier states of the rule store would offer, each less than half an hour, plus the longest
   time a request took from query to store, before its list was read. Bookings, holds, events and the clock may be any:
   the query takes its time before it reads the rules and its rows after.
   */
  lemma RecentOffers(now: int, ops: seq<RuleCache.Op>, m: nat, ok: bool, n: nat, okToo: bool, delay: nat,
      w: World, q: Query, a: int, b: int) returns (i: nat, j: nat)
    requires m <= n <= |ops| && q.timing.Valid()
    requires RuleCache.StoresWithin(RuleCache.Empty(now), ops, n, delay)
    ensures i <= m && j <= n
    ensures Offered(w, FromRun(q, now, ops, m, ok, n, okToo), a, b) == Offered(w, FromHistory(q, now, ops, i, j), a, b)
    ensures RuleCache.After(RuleCache.Empty(now), ops, m).now
            < RuleCache.After(RuleCache.Empty(now), ops, i).now + delay + RuleCache.CACHE_MS
    ensures RuleCache.After(RuleCache.Empty(now), ops, n).now
            < RuleCache.After(RuleCache.Empty(now), ops, j).now + delay + RuleCache.CACHE_MS
  {
    i := ServedFromHistory(now, ops, m, ServiceKey(q), ok, delay);
    j := ServedFromHistory(now, ops, n, TenantKey(q), okToo, delay);
  }

  /** A write between a request's query for the tenant's rules and its store. */
  function LateRun(s: RuleCache.State, q: Query, write: RuleCache.Op): RuleCache.State {
    RuleCache.Step(RuleCache.Step(RuleCache.Step(s, RuleCache.Look(TenantKey(q), true)), write),
        RuleCache.Store(|s.inFlight|, true))
  }

  /** After that run a query is served the tenant's rules from before the write, and the service's as they are. */
  lemma LateReads(q: Query, s: RuleCache.State, write: RuleCache.Op)
    requires RuleCache.IsWrite(write) && write.ok
    requires RuleCache.Cached(s, ServiceKey(q)).None? && RuleCache.Cached(s, TenantKey(q)).None?
    requires RuleCache.Query(RuleCache.Step(s, write).rows, TenantKey(q)) != RuleCache.Query(s.rows, TenantKey(q))
    ensures var late := LateRun(s, q, write);
            && late.rows == RuleCache.Step(s, write).rows
            && RuleCache.Served(late, TenantKey(q)) == RuleCache.Query(s.rows, TenantKey(q))
            && RuleCache.Served(late, ServiceKey(q)) == RuleCache.Query(late.rows, ServiceKey(q))
  {
    RuleCache.StaleAfterLateStore(s, write, TenantKey(q));
  }

  /**
   So a slot that a write takes away may go on being offered although the write's invalidation succeeded: if neither
   list was cached, the write comes between the query for the tenant's rules and its store, and leaves the service's
   alone.
   */
  lemma RemovedButOffered(w: World, q: Query, s: RuleCache.State, write: RuleCache.Op, a: int, b: int, slot: Slot)
    requires q.timing.Valid() && RuleCache.IsWrite(write) && write.ok
    requires RuleCache.Cached(s, ServiceKey(q)).None? && RuleCache.Cached(s, TenantKey(q)).None?
    requires RuleCache.Query(RuleCache.Step(s, write).rows, ServiceKey(q)) == RuleCache.Query(s.rows, ServiceKey(q))
    requires slot in Offered(w, FromTable(q, s), a, b)
    requires slot !in Offered(w, FromTable(q, RuleCache.Step(s, write)), a, b)
    ensures slot in Offered(w, FromCache(q, LateRun(s, q, write)), a, b)
    ensures slot !in Offered(w, FromTable(q, LateRun(s, q, write)), a, b)
  {
    LateReads(q, s, write);
  }

  function EmptyWorld(): World {
    World(Db(0, [], [], [], Picked({}, {}, {})), [], [])
  }

  function HourQuery(): Query {
    Query(0, 1, None, None, Timing(60, 0, 0), [], [], None, None)
  }

  /** From midnight to one o'clock on Thursdays; day 0 is one. */
  function ThursdayRule(): RuleCache.RuleRow {
    RuleCache.RuleRow(0, None, None, 4, Window(0, 60), true)
  }

  function OneRule(): RuleCache.State {
    RuleCache.Step(RuleCache.Empty(0), RuleCache.Create(ThursdayRule(), true))
  }

  lemma OneRuleLoaded()
    ensures OneRule() == RuleCache.State(0, [Some(ThursdayRule())], map[], [])
    ensures FromTable(HourQuery(), OneRule()) == HourQuery().(tenantRules := [Rule(4, Window(0, 60))])
  {
    var rows := [Some(ThursdayRule())];
    assert OneRule() == RuleCache.State(0, rows, map[], []);
    assert RuleCache.Selected(rows, 0, ServiceKey(HourQuery())) == [];
    assert RuleCache.Selected(rows, 0, TenantKey(HourQuery())) == [];
    assert RuleCache.Query(rows, TenantKey(HourQuery())) == [ThursdayRule()];
    assert RulesOf([ThursdayRule()]) == [Rule(4, Window(0, 60))];
  }

  function Removal(): RuleCache.Op {
    RuleCache.Remove(0, 0, true)
  }

  lemma NoRuleLoaded(s: RuleCache.State)
    requires s.rows == [None]
    ensures FromTable(HourQuery(), s) == HourQuery()
  {
    assert RuleCache.Selected([None], 0, ServiceKey(HourQuery())) == [];
    assert RuleCache.Selected([None], 0, TenantKey(HourQuery())) == [];
  }

  /** In the empty world that one rule decides whether the slot is offered. */
  lemma OfferedByRuleOnly(slot: Slot)
    requires slot == Slot(0, 0, 60)
    ensures slot in Offered(EmptyWorld(), HourQuery().(tenantRules := [Rule(4, Window(0, 60))]), 0, 0)
    ensures slot !in Offered(EmptyWorld(), HourQuery(), 0, 0)
  {
    var q := HourQuery().(tenantRules := [Rule(4, Window(0, 60))]);
    assert OfferableOtherwise(EmptyWorld(), HourQuery(), 0, 0, slot);
    SingleRuleOnGrid(q, slot);
    NoRulesOffGrid(HourQuery(), slot);
    RulesMatterOnGridOnly(EmptyWorld(), HourQuery(), q, 0, 0, slot);
    RulesMatterOnGridOnly(EmptyWorld(), HourQuery(), HourQuery(), 0, 0, slot);
  }

  lemma RemovalEmptiesTable()
    ensures RuleCache.Step(OneRule(), Removal()).rows == [None]
  {
    OneRuleLoaded();
  }

  /** One rule, removed while a request for its time is under way: the slot is still offered without any rule. */
  lemma RemovedRuleStillOffered()
    ensures var late := LateRun(OneRule(), HourQuery(), Removal());
            late.rows == [None] && Slot(0, 0, 60) in Offered(EmptyWorld(), FromCache(HourQuery(), late), 0, 0)
  {
    var s, written := OneRule(), RuleCache.Step(OneRule(), Removal());
    OneRuleLoaded();
    RemovalEmptiesTable();
    NoRuleLoaded(written);
    OfferedByRuleOnly(Slot(0, 0, 60));
    SameServiceRules();
    assert written.rows == [None] && s.rows == [Some(ThursdayRule())];
    RemovedButOffered(EmptyWorld(), HourQuery(), s, Removal(), 0, 0, Slot(0, 0, 60));
    LateRows();
  }

  lemma SameServiceRules()
    ensures RuleCache.Query([None], ServiceKey(HourQuery())) == []
         == RuleCache.Query([Some(ThursdayRule())], ServiceKey(HourQuery()))
  {
    assert RuleCache.Selected([None], 0, ServiceKey(HourQuery())) == [];
    assert RuleCache.Selected([Some(ThursdayRule())], 0, ServiceKey(HourQuery())) == [];
  }

  lemma LateRows()
    ensures LateRun(OneRule(), HourQuery(), Removal()).rows == [None]
  {
    OneRuleLoaded();
  }

  lemma SingleRuleWindows(q: Query)
    requires q.serviceRules == [] && q.tenantRules == [Rule(4, Window(0, 60))]
    ensures WindowsFor(q, DayOfWeek(0)) == [Window(0, 60)]
  {
    assert DayOfWeek(0) == 4;
    assert !NamesDay(q.serviceRules, 4);
    assert OnDay(q.tenantRules, 0, 4) == [];
  }

  lemma SingleRuleOnGrid(q: Query, slot: Slot)
    requires q.timing == Timing(60, 0, 0) && q.serviceRules == [] && q.tenantRules == [Rule(4, Window(0, 60))]
    requires slot == Slot(0, 0, 60)
    ensures OnGrid(q, slot)
  {
    SingleRuleWindows(q);
    FirstOnGrid(q, [Window(0, 60)], slot);
  }

  /** The first grid position of a day's first window. */
  lemma FirstOnGrid(q: Query, ws: seq<Window>, slot: Slot)
    requires WindowsFor(q, DayOfWeek(slot.day)) == ws && |ws| > 0
    requires slot == SlotAt(slot.day, ws[0].start, q.timing) && slot.end <= ws[0].end
    ensures OnGrid(q, slot)
  {
    var first: nat, start: nat := 0, 0;
    assert first < |ws| && slot.end <= ws[first].end && slot == GridSlot(slot.day, ws[first].start, q.timing, start);
  }

  lemma NoRulesOffGrid(q: Query, slot: Slot)
    requires q.serviceRules == [] && q.tenantRules == []
    ensures !OnGrid(q, slot)
  {
    assert WindowsFor(q, DayOfWeek(slot.day)) == [];
  }

  /** A list whose read of the cache throws is the table's, and the other one is not affected. */
  lemma FailedReadIsCurrent(q: Query, s: RuleCache.State, ok: bool)
    ensures FromReads(q, s, false, false) == FromTable(q, s)
    ensures FromReads(q, s, ok, false) == FromReads(q, s, ok, true).(tenantRules := FromTable(q, s).tenantRules)
    ensures FromReads(q, s, false, ok) == FromReads(q, s, true, ok).(serviceRules := FromTable(q, s).serviceRules)
  {
  }
}
