/** What each write of a rule does to the rule queries, the offers behind them and the cache. */
module RuleEdits {
  import opened Tables
  import opened SlotGrid
  import opened RuleCache
  import Availability
  import CachedAvailability

  // ---------------------------------------------------------------------------
  // Updating
  // ---------------------------------------------------------------------------

  /** An update that gives nothing but isActive = false. */
  function Deactivation(): Patch {
    Patch(None, None, None, None, None, Some(false))
  }

  /** Deactivating a rule changes every query as removing it does. */
  lemma DeactivatedIsRemoved(s: State, tenant: Id, id: Id, ok: bool, k: Key)
    ensures Query(Step(s, Update(tenant, id, Deactivation(), ok)).rows, k)
            == Query(Step(s, Remove(tenant, id, ok)).rows, k)
  {
    if RowFound(s, tenant, id) {
      var removed, off := s.rows[id := None], Some(Patched(s.rows[id].value, Deactivation()));
      UnwantedChange(removed, id, off, |removed|, k);
      assert removed[id := off] == s.rows[id := off];
    }
  }

  /** So its times are offered to nobody any more, but for those that other rules give. */
  lemma DeactivatedIsNotOffered(w: Availability.World, q: Availability.Query, s: State, tenant: Id, id: Id, ok: bool,
      a: int, b: int)
    requires q.timing.Valid()
    ensures Availability.Offered(w,
                CachedAvailability.FromTable(q, Step(s, Update(tenant, id, Deactivation(), ok))), a, b)
            == Availability.Offered(w, CachedAvailability.FromTable(q, Step(s, Remove(tenant, id, ok))), a, b)
  {
    DeactivatedIsRemoved(s, tenant, id, ok, CachedAvailability.ServiceKey(q));
    DeactivatedIsRemoved(s, tenant, id, ok, CachedAvailability.TenantKey(q));
  }

  /** The given value, or without one the value so far. */
  function Given<T>(given: Option<T>, kept: T): T {
    match given
    case Some(value) => value
    case None => kept
  }

  /** How often a rule is in the answer of a query to the first n rows of a table. */
  function Times(rows: seq<Option<RuleRow>>, n: nat, k: Key, r: RuleRow): nat
    requires n <= |rows|
  {
    multiset(Selected(rows, n, k))[r]
  }

  lemma {:induction false} InsertAddsOne(r: RuleRow, s: seq<RuleRow>, x: RuleRow)
    ensures multiset(Insert(r, s))[x] == multiset(s)[x] + if x == r then 1 else 0
  {
    if s == [] {
    } else if Before(s[0], r) {
      InsertAddsOne(r, s[1..], x);
      assert s == [s[0]] + s[1..];
    }
  }

  /** How often one row of the table puts a rule into the answer. */
  function Adds(row: Option<RuleRow>, k: Key, r: RuleRow): nat {
    if row == Some(r) && Wanted(r, k) then 1 else 0
  }

  lemma OneRowMore(rows: seq<Option<RuleRow>>, n: nat, k: Key, r: RuleRow)
    requires n < |rows|
    ensures Times(rows, n + 1, k, r) == Times(rows, n, k, r) + Adds(rows[n], k, r)
  {
    if rows[n].Some? {
      InsertAddsOne(rows[n].value, Selected(rows, n, k), r);
    }
  }

  /** Two tables that are the same except that one has rule x at an identifier where the other has none. */
  predicate DifferBy(more: seq<Option<RuleRow>>, less: seq<Option<RuleRow>>, id: Id, x: RuleRow) {
    && |more| == |less| && id < |more| && more[id] == Some(x) && less[id].None?
    && forall i :: 0 <= i < |more| && i != id ==> more[i] == less[i]
  }

  /** The same, counted row by row. */
  function Count(rows: seq<Option<RuleRow>>, n: nat, k: Key, r: RuleRow): nat
    requires n <= |rows|
  {
    if n == 0 then 0 else Count(rows, n - 1, k, r) + Adds(rows[n - 1], k, r)
  }

  lemma {:induction false} TimesIsCount(rows: seq<Option<RuleRow>>, n: nat, k: Key, r: RuleRow)
    requires n <= |rows|
    ensures Times(rows, n, k, r) == Count(rows, n, k, r)
  {
    if n == 0 {
    } else {
      TimesIsCount(rows, n - 1, k, r);
      OneRowMore(rows, n - 1, k, r);
    }
  }

  lemma {:induction false} RowCountsItself(more: seq<Option<RuleRow>>, less: seq<Option<RuleRow>>, id: Id, x: RuleRow,
      n: nat, k: Key, r: RuleRow)
    requires DifferBy(more, less, id, x) && n <= |more|
    ensures Count(more, n, k, r) == Count(less, n, k, r) + if id < n then Adds(Some(x), k, r) else 0
  {
    if n == 0 {
    } else {
      RowCountsItself(more, less, id, x, n - 1, k, r);
      RowDiffers(more, less, id, x, n - 1, k, r);
    }
  }

  lemma RowAddsItself(more: seq<Option<RuleRow>>, less: seq<Option<RuleRow>>, id: Id, x: RuleRow, k: Key, r: RuleRow)
    requires DifferBy(more, less, id, x)
    ensures Times(more, |more|, k, r) == Times(less, |less|, k, r) + Adds(Some(x), k, r)
  {
    RowCountsItself(more, less, id, x, |more|, k, r);
    TimesIsCount(more, |more|, k, r);
    TimesIsCount(less, |less|, k, r);
  }

  lemma RowDiffers(more: seq<Option<RuleRow>>, less: seq<Option<RuleRow>>, id: Id, x: RuleRow, i: nat, k: Key,
      r: RuleRow)
    requires DifferBy(more, less, id, x) && i < |more|
    ensures Adds(more[i], k, r) == if i == id then Adds(Some(x), k, r) else Adds(less[i], k, r)
    ensures i == id ==> Adds(less[i], k, r) == 0
  {
  }

  lemma RowAppended(rows: seq<Option<RuleRow>>, row: RuleRow, k: Key, r: RuleRow)
    ensures Times(rows + [Some(row)], |rows| + 1, k, r) == Times(rows, |rows|, k, r) + Adds(Some(row), k, r)
  {
    SelectedPrefix(rows, Some(row), |rows|, k);
    OneRowMore(rows + [Some(row)], |rows|, k, r);
  }

  /** The rule that an update should make of one of the tenant's. */
  function Renewed(was: RuleRow, tenant: Id, p: Patch): RuleRow {
    RuleRow(tenant, Given(p.service, was.service), Given(p.venue, was.venue), Given(p.dayOfWeek, was.dayOfWeek),
            Window(Given(p.start, was.window.start), Given(p.end, was.window.end)), Given(p.active, was.active))
  }

  /**
   Updating a rule is as good as removing it and creating the one with the given fields and, for the rest, the old ones:
   every query returns the same rules, each as often.
   */
  lemma UpdatedIsRecreated(s: State, tenant: Id, id: Id, p: Patch, ok: bool, k: Key, r: RuleRow)
    requires RowFound(s, tenant, id)
    ensures var recreated := Step(Step(s, Remove(tenant, id, ok)), Create(Renewed(s.rows[id].value, tenant, p), ok));
            multiset(Query(Step(s, Update(tenant, id, p, ok)).rows, k))[r] == multiset(Query(recreated.rows, k))[r]
  {
    var row := Renewed(s.rows[id].value, tenant, p);
    var removed, updated := s.rows[id := None], s.rows[id := Some(row)];
    RowAddsItself(updated, removed, id, row, k, r);
    RowAppended(removed, row, k, r);
    assert Step(s, Update(tenant, id, p, ok)).rows == updated;
    assert Step(Step(s, Remove(tenant, id, ok)), Create(row, ok)).rows == removed + [Some(row)];
  }

  /** A rule that is gone, or another tenant's, cannot be updated or removed. */
  lemma OthersAreOutOfReach(s: State, tenant: Id, id: Id, p: Patch, ok: bool)
    requires id < |s.rows| && s.rows[id].Some? ==> s.rows[id].value.tenant != tenant
    ensures Step(s, Update(tenant, id, p, ok)) == s && Step(s, Remove(tenant, id, ok)) == s
  {
  }

  /** Removing a rule takes it out of the queries it was in, once, and takes nothing else out of any. */
  lemma RemovedIsGone(s: State, tenant: Id, id: Id, ok: bool, k: Key, r: RuleRow)
    requires RowFound(s, tenant, id)
    ensures multiset(Query(Step(s, Remove(tenant, id, ok)).rows, k))[r]
            == multiset(Query(s.rows, k))[r] - if s.rows[id] == Some(r) && r in Query(s.rows, k) then 1 else 0
  {
    var row := s.rows[id].value;
    RowAddsItself(s.rows, s.rows[id := None], id, row, k, r);
    SelectedIff(s.rows, |s.rows|, k, row);
  }

  /** Queries come in the order of their days and, within a day, of their start times. */
  lemma InOrder(rows: seq<Option<RuleRow>>, k: Key, i: nat, j: nat)
    requires i < j < |Query(rows, k)|
    ensures var first, second := Query(rows, k)[i], Query(rows, k)[j];
            first.dayOfWeek <= second.dayOfWeek
            && (first.dayOfWeek == second.dayOfWeek ==> first.window.start <= second.window.start)
  {
    SelectedSorted(rows, |rows|, k);
  }

  // ---------------------------------------------------------------------------
  // The cache
  // ---------------------------------------------------------------------------

  /** A stored result is served for half an hour to the millisecond, if nothing else is stored or dropped. */
  lemma StoredForHalfAnHour(s: State, read: Id, ms: nat)
    requires IsPending(s, read)
    ensures var r, later := s.inFlight[read].value, Step(Step(s, Store(read, true)), Tick(ms));
            Cached(later, r.key) == if ms < 1_800_000 then Some(r.rules) else None
  {
  }

  /** The write finds what it is about. */
  predicate TakesEffect(s: State, op: Op) {
    match op
    case Create(_, _) => true
    case Update(tenant, id, _, _) => RowFound(s, tenant, id)
    case Remove(tenant, id, _) => RowFound(s, tenant, id)
    case _ => false
  }

  /** It empties the cache for all keys of its tenant and for no others; if the invalidation fails, for none. */
  lemma WriteDropsOwnTenant(s: State, op: Op, k: Key)
    requires IsWrite(op) && TakesEffect(s, op)
    ensures Cached(Step(s, op), k) == if op.ok && k.tenant == WriterOf(op) then None else Cached(s, k)
  {
  }

  /** A request stores what it found once at most. */
  lemma StoredOnce(s: State, read: Id, ok: bool, again: bool)
    ensures Step(Step(s, Store(read, ok)), Store(read, again)) == Step(s, Store(read, ok))
  {
  }

  /**
   A request leaves a result to be stored exactly when its read of the cache throws or finds nothing: what the query
   returns at that instant. It changes nothing else.
   */
  lemma LookLeavesResult(s: State, k: Key, ok: bool)
    ensures var looked := Step(s, Look(k, ok));
            && looked == s.(inFlight := looked.inFlight)
            && looked.inFlight == if ok && Cached(s, k).Some? then s.inFlight
                                  else s.inFlight + [Some(PendingRead(k, Query(s.rows, k), s.now))]
  {
  }
}
