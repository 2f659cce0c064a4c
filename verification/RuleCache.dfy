/**
 The availability-rule cache: its reader in apps/api/src/availability/availability.service.ts, its
 invalidating writers in apps/api/src/availability/availability-rules.service.ts.
 */
module RuleCache {
  import opened Tables
  import opened SlotGrid

  datatype RuleRow = RuleRow(tenant: Id, service: Option<Id>, venue: Option<Id>, dayOfWeek: int, window: Window,
      active: bool)

  /** A cache key: the rules of one service, or (without one) the tenant-wide rules, for a venue or none. */
  datatype Key = Key(tenant: Id, service: Option<Id>, venue: Option<Id>)

  datatype Entry = Entry(rules: seq<RuleRow>, expiresAt: int)

  const CACHE_MS: int := 1_800_000

  /** A request that missed the cache and has run its query, at an instant, but not stored the result yet. */
  datatype PendingRead = PendingRead(key: Key, rules: seq<RuleRow>, since: int)

  /**
   The clock, the rules table (a deleted row leaves None at its identifier), the cache, and the requests between
   query and store (a finished one leaves None at its position).
   */
  datatype State = State(now: int, rows: seq<Option<RuleRow>>, cache: map<Key, Entry>,
      inFlight: seq<Option<PendingRead>>)

  // ---------------------------------------------------------------------------
  // The database query behind a key
  // ---------------------------------------------------------------------------

  /** The WHERE clause: a tenant-wide query also admits rules without a venue, a service query does not. */
  predicate Wanted(r: RuleRow, k: Key) {
    && r.tenant == k.tenant && r.service == k.service && r.active
    && (k.venue.Some? ==> r.venue == k.venue || (k.service.None? && r.venue.None?))
  }

  /** ORDER BY dayOfWeek, startTime. */
  predicate Before(a: RuleRow, b: RuleRow) {
    a.dayOfWeek < b.dayOfWeek || (a.dayOfWeek == b.dayOfWeek && a.window.start <= b.window.start)
  }

  function Insert(r: RuleRow, sorted: seq<RuleRow>): seq<RuleRow> {
    if sorted == [] then [r]
    else if Before(sorted[0], r) then [sorted[0]] + Insert(r, sorted[1..])
    else [r] + sorted
  }

  /** What the query for a key returns on the first n rows of the table. */
  function Selected(rows: seq<Option<RuleRow>>, n: nat, k: Key): seq<RuleRow>
    requires n <= |rows|
  {
    if n == 0 then []
    else if rows[n - 1].Some? && Wanted(rows[n - 1].value, k) then Insert(rows[n - 1].value, Selected(rows, n - 1, k))
    else Selected(rows, n - 1, k)
  }

  function Query(rows: seq<Option<RuleRow>>, k: Key): seq<RuleRow> {
    Selected(rows, |rows|, k)
  }

  // ---------------------------------------------------------------------------
  // Steps
  // ---------------------------------------------------------------------------

  /** What a reader of the key sees in the cache: an entry that has not expired. */
  function Cached(s: State, k: Key): Option<seq<RuleRow>> {
    if k in s.cache && s.cache[k].expiresAt > s.now then Some(s.cache[k].rules) else None
  }

  /** What a query is served: the cached rules if there are any, else the table's. */
  function Served(s: State, k: Key): seq<RuleRow> {
    if Cached(s, k).Some? then Cached(s, k).value else Query(s.rows, k)
  }

  /** What a query is served whose read of the cache succeeds or (then it counts as a miss) throws. */
  function ServedTo(s: State, k: Key, ok: bool): seq<RuleRow> {
    if ok then Served(s, k) else Query(s.rows, k)
  }

  /** A miss or a read that throws runs the query; a hit is served at once and leaves nothing to do. */
  function AfterQuery(s: State, k: Key, ok: bool): State {
    if ok && Cached(s, k).Some? then s else s.(inFlight := s.inFlight + [Some(PendingRead(k, Query(s.rows, k), s.now))])
  }

  predicate IsPending(s: State, read: Id) {
    read < |s.inFlight| && s.inFlight[read].Some?
  }

  /** The result is stored for half an hour; stored says whether that write succeeded. */
  function AfterStore(s: State, read: Id, stored: bool): State {
    if !IsPending(s, read) then s
    else
      var r := s.inFlight[read].value;
      s.(inFlight := s.inFlight[read := None],
         cache := if stored then s.cache[r.key := Entry(r.rules, s.now + CACHE_MS)] else s.cache)
  }

  /** Deleting by pattern drops every key of the tenant. */
  function Invalidated(cache: map<Key, Entry>, tenant: Id): map<Key, Entry> {
    map k | k in cache && k.tenant != tenant :: cache[k]
  }

  function AfterWrite(s: State, rows: seq<Option<RuleRow>>, tenant: Id, invalidated: bool): State {
    s.(rows := rows, cache := if invalidated then Invalidated(s.cache, tenant) else s.cache)
  }

  predicate RowFound(s: State, tenant: Id, id: Id) {
    id < |s.rows| && s.rows[id].Some? && s.rows[id].value.tenant == tenant
  }

  /** Updating keeps a rule in its tenant; every other field may be replaced. */
  datatype Patch = Patch(
    dayOfWeek: Option<int>, start: Option<TimeOfDay>, end: Option<TimeOfDay>,
    service: Option<Option<Id>>, venue: Option<Option<Id>>, active: Option<bool>)

  function Patched(r: RuleRow, p: Patch): RuleRow {
    RuleRow(r.tenant,
            if p.service.Some? then p.service.value else r.service,
            if p.venue.Some? then p.venue.value else r.venue,
            if p.dayOfWeek.Some? then p.dayOfWeek.value else r.dayOfWeek,
            Window(if p.start.Some? then p.start.value else r.window.start,
                   if p.end.Some? then p.end.value else r.window.end),
            if p.active.Some? then p.active.value else r.active)
  }

  /** ok says whether the cache read, write or invalidation that the step makes succeeded. */
  datatype Op =
    | Tick(ms: nat)
    | Look(key: Key, ok: bool)
    | Store(read: Id, ok: bool)
    | Create(row: RuleRow, ok: bool)
    | Update(tenant: Id, id: Id, patch: Patch, ok: bool)
    | Remove(tenant: Id, id: Id, ok: bool)

  function Step(s: State, op: Op): State {
    match op
    case Tick(ms) => s.(now := s.now + ms)
    case Look(k, ok) => AfterQuery(s, k, ok)
    case Store(read, ok) => AfterStore(s, read, ok)
    case Create(row, ok) => AfterWrite(s, s.rows + [Some(row)], row.tenant, ok)
    case Update(t, id, p, ok) =>
      if RowFound(s, t, id) then AfterWrite(s, s.rows[id := Some(Patched(s.rows[id].value, p))], t, ok) else s
    case Remove(t, id, ok) =>
      if RowFound(s, t, id) then AfterWrite(s, s.rows[id := None], t, ok) else s
  }

  function Empty(now: int): State {
    State(now, [], map[], [])
  }

  /** The state after the first n steps. */
  function After(s: State, ops: seq<Op>, n: nat): State
    requires n <= |ops|
  {
    if n == 0 then s else Step(After(s, ops, n - 1), ops[n - 1])
  }

  // ---------------------------------------------------------------------------
  // The services
  // ---------------------------------------------------------------------------

  class RuleStore {
    var now: int
    var rows: seq<Option<RuleRow>>
    var cache: map<Key, Entry>
    var inFlight: seq<Option<PendingRead>>

    constructor (now: int)
      ensures Value() == Empty(now)
    {
      this.now, rows, cache, inFlight := now, [], map[], [];
    }

    function Value(): State
      reads this
    {
      State(now, rows, cache, inFlight)
    }

    /** getCachedRules; ok says whether the read of the cache succeeds. */
    method GetCachedRules(k: Key, ok: bool) returns (r: Option<seq<RuleRow>>)
      ensures r == if ok then Cached(Value(), k) else None
    {
      r := None;
      if ok && k in cache {
        var entry := cache[k];
        if !(entry.expiresAt <= now) {
          r := Some(entry.rules);
        }
      }
    }

    /** The first half of a cached read in getAvailableSlots: what it is served, and on a miss the query to store. */
    method LookUp(k: Key, ok: bool) returns (rules: seq<RuleRow>, read: Id, missed: bool)
      modifies this
      ensures rules == ServedTo(old(Value()), k, ok) && read == |old(inFlight)|
      ensures missed <==> !ok || Cached(old(Value()), k).None?
      ensures Value() == Step(old(Value()), Look(k, ok))
    {
      read := |inFlight|;
      var cached := GetCachedRules(k, ok);
      missed := cached.None?;
      if !missed {
        rules := cached.value;
        return;
      }
      rules := Query(rows, k);
      inFlight := inFlight + [Some(PendingRead(k, rules, now))];
    }

    /** The second half: setCachedRules; stored says whether setex succeeds. */
    method SetCachedRules(read: Id, stored: bool)
      requires IsPending(Value(), read)
      modifies this
      ensures Value() == Step(old(Value()), Store(read, stored))
    {
      var r := inFlight[read].value;
      inFlight := inFlight[read := None];
      if stored {
        cache := cache[r.key := Entry(r.rules, now + CACHE_MS)];
      }
    }

    /** invalidateRulesCache; ok says whether the delete succeeds. */
    method InvalidateRulesCache(tenant: Id, ok: bool)
      modifies this`cache
      ensures cache == if ok then Invalidated(old(cache), tenant) else old(cache)
    {
      if ok {
        cache := map k | k in cache && k.tenant != tenant :: cache[k];
      }
    }

    method CreateRule(row: RuleRow, ok: bool) returns (id: Id)
      modifies this
      ensures id == |old(rows)| && Value() == Step(old(Value()), Create(row, ok))
    {
      id := |rows|;
      rows := rows + [Some(row)];
      InvalidateRulesCache(row.tenant, ok);
    }

    method UpdateRule(tenant: Id, id: Id, p: Patch, ok: bool) returns (found: bool)
      modifies this
      ensures found == RowFound(old(Value()), tenant, id)
      ensures Value() == Step(old(Value()), Update(tenant, id, p, ok))
    {
      found := RowFound(Value(), tenant, id);
      if found {
        rows := rows[id := Some(Patched(rows[id].value, p))];
        InvalidateRulesCache(tenant, ok);
      }
    }

    method RemoveRule(tenant: Id, id: Id, ok: bool) returns (found: bool)
      modifies this
      ensures found == RowFound(old(Value()), tenant, id)
      ensures Value() == Step(old(Value()), Remove(tenant, id, ok))
    {
      found := RowFound(Value(), tenant, id);
      if found {
        rows := rows[id := None];
        InvalidateRulesCache(tenant, ok);
      }
    }
  }

  // ---------------------------------------------------------------------------
  // The query
  // ---------------------------------------------------------------------------

  predicate Sorted(s: seq<RuleRow>) {
    forall i, j :: 0 <= i < j < |s| ==> Before(s[i], s[j])
  }

  lemma {:induction false} InsertAdds(r: RuleRow, s: seq<RuleRow>, x: RuleRow)
    ensures x in Insert(r, s) <==> x == r || x in s
  {
    if s == [] {
    } else if Before(s[0], r) {
      InsertAdds(r, s[1..], x);
      assert s == [s[0]] + s[1..];
    }
  }

  lemma {:induction false} InsertSorts(r: RuleRow, s: seq<RuleRow>)
    requires Sorted(s)
    ensures Sorted(Insert(r, s))
  {
    if s == [] {
    } else if Before(s[0], r) {
      InsertSorts(r, s[1..]);
      var t := Insert(r, s[1..]);
      forall i | 0 <= i < |t| ensures Before(s[0], t[i]) {
        InsertAdds(r, s[1..], t[i]);
      }
    }
  }

  /** The rows are served in the order asked for. */
  lemma {:induction false} SelectedSorted(rows: seq<Option<RuleRow>>, n: nat, k: Key)
    requires n <= |rows|
    ensures Sorted(Selected(rows, n, k))
  {
    if n == 0 {
    } else {
      SelectedSorted(rows, n - 1, k);
      if rows[n - 1].Some? && Wanted(rows[n - 1].value, k) {
        InsertSorts(rows[n - 1].value, Selected(rows, n - 1, k));
      }
    }
  }

  /** No wanted row is lost or invented. */
  lemma {:induction false} SelectedIff(rows: seq<Option<RuleRow>>, n: nat, k: Key, r: RuleRow)
    requires n <= |rows|
    ensures r in Selected(rows, n, k) <==> Wanted(r, k) && exists i :: 0 <= i < n && rows[i] == Some(r)
  {
    if n == 0 {
    } else {
      SelectedIff(rows, n - 1, k, r);
      if rows[n - 1].Some? && Wanted(rows[n - 1].value, k) {
        InsertAdds(rows[n - 1].value, Selected(rows, n - 1, k), r);
      }
    }
  }

  /** A row that is not wanted before or after a change does not show in the query. */
  lemma {:induction false} UnwantedChange(rows: seq<Option<RuleRow>>, id: Id, row: Option<RuleRow>, n: nat, k: Key)
    requires id < |rows| && n <= |rows|
    requires rows[id].Some? ==> !Wanted(rows[id].value, k)
    requires row.Some? ==> !Wanted(row.value, k)
    ensures Selected(rows[id := row], n, k) == Selected(rows, n, k)
  {
    if n == 0 {
    } else {
      UnwantedChange(rows, id, row, n - 1, k);
    }
  }

  lemma {:induction false} SelectedPrefix(rows: seq<Option<RuleRow>>, row: Option<RuleRow>, n: nat, k: Key)
    requires n <= |rows|
    ensures Selected(rows + [row], n, k) == Selected(rows, n, k)
  {
    if n == 0 {
    } else {
      SelectedPrefix(rows, row, n - 1, k);
    }
  }

  /** A write by one tenant changes no query of another. */
  lemma OtherTenantsQueries(s: State, op: Op, k: Key)
    requires op.Create? ==> op.row.tenant != k.tenant
    requires op.Update? || op.Remove? ==> op.tenant != k.tenant
    ensures Query(Step(s, op).rows, k) == Query(s.rows, k)
  {
    match op {
      case Create(row, _) => SelectedPrefix(s.rows, Some(row), |s.rows|, k);
      case Update(t, id, p, _) =>
        if RowFound(s, t, id) { UnwantedChange(s.rows, id, Some(Patched(s.rows[id].value, p)), |s.rows|, k); }
      case Remove(t, id, _) =>
        if RowFound(s, t, id) { UnwantedChange(s.rows, id, None, |s.rows|, k); }
      case _ =>
    }
  }

  // ---------------------------------------------------------------------------
  // Agreement with the table
  // ---------------------------------------------------------------------------

  predicate IsWrite(op: Op) {
    op.Create? || op.Update? || op.Remove?
  }

  function WriterOf(op: Op): Id
    requires IsWrite(op)
  {
    if op.Create? then op.row.tenant else op.tenant
  }

  predicate WriteSucceeds(op: Op) {
    IsWrite(op) ==> op.ok
  }

  /** Every read, from the cache or not, is served what the query would return now. */
  ghost predicate Fresh(s: State) {
    forall k :: Served(s, k) == Query(s.rows, k)
  }

  /** The step stores the result of a query that the table would answer otherwise by now. */
  predicate StoresStale(s: State, op: Op) {
    op.Store? && op.ok && IsPending(s, op.read)
        && s.inFlight[op.read].value.rules != Query(s.rows, s.inFlight[op.read].value.key)
  }

  /** The step is a write that changes a query with an unexpired entry but fails to drop it from the cache. */
  ghost predicate LeavesStale(s: State, op: Op) {
    IsWrite(op) && !op.ok && exists k :: Cached(s, k).Some? && Query(Step(s, op).rows, k) != Query(s.rows, k)
  }

  /** A step keeps all reads current exactly when it neither stores an outdated result nor leaves one. */
  lemma StepStaysFreshIff(s: State, op: Op)
    requires Fresh(s)
    ensures Fresh(Step(s, op)) <==> !StoresStale(s, op) && !LeavesStale(s, op)
  {
    var s' := Step(s, op);
    if IsWrite(op) {
      WriteStaysFreshIff(s, op);
    } else if StoresStale(s, op) {
      var r := s.inFlight[op.read].value;
      assert Served(s', r.key) == r.rules;
    } else {
      forall k ensures Served(s', k) == Query(s'.rows, k) {
        assert Served(s, k) == Query(s.rows, k);
      }
    }
  }

  lemma WriteStaysFreshIff(s: State, op: Op)
    requires Fresh(s) && IsWrite(op)
    ensures Fresh(Step(s, op)) <==> !LeavesStale(s, op)
  {
    var s' := Step(s, op);
    if op.ok {
      forall k ensures Served(s', k) == Query(s'.rows, k) {
        assert Served(s, k) == Query(s.rows, k);
        if s'.rows != s.rows && k.tenant != WriterOf(op) { OtherTenantsQueries(s, op, k); }
      }
    } else {
      assert s'.cache == s.cache;
      forall k
        ensures Served(s', k) == Query(s'.rows, k) <==> Cached(s, k).None? || Query(s'.rows, k) == Query(s.rows, k)
      {
        assert Served(s, k) == Query(s.rows, k);
      }
    }
  }

  /** In all states up to step n every read is current. */
  ghost predicate FreshUpTo(s: State, ops: seq<Op>, n: nat)
    requires n <= |ops|
  {
    Fresh(After(s, ops, n)) && (n > 0 ==> FreshUpTo(s, ops, n - 1))
  }

  /** None of the first n steps stores an outdated result or leaves one. */
  ghost predicate NothingStale(s: State, ops: seq<Op>, n: nat)
    requires n <= |ops|
  {
    n > 0 ==>
      && !StoresStale(After(s, ops, n - 1), ops[n - 1]) && !LeavesStale(After(s, ops, n - 1), ops[n - 1])
      && NothingStale(s, ops, n - 1)
  }

  /**
   Every read is served what the query returns, in every state of a run, exactly when no request stores a result that a
   write has outdated since its query, and no write that changes a query with an unexpired entry fails to invalidate it.
   */
  lemma {:induction false} FreshThroughoutIff(s: State, ops: seq<Op>, n: nat)
    requires Fresh(s) && n <= |ops|
    ensures FreshUpTo(s, ops, n) <==> NothingStale(s, ops, n)
  {
    if n == 0 {
    } else {
      FreshThroughoutIff(s, ops, n - 1);
      if FreshUpTo(s, ops, n - 1) {
        StepStaysFreshIff(After(s, ops, n - 1), ops[n - 1]);
      }
    }
  }

  /** No write of a tenant falls between a query of that tenant and its store. */
  predicate Undisturbed(s: State, op: Op) {
    IsWrite(op) ==>
      forall i :: 0 <= i < |s.inFlight| && s.inFlight[i].Some? ==> s.inFlight[i].value.key.tenant != WriterOf(op)
  }

  ghost predicate PendingFresh(s: State) {
    forall i :: 0 <= i < |s.inFlight| && s.inFlight[i].Some? ==>
      s.inFlight[i].value.rules == Query(s.rows, s.inFlight[i].value.key)
  }

  lemma PendingStaysFresh(s: State, op: Op)
    requires PendingFresh(s) && Undisturbed(s, op)
    ensures PendingFresh(Step(s, op)) && !StoresStale(s, op)
  {
    var s' := Step(s, op);
    forall i | 0 <= i < |s'.inFlight| && s'.inFlight[i].Some?
      ensures s'.inFlight[i].value.rules == Query(s'.rows, s'.inFlight[i].value.key)
    {
      if IsWrite(op) { OtherTenantsQueries(s, op, s.inFlight[i].value.key); }
    }
  }

  lemma StaysFresh(s: State, op: Op)
    requires Fresh(s) && PendingFresh(s) && WriteSucceeds(op) && Undisturbed(s, op)
    ensures Fresh(Step(s, op)) && PendingFresh(Step(s, op))
  {
    PendingStaysFresh(s, op);
    StepStaysFreshIff(s, op);
  }

  /** Then every read of every run is served what the database would return, as long as no invalidation fails. */
  lemma {:induction false} ServedIsCurrent(s: State, ops: seq<Op>, n: nat, k: Key)
    requires Fresh(s) && PendingFresh(s) && n <= |ops|
    requires forall i: nat :: i < n ==> WriteSucceeds(ops[i]) && Undisturbed(After(s, ops, i), ops[i])
    ensures Fresh(After(s, ops, n)) && PendingFresh(After(s, ops, n))
    ensures forall ok :: ServedTo(After(s, ops, n), k, ok) == Query(After(s, ops, n).rows, k)
  {
    if n == 0 {
    } else {
      ServedIsCurrent(s, ops, n - 1, k);
      var before, op := After(s, ops, n - 1), ops[n - 1];
      assert WriteSucceeds(op) && Undisturbed(before, op);
      StaysFresh(before, op);
    }
  }

  /** One failed invalidation is enough: a write that changes a cached query leaves every read of it stale. */
  lemma StaleAfterFailedInvalidation(s: State, op: Op, k: Key)
    requires Fresh(s) && Cached(s, k).Some? && IsWrite(op) && !op.ok
    requires Query(Step(s, op).rows, k) != Query(s.rows, k)
    ensures Served(Step(s, op), k) == Query(s.rows, k) != Query(Step(s, op).rows, k)
  {
  }

  /** A write between query and store is enough, too, even when its invalidation succeeds. */
  lemma StaleAfterLateStore(s: State, write: Op, k: Key)
    requires Cached(s, k).None? && IsWrite(write) && write.ok
    requires Query(Step(s, write).rows, k) != Query(s.rows, k)
    ensures var late := Step(Step(Step(s, Look(k, true)), write), Store(|s.inFlight|, true));
            Served(late, k) == Query(s.rows, k) != Query(late.rows, k)
  {
    var looked := Step(s, Look(k, true));
    assert looked.rows == s.rows;
    assert Step(looked, write).inFlight[|s.inFlight|] == Some(PendingRead(k, Query(s.rows, k), s.now));
  }

  // ---------------------------------------------------------------------------
  // How stale a served result can be
  // ---------------------------------------------------------------------------

  /** Some state up to step n answered the query for k with these rules at that instant. */
  ghost predicate AnsweredAt(s: State, ops: seq<Op>, n: nat, k: Key, rules: seq<RuleRow>, t: int)
    requires n <= |ops|
  {
    exists i: nat :: i <= n && rules == Query(After(s, ops, i).rows, k) && After(s, ops, i).now == t
  }

  /** Every store of the run comes at most so many milliseconds after its query. */
  predicate StoresWithin(s: State, ops: seq<Op>, n: nat, delay: nat)
    requires n <= |ops|
  {
    forall i: nat :: i < n && ops[i].Store? && IsPending(After(s, ops, i), ops[i].read) ==>
      After(s, ops, i).now <= After(s, ops, i).inFlight[ops[i].read].value.since + delay
  }

  lemma {:induction false} PendingAnswered(now: int, ops: seq<Op>, n: nat, read: Id)
    requires n <= |ops| && IsPending(After(Empty(now), ops, n), read)
    ensures var r := After(Empty(now), ops, n).inFlight[read].value;
            AnsweredAt(Empty(now), ops, n, r.key, r.rules, r.since)
  {
    if n == 0 {
    } else {
      var s, s' := After(Empty(now), ops, n - 1), After(Empty(now), ops, n);
      if read < |s.inFlight| {
        PendingAnswered(now, ops, n - 1, read);
      } else {
        assert s'.inFlight[read] == Some(PendingRead(ops[n - 1].key, Query(s.rows, ops[n - 1].key), s.now));
      }
    }
  }

  /** An entry is one that was there before the step or holds the result that the step stored. */
  lemma EntryOrigin(s: State, op: Op, k: Key)
    requires k in Step(s, op).cache
    ensures var e := Step(s, op).cache[k];
            || (k in s.cache && s.cache[k] == e)
            || (&& op.Store? && IsPending(s, op.read) && s.inFlight[op.read].value.key == k
                && e == Entry(s.inFlight[op.read].value.rules, s.now + CACHE_MS))
  {
  }

  lemma StillAnswered(s: State, ops: seq<Op>, n: nat, k: Key, rules: seq<RuleRow>, t: int)
    requires n < |ops| && AnsweredAt(s, ops, n, k, rules, t)
    ensures AnsweredAt(s, ops, n + 1, k, rules, t)
  {
  }

  /** The query behind a cache entry was answered at most the delay before the entry's half hour began. */
  lemma {:induction false} EntriesAnswered(now: int, ops: seq<Op>, n: nat, k: Key, delay: nat) returns (t: int)
    requires n <= |ops| && k in After(Empty(now), ops, n).cache && StoresWithin(Empty(now), ops, n, delay)
    ensures AnsweredAt(Empty(now), ops, n, k, After(Empty(now), ops, n).cache[k].rules, t)
    ensures After(Empty(now), ops, n).cache[k].expiresAt <= t + delay + CACHE_MS
  {
    var s, op := After(Empty(now), ops, n - 1), ops[n - 1];
    EntryOrigin(s, op, k);
    if k in s.cache && s.cache[k] == Step(s, op).cache[k] {
      t := EntriesAnswered(now, ops, n - 1, k, delay);
    } else {
      t := s.inFlight[op.read].value.since;
      PendingAnswered(now, ops, n - 1, op.read);
    }
    StillAnswered(Empty(now), ops, n - 1, k, Step(s, op).cache[k].rules, t);
  }

  /**
   Whatever fails, reads of the cache included, and whatever interleaves: what a read is served was the query's result
   at an instant less than half an hour, plus the longest time a request took from query to store, ago.
   */
  lemma ServedIsRecent(now: int, ops: seq<Op>, n: nat, k: Key, ok: bool, delay: nat) returns (t: int)
    requires n <= |ops| && StoresWithin(Empty(now), ops, n, delay)
    ensures AnsweredAt(Empty(now), ops, n, k, ServedTo(After(Empty(now), ops, n), k, ok), t)
    ensures After(Empty(now), ops, n).now < t + delay + CACHE_MS
  {
    var s := After(Empty(now), ops, n);
    if ok && Cached(s, k).Some? {
      t := EntriesAnswered(now, ops, n, k, delay);
    } else {
      t := s.now;
    }
  }
}
