/** Inbound calendar sync: syncCalendarEvents and syncInboundEvents of apps/api/src/calendar/calendar.service.ts. */
module CalendarSync {
  import opened Tables

  // ---------------------------------------------------------------------------
  // Rows and changes
  // ---------------------------------------------------------------------------

  datatype Direction = Inbound | Outbound

  datatype Row = Row(
    tenant: Id, connection: Id, external: string, direction: Direction,
    title: Option<string>, start: int, end: int, syncedAt: int)

  /** One end of an event: a timed event gives dateTime, an all-day event gives date. */
  datatype When = When(dateTime: Option<int>, date: Option<int>)

  function Resolve(w: When): Option<int> {
    if w.dateTime.Some? then w.dateTime else w.date
  }

  /** An item of the change feed; a missing identifier or title is the empty string. */
  datatype Change = Change(id: string, cancelled: bool, summary: string, start: When, end: When)

  /** A change that has an effect: a deletion, or an event with both times. */
  predicate Usable(c: Change) {
    c.id != "" && (c.cancelled || (Resolve(c.start).Some? && Resolve(c.end).Some?))
  }

  function TitleOf(c: Change): Option<string> {
    if c.summary == "" then None else Some(c.summary)
  }

  /** The connection being synced and the instant of the sync. */
  datatype Target = Target(tenant: Id, connection: Id, now: int)

  predicate Matches(r: Row, connection: Id, id: string) {
    r.connection == connection && r.external == id && r.direction == Inbound
  }

  /** The inbound rows of an external event, in table order. */
  function Find(rows: seq<Row>, connection: Id, id: string): seq<Row> {
    if rows == [] then []
    else if Matches(rows[0], connection, id) then [rows[0]] + Find(rows[1..], connection, id)
    else Find(rows[1..], connection, id)
  }

  /** deleteMany. */
  function Without(rows: seq<Row>, connection: Id, id: string): seq<Row> {
    if rows == [] then []
    else if Matches(rows[0], connection, id) then Without(rows[1..], connection, id)
    else [rows[0]] + Without(rows[1..], connection, id)
  }

  function Refreshed(r: Row, c: Change, t: Target): Row
    requires Usable(c) && !c.cancelled
  {
    r.(title := TitleOf(c), start := Resolve(c.start).value, end := Resolve(c.end).value, syncedAt := t.now)
  }

  /** Update of the first matching row. */
  function Replaced(rows: seq<Row>, c: Change, t: Target): seq<Row>
    requires Usable(c) && !c.cancelled
  {
    if rows == [] then []
    else if Matches(rows[0], t.connection, c.id) then [Refreshed(rows[0], c, t)] + rows[1..]
    else [rows[0]] + Replaced(rows[1..], c, t)
  }

  function Created(c: Change, t: Target): Row
    requires Usable(c) && !c.cancelled
  {
    Row(t.tenant, t.connection, c.id, Inbound, TitleOf(c), Resolve(c.start).value, Resolve(c.end).value, t.now)
  }

  datatype Counts = Counts(added: nat, updated: nat, deleted: nat)
  {
    function Plus(c: Counts): Counts {
      Counts(added + c.added, updated + c.updated, deleted + c.deleted)
    }
  }

  const ZERO: Counts := Counts(0, 0, 0)

  /** The table after one change. */
  function Applied(rows: seq<Row>, c: Change, t: Target): seq<Row> {
    if !Usable(c) then rows
    else if c.cancelled then Without(rows, t.connection, c.id)
    else if Find(rows, t.connection, c.id) != [] then Replaced(rows, c, t)
    else rows + [Created(c, t)]
  }

  /** What one change adds to the counters. */
  function Counted(rows: seq<Row>, c: Change, t: Target): Counts {
    if !Usable(c) then ZERO
    else if c.cancelled then Counts(0, 0, |Find(rows, t.connection, c.id)|)
    else if Find(rows, t.connection, c.id) != [] then Counts(0, 1, 0)
    else Counts(1, 0, 0)
  }

  /** The table and the counters after the first n changes of a feed. */
  function Fold(rows: seq<Row>, feed: seq<Change>, n: nat, t: Target): seq<Row>
    requires n <= |feed|
  {
    if n == 0 then rows else Applied(Fold(rows, feed, n - 1, t), feed[n - 1], t)
  }

  function FoldCounts(rows: seq<Row>, feed: seq<Change>, n: nat, t: Target): Counts
    requires n <= |feed|
  {
    if n == 0 then ZERO
    else FoldCounts(rows, feed, n - 1, t).Plus(Counted(Fold(rows, feed, n - 1, t), feed[n - 1], t))
  }

  function Synced(rows: seq<Row>, feed: seq<Change>, t: Target): seq<Row> {
    Fold(rows, feed, |feed|, t)
  }

  // ---------------------------------------------------------------------------
  // Listings and attempts
  // ---------------------------------------------------------------------------

  /** How a listing ended: with its last page, with an invalid sync token, or with another error. */
  datatype Ending = Finished(nextSyncToken: Option<string>) | TokenInvalid | Broken

  /** What the calendar answers to the list calls of one attempt: the pages it returns and how they end. */
  datatype Listing = Listing(pages: seq<seq<Change>>, ending: Ending)

  /** A remote calendar: its listing for the k-th attempt of a sync, by the sync token sent with it, if any. */
  type Calendar = (nat, Option<string>) -> Listing

  function Flatten(pages: seq<seq<Change>>, n: nat): seq<Change>
    requires n <= |pages|
  {
    if n == 0 then [] else Flatten(pages, n - 1) + pages[n - 1]
  }

  function Feed(l: Listing): seq<Change> {
    Flatten(l.pages, |l.pages|)
  }

  datatype SyncResult = SyncDone(counts: Counts) | SyncFailed

  type Tokens = map<(Id, string), string>

  datatype State = State(rows: seq<Row>, tokens: Tokens)

  /** The token that an attempt sends: the stored one, if there is one and it is not empty. */
  function StoredToken(s: State, calendar: string, t: Target): Option<string> {
    var key := (t.connection, calendar);
    if key in s.tokens && s.tokens[key] != "" then Some(s.tokens[key]) else None
  }

  /** How far a sync has come: it has returned, or an invalid token makes it start over. */
  datatype Progress = Returned(state: State, result: SyncResult) | StartsOver(state: State)

  /** One attempt against the listing it gets. */
  function Attempt(s: State, calendar: string, t: Target, listing: Listing): Progress {
    var feed, key := Feed(listing), (t.connection, calendar);
    var rows := Synced(s.rows, feed, t);
    match listing.ending
    case Finished(next) =>
      Returned(State(rows, if next.Some? && next.value != "" then s.tokens[key := next.value] else s.tokens),
               SyncDone(FoldCounts(s.rows, feed, |feed|, t)))
    case TokenInvalid => StartsOver(State(rows, s.tokens - {key}))
    case Broken => Returned(State(rows, s.tokens), SyncFailed)
  }

  /**
   Up to n attempts of syncCalendarEvents, the first of them being attempt k; each sends the token it finds stored.
   */
  function Sync(s: State, calendar: string, t: Target, remote: Calendar, k: nat, n: nat): Progress
    decreases n
  {
    if n == 0 then StartsOver(s)
    else
      var once := Attempt(s, calendar, t, remote(k, StoredToken(s, calendar, t)));
      if once.Returned? then once else Sync(once.state, calendar, t, remote, k + 1, n - 1)
  }

  // ---------------------------------------------------------------------------
  // The service
  // ---------------------------------------------------------------------------

  class CalendarService {
    var rows: seq<Row>
    var tokens: Tokens

    constructor ()
      ensures Value() == State([], map[])
    {
      rows, tokens := [], map[];
    }

    function Value(): State
      reads this
    {
      State(rows, tokens)
    }

    /** The body of the item loop. */
    method ApplyChange(c: Change, t: Target) returns (counts: Counts)
      modifies this`rows
      ensures rows == Applied(old(rows), c, t) && counts == Counted(old(rows), c, t)
    {
      counts := ZERO;
      if c.id == "" {
        return;
      }
      if c.cancelled {
        var deleted := |Find(rows, t.connection, c.id)|;
        rows := Without(rows, t.connection, c.id);
        return Counts(0, 0, deleted);
      }
      var startTime := Resolve(c.start);
      var endTime := Resolve(c.end);
      if startTime.None? || endTime.None? {
        return;
      }
      var existing := Find(rows, t.connection, c.id);
      if |existing| > 0 {
        rows := Replaced(rows, c, t);
        counts := Counts(0, 1, 0);
      } else {
        rows := rows + [Created(c, t)];
        counts := Counts(1, 0, 0);
      }
    }

    /** The paging loop: every item of every page, in order. */
    method ApplyPages(pages: seq<seq<Change>>, t: Target) returns (counts: Counts)
      modifies this`rows
      ensures rows == Synced(old(rows), Flatten(pages, |pages|), t)
      ensures counts == FoldCounts(old(rows), Flatten(pages, |pages|), |Flatten(pages, |pages|)|, t)
    {
      counts := ZERO;
      ghost var was := rows;
      var p := 0;
      while p < |pages|
        invariant 0 <= p <= |pages|
        invariant rows == Synced(was, Flatten(pages, p), t)
        invariant counts == FoldCounts(was, Flatten(pages, p), |Flatten(pages, p)|, t)
      {
        var events := pages[p];
        ghost var seen := Flatten(pages, p);
        FoldPrefix(was, seen, events, |seen|, t);
        var i := 0;
        while i < |events|
          invariant 0 <= i <= |events|
          invariant rows == Fold(was, seen + events, |seen| + i, t)
          invariant counts == FoldCounts(was, seen + events, |seen| + i, t)
        {
          var one := ApplyChange(events[i], t);
          counts := counts.Plus(one);
          i := i + 1;
        }
        p := p + 1;
      }
    }

    /**
     syncCalendarEvents, from attempt k on. An invalid sync token drops the stored one and starts over. enough is a
     number of attempts after which it has returned; without one the code calls itself for ever.
     */
    method SyncCalendarEvents(calendar: string, t: Target, remote: Calendar, k: nat, ghost enough: nat)
      returns (r: SyncResult)
      requires Sync(Value(), calendar, t, remote, k, enough).Returned?
      modifies this
      ensures Returned(Value(), r) == Sync(old(Value()), calendar, t, remote, k, enough)
      decreases enough
    {
      var key := (t.connection, calendar);
      var storedSyncToken := None;
      if key in tokens && tokens[key] != "" {
        storedSyncToken := Some(tokens[key]);
      }
      var listing := remote(k, storedSyncToken);
      var counts := ApplyPages(listing.pages, t);
      match listing.ending
      case Finished(next) =>
        if next.Some? && next.value != "" {
          tokens := tokens[key := next.value];
        }
        r := SyncDone(counts);
      case TokenInvalid =>
        tokens := tokens - {key};
        r := SyncCalendarEvents(calendar, t, remote, k + 1, enough - 1);
      case Broken =>
        r := SyncFailed;
    }

    /** syncInboundEvents: each calendar of the connection in turn, adding up the counts, until one fails. */
    method SyncInboundEvents(calendars: seq<string>, t: Target, remotes: seq<Calendar>, ghost enough: nat)
      returns (r: SyncResult)
      requires |remotes| == |calendars| && SyncAll(Value(), calendars, t, remotes, |calendars|, enough).Returned?
      modifies this
      ensures Returned(Value(), r) == SyncAll(old(Value()), calendars, t, remotes, |calendars|, enough)
    {
      var total := ZERO;
      ghost var was := Value();
      var i := 0;
      while i < |calendars|
        invariant 0 <= i <= |calendars|
        invariant Returned(Value(), SyncDone(total)) == SyncAll(was, calendars, t, remotes, i, enough)
      {
        StaysStuck(was, calendars, t, remotes, i + 1, |calendars|, enough);
        var one := SyncCalendarEvents(calendars[i], t, remotes[i], 0, enough);
        if one.SyncFailed? {
          return SyncFailed;
        }
        total := total.Plus(one.counts);
        i := i + 1;
      }
      r := SyncDone(total);
    }
  }

  /** The first m calendars synced one after the other, with up to n attempts each. */
  function SyncAll(s: State, calendars: seq<string>, t: Target, remotes: seq<Calendar>, m: nat, n: nat): Progress
    requires m <= |calendars| == |remotes|
    decreases m
  {
    if m == 0 then Returned(s, SyncDone(ZERO))
    else
      var before := SyncAll(s, calendars, t, remotes, m - 1, n);
      if !Completed(before) then before
      else
        var one := Sync(before.state, calendars[m - 1], t, remotes[m - 1], 0, n);
        if Completed(one) then Returned(one.state, SyncDone(before.result.counts.Plus(one.result.counts))) else one
  }

  predicate Completed(p: Progress) {
    p.Returned? && p.result.SyncDone?
  }

  /** The calendars after one that fails, or never returns, are not synced. */
  lemma {:induction false} StaysStuck(s: State, calendars: seq<string>, t: Target, remotes: seq<Calendar>, m: nat,
      l: nat, n: nat)
    requires m <= l <= |calendars| == |remotes|
    ensures !Completed(SyncAll(s, calendars, t, remotes, m, n)) ==>
              SyncAll(s, calendars, t, remotes, l, n) == SyncAll(s, calendars, t, remotes, m, n)
  {
    if m == l {
    } else {
      StaysStuck(s, calendars, t, remotes, m, l - 1, n);
    }
  }

  lemma {:induction false} FoldPrefix(rows: seq<Row>, a: seq<Change>, b: seq<Change>, n: nat, t: Target)
    requires n <= |a|
    ensures Fold(rows, a + b, n, t) == Fold(rows, a, n, t)
    ensures FoldCounts(rows, a + b, n, t) == FoldCounts(rows, a, n, t)
  {
    if n == 0 {
    } else {
      FoldPrefix(rows, a, b, n - 1, t);
    }
  }

  // ---------------------------------------------------------------------------
  // The last usable change wins
  // ---------------------------------------------------------------------------

  /** What the business sees of an inbound event. */
  datatype View = View(title: Option<string>, start: int, end: int)

  function Views(rows: seq<Row>): seq<View> {
    if rows == [] then [] else [View(rows[0].title, rows[0].start, rows[0].end)] + Views(rows[1..])
  }

  /** The events stored for an external identifier. */
  function Stored(rows: seq<Row>, connection: Id, id: string): seq<View> {
    Views(Find(rows, connection, id))
  }

  /** The last usable change of an identifier among the first n of a feed. */
  function LastUsable(feed: seq<Change>, n: nat, id: string): Option<Change>
    requires n <= |feed|
    ensures LastUsable(feed, n, id).Some?
            ==> Usable(LastUsable(feed, n, id).value) && LastUsable(feed, n, id).value.id == id
  {
    if n == 0 then None
    else if Usable(feed[n - 1]) && feed[n - 1].id == id then Some(feed[n - 1])
    else LastUsable(feed, n - 1, id)
  }

  /** What a usable change asks to be stored for its identifier. */
  function Asked(c: Change): seq<View>
    requires Usable(c)
  {
    if c.cancelled then [] else [View(TitleOf(c), Resolve(c.start).value, Resolve(c.end).value)]
  }

  /** At most one inbound row per external identifier of the connection. */
  ghost predicate AtMostOne(rows: seq<Row>, connection: Id) {
    forall id :: |Find(rows, connection, id)| <= 1
  }

  lemma {:induction false} FindInRest(rows: seq<Row>, connection: Id, removed: string, id: string)
    ensures Find(Without(rows, connection, removed), connection, id) ==
            if id == removed then [] else Find(rows, connection, id)
    ensures |Without(rows, connection, removed)| == |rows| - |Find(rows, connection, removed)|
  {
    if rows == [] {
    } else {
      FindInRest(rows[1..], connection, removed, id);
      var rest := Without(rows[1..], connection, removed);
      assert ([rows[0]] + rest)[1..] == rest;
    }
  }

  lemma {:induction false} FindInReplaced(rows: seq<Row>, c: Change, t: Target, id: string)
    requires Usable(c) && !c.cancelled && Find(rows, t.connection, c.id) != []
    ensures var found := Find(rows, t.connection, id);
            Find(Replaced(rows, c, t), t.connection, id) ==
              if id == c.id then [Refreshed(found[0], c, t)] + found[1..] else found
    ensures |Replaced(rows, c, t)| == |rows|
  {
    if Matches(rows[0], t.connection, c.id) {
      assert ([Refreshed(rows[0], c, t)] + rows[1..])[1..] == rows[1..];
    } else {
      FindInReplaced(rows[1..], c, t, id);
      var rest := Replaced(rows[1..], c, t);
      assert ([rows[0]] + rest)[1..] == rest;
    }
  }

  lemma {:induction false} FindInExtended(rows: seq<Row>, r: Row, connection: Id, id: string)
    ensures Find(rows + [r], connection, id) ==
            if Matches(r, connection, id) then Find(rows, connection, id) + [r] else Find(rows, connection, id)
  {
    if rows == [] {
      assert [r][1..] == [];
    } else {
      assert (rows + [r])[1..] == rows[1..] + [r];
      FindInExtended(rows[1..], r, connection, id);
    }
  }

  /** One change decides its own identifier and leaves every other one alone. */
  lemma AppliedDecides(rows: seq<Row>, c: Change, t: Target, id: string)
    requires |Find(rows, t.connection, id)| <= 1
    ensures var found := Find(Applied(rows, c, t), t.connection, id);
            && |found| <= 1
            && Views(found) == if Usable(c) && c.id == id then Asked(c) else Stored(rows, t.connection, id)
  {
    if Usable(c) {
      if c.cancelled {
        FindInRest(rows, t.connection, c.id, id);
      } else if Find(rows, t.connection, c.id) != [] {
        FindInReplaced(rows, c, t, id);
      } else {
        FindInExtended(rows, Created(c, t), t.connection, id);
      }
    }
  }

  /**
   Sync is a last-change-wins fold: what is stored for an identifier is what its last usable change in the feed asks
   for, or what was stored before if there is none; and there is never more than one row for it.
   */
  lemma {:induction false} LastChangeWins(rows: seq<Row>, feed: seq<Change>, n: nat, t: Target, id: string)
    requires n <= |feed| && |Find(rows, t.connection, id)| <= 1
    ensures |Find(Fold(rows, feed, n, t), t.connection, id)| <= 1
    ensures var last := LastUsable(feed, n, id);
            Stored(Fold(rows, feed, n, t), t.connection, id) ==
              if last.Some? then Asked(last.value) else Stored(rows, t.connection, id)
  {
    if n == 0 {
    } else {
      LastChangeWins(rows, feed, n - 1, t, id);
      AppliedDecides(Fold(rows, feed, n - 1, t), feed[n - 1], t, id);
    }
  }

  /**
   Every sync, with however many restarts and whether or not it fails or ever returns, keeps at most one inbound row
   per identifier.
   */
  lemma {:induction false} SyncKeepsAtMostOne(s: State, calendar: string, t: Target, remote: Calendar, k: nat, n: nat)
    requires AtMostOne(s.rows, t.connection)
    ensures AtMostOne(Sync(s, calendar, t, remote, k, n).state.rows, t.connection)
    decreases n
  {
    if n == 0 {
    } else {
      var listing := remote(k, StoredToken(s, calendar, t));
      var feed, once := Feed(listing), Attempt(s, calendar, t, listing);
      forall id ensures |Find(once.state.rows, t.connection, id)| <= 1 {
        LastChangeWins(s.rows, feed, |feed|, t, id);
      }
      if once.StartsOver? {
        SyncKeepsAtMostOne(once.state, calendar, t, remote, k + 1, n - 1);
      }
    }
  }

  /** Two calendars whose answers differ only in how their feeds are cut into pages. */
  ghost predicate SameFeeds(a: Calendar, b: Calendar) {
    forall k: nat, token :: Feed(a(k, token)) == Feed(b(k, token)) && a(k, token).ending == b(k, token).ending
  }

  /** How the feeds are cut into pages makes no difference, to the table, the tokens or the counts. */
  lemma {:induction false} PagingIsInvisible(s: State, calendar: string, t: Target, a: Calendar, b: Calendar, k: nat,
      n: nat)
    requires SameFeeds(a, b)
    ensures Sync(s, calendar, t, a, k, n) == Sync(s, calendar, t, b, k, n)
    decreases n
  {
    if n == 0 {
    } else {
      var once := Attempt(s, calendar, t, a(k, StoredToken(s, calendar, t)));
      PagingIsInvisible(once.state, calendar, t, a, b, k + 1, n - 1);
    }
  }

  /** Replaying a feed, at whatever later instant, changes no stored title or time. */
  lemma ReplayChangesNothing(rows: seq<Row>, feed: seq<Change>, t: Target, later: int, id: string)
    requires AtMostOne(rows, t.connection)
    ensures var once := Synced(rows, feed, t);
            Stored(Synced(once, feed, t.(now := later)), t.connection, id) == Stored(once, t.connection, id)
  {
    LastChangeWins(rows, feed, |feed|, t, id);
    LastChangeWins(Synced(rows, feed, t), feed, |feed|, t.(now := later), id);
  }

  // ---------------------------------------------------------------------------
  // Rows of others, and counting
  // ---------------------------------------------------------------------------

  /** The rows that a sync of the connection must not touch. */
  function Others(rows: seq<Row>, connection: Id): seq<Row> {
    if rows == [] then []
    else if rows[0].connection == connection && rows[0].direction == Inbound then Others(rows[1..], connection)
    else [rows[0]] + Others(rows[1..], connection)
  }

  lemma {:induction false} OthersInRest(rows: seq<Row>, connection: Id, id: string)
    ensures Others(Without(rows, connection, id), connection) == Others(rows, connection)
  {
    if rows == [] {
    } else {
      OthersInRest(rows[1..], connection, id);
      var rest := Without(rows[1..], connection, id);
      assert ([rows[0]] + rest)[1..] == rest;
    }
  }

  lemma {:induction false} OthersInReplaced(rows: seq<Row>, c: Change, t: Target)
    requires Usable(c) && !c.cancelled
    ensures Others(Replaced(rows, c, t), t.connection) == Others(rows, t.connection)
  {
    if rows == [] {
    } else {
      if Matches(rows[0], t.connection, c.id) {
        assert ([Refreshed(rows[0], c, t)] + rows[1..])[1..] == rows[1..];
      } else {
        OthersInReplaced(rows[1..], c, t);
        var rest := Replaced(rows[1..], c, t);
        assert ([rows[0]] + rest)[1..] == rest;
      }
    }
  }

  lemma {:induction false} OthersInExtended(rows: seq<Row>, r: Row, connection: Id)
    requires r.connection == connection && r.direction == Inbound
    ensures Others(rows + [r], connection) == Others(rows, connection)
  {
    if rows == [] {
      assert [r][1..] == [];
    } else {
      assert (rows + [r])[1..] == rows[1..] + [r];
      OthersInExtended(rows[1..], r, connection);
    }
  }

  lemma {:induction false} FoldKeepsOthers(rows: seq<Row>, feed: seq<Change>, n: nat, t: Target)
    requires n <= |feed|
    ensures Others(Fold(rows, feed, n, t), t.connection) == Others(rows, t.connection)
  {
    if n == 0 {
    } else {
      FoldKeepsOthers(rows, feed, n - 1, t);
      var before, c := Fold(rows, feed, n - 1, t), feed[n - 1];
      if Usable(c) {
        if c.cancelled {
          OthersInRest(before, t.connection, c.id);
        } else if Find(before, t.connection, c.id) != [] {
          OthersInReplaced(before, c, t);
        } else {
          OthersInExtended(before, Created(c, t), t.connection);
        }
      }
    }
  }

  /**
   A sync touches neither outbound rows nor another connection's, keeps their order, and leaves other calendars'
   tokens alone.
   */
  lemma {:induction false} SyncKeepsOthers(s: State, calendar: string, t: Target, remote: Calendar, k: nat, n: nat)
    ensures Others(Sync(s, calendar, t, remote, k, n).state.rows, t.connection) == Others(s.rows, t.connection)
    ensures Sync(s, calendar, t, remote, k, n).state.tokens - {(t.connection, calendar)}
            == s.tokens - {(t.connection, calendar)}
    decreases n
  {
    if n == 0 {
    } else {
      var listing := remote(k, StoredToken(s, calendar, t));
      var feed, once := Feed(listing), Attempt(s, calendar, t, listing);
      FoldKeepsOthers(s.rows, feed, |feed|, t);
      if once.StartsOver? {
        SyncKeepsOthers(once.state, calendar, t, remote, k + 1, n - 1);
      }
    }
  }

  /** The table grows by the rows added and shrinks by the rows deleted, even over tables with duplicates. */
  lemma {:induction false} FoldCountsRows(rows: seq<Row>, feed: seq<Change>, n: nat, t: Target)
    requires n <= |feed|
    ensures var counts := FoldCounts(rows, feed, n, t);
            |Fold(rows, feed, n, t)| == |rows| + counts.added - counts.deleted
  {
    if n == 0 {
    } else {
      FoldCountsRows(rows, feed, n - 1, t);
      var before, c := Fold(rows, feed, n - 1, t), feed[n - 1];
      if Usable(c) {
        if c.cancelled {
          FindInRest(before, t.connection, c.id, c.id);
        } else if Find(before, t.connection, c.id) != [] {
          FindInReplaced(before, c, t, c.id);
        }
      }
    }
  }

  // ---------------------------------------------------------------------------
  // Restarts
  // ---------------------------------------------------------------------------

  /** The token that attempt k of a sync sends: the stored one at first, and none after a restart has deleted it. */
  function TokenSent(s: State, calendar: string, t: Target, k: nat): Option<string> {
    if k == 0 then StoredToken(s, calendar, t) else None
  }

  /** The calendar answers attempt k, made with this token, that the token is invalid. */
  predicate Rejects(remote: Calendar, k: nat, token: Option<string>) {
    remote(k, token).ending.TokenInvalid?
  }

  /** A sync is still starting over after n attempts exactly when all of them were told that their token is invalid. */
  lemma {:induction false} StartsOverIff(s: State, calendar: string, t: Target, remote: Calendar, n: nat)
    ensures Sync(s, calendar, t, remote, 0, n).StartsOver?
            <==> forall k: nat :: k < n ==> Rejects(remote, k, TokenSent(s, calendar, t, k))
  {
    if n == 0 {
    } else {
      var once := Attempt(s, calendar, t, remote(0, StoredToken(s, calendar, t)));
      assert Rejects(remote, 0, TokenSent(s, calendar, t, 0)) <==> once.StartsOver?;
      if once.StartsOver? {
        LaterStartsOverIff(once.state, calendar, t, remote, 1, n - 1);
        assert forall k: nat :: 1 <= k < n ==> TokenSent(s, calendar, t, k) == None;
        assert forall k: nat :: 1 <= k < n ==> (Rejects(remote, k, None)
            <==> Rejects(remote, k, TokenSent(s, calendar, t, k)));
      }
    }
  }

  lemma {:induction false} LaterStartsOverIff(s: State, calendar: string, t: Target, remote: Calendar, k: nat, n: nat)
    requires StoredToken(s, calendar, t) == None
    ensures Sync(s, calendar, t, remote, k, n).StartsOver?
            <==> forall i: nat :: k <= i < k + n ==> Rejects(remote, i, None)
    decreases n
  {
    if n == 0 {
    } else if Rejects(remote, k, None) {
      var once := Attempt(s, calendar, t, remote(k, None));
      assert StoredToken(once.state, calendar, t) == None;
      LaterStartsOverIff(once.state, calendar, t, remote, k + 1, n - 1);
    }
  }

  /** Once a sync has returned, allowing it more attempts changes nothing. */
  lemma {:induction false} ReturnedStays(s: State, calendar: string, t: Target, remote: Calendar, k: nat, n: nat,
      more: nat)
    requires Sync(s, calendar, t, remote, k, n).Returned?
    ensures Sync(s, calendar, t, remote, k, n + more) == Sync(s, calendar, t, remote, k, n)
    decreases n
  {
    if n == 0 {
    } else {
      var once := Attempt(s, calendar, t, remote(k, StoredToken(s, calendar, t)));
      if once.StartsOver? {
        ReturnedStays(once.state, calendar, t, remote, k + 1, n - 1, more);
      }
    }
  }

  /** A listing without a token never reports an invalid one. */
  ghost predicate TokenFreeIsValid(remote: Calendar) {
    forall k: nat :: !Rejects(remote, k, None)
  }

  /** The attempt after a restart, against a full listing. */
  function Retried(s: State, calendar: string, t: Target, remote: Calendar): Progress {
    Attempt(Attempt(s, calendar, t, remote(0, StoredToken(s, calendar, t))).state, calendar, t, remote(1, None))
  }

  /**
   If no token-free listing reports an invalid token, every sync returns after at most one restart: with the attempt
   that sends the stored token or, if that one is invalid, with one against a full listing, which sends none because
   the restart has deleted it. A sync that finds no token stored never restarts.
   */
  lemma AtMostOneRestart(s: State, calendar: string, t: Target, remote: Calendar, n: nat)
    requires TokenFreeIsValid(remote) && n >= 2
    ensures var first := remote(0, StoredToken(s, calendar, t));
            && Sync(s, calendar, t, remote, 0, n) ==
               (if first.ending.TokenInvalid? then Retried(s, calendar, t, remote) else Attempt(s, calendar, t, first))
            && Sync(s, calendar, t, remote, 0, n).Returned?
            && (StoredToken(s, calendar, t).None? ==> !first.ending.TokenInvalid?)
  {
    assert !Rejects(remote, 0, None) && !Rejects(remote, 1, None);
    StartsOverIff(s, calendar, t, remote, 2);
    assert TokenSent(s, calendar, t, 1) == None;
    ReturnedStays(s, calendar, t, remote, 0, 2, n - 2);
    var once := Attempt(s, calendar, t, remote(0, StoredToken(s, calendar, t)));
    if once.StartsOver? {
      assert StoredToken(once.state, calendar, t) == None;
      assert Sync(once.state, calendar, t, remote, 1, 1) == Attempt(once.state, calendar, t, remote(1, None));
    }
  }

  /** A token that turns out invalid, perhaps after some pages, and a full listing that finishes. */
  predicate Restarts(s: State, calendar: string, t: Target, remote: Calendar) {
    remote(0, StoredToken(s, calendar, t)).ending.TokenInvalid? && remote(1, None).ending.Finished?
  }

  /** Where a restarted sync leaves the table, and the counts it returns: only those of the second attempt. */
  lemma RestartedSync(s: State, calendar: string, t: Target, remote: Calendar, n: nat)
    requires Restarts(s, calendar, t, remote) && n >= 2
    ensures var partial, full := Feed(remote(0, StoredToken(s, calendar, t))), Feed(remote(1, None));
            var rows := Synced(s.rows, partial, t);
            var o := Sync(s, calendar, t, remote, 0, n);
            && Completed(o)
            && o.state.rows == Synced(rows, full, t)
            && o.result == SyncDone(FoldCounts(rows, full, |full|, t))
  {
    var once := Attempt(s, calendar, t, remote(0, StoredToken(s, calendar, t)));
    assert StoredToken(once.state, calendar, t) == None;
    assert Sync(once.state, calendar, t, remote, 1, n - 1) == Attempt(once.state, calendar, t, remote(1, None));
  }

  /**
   A restarted sync agrees with a plain full sync on an identifier exactly when the full listing has a usable change
   for it or the pages before the restart had left it as it was.
   */
  lemma RestartAgreesIff(s: State, calendar: string, t: Target, remote: Calendar, n: nat, id: string)
    requires Restarts(s, calendar, t, remote) && n >= 2 && AtMostOne(s.rows, t.connection)
    ensures var partial, full := Feed(remote(0, StoredToken(s, calendar, t))), Feed(remote(1, None));
            Stored(Sync(s, calendar, t, remote, 0, n).state.rows, t.connection, id)
                == Stored(Synced(s.rows, full, t), t.connection, id)
            <==> LastUsable(full, |full|, id).Some?
                 || LastUsable(partial, |partial|, id).None?
                 || Asked(LastUsable(partial, |partial|, id).value) == Stored(s.rows, t.connection, id)
  {
    var partial, full := Feed(remote(0, StoredToken(s, calendar, t))), Feed(remote(1, None));
    RestartedSync(s, calendar, t, remote, n);
    LastChangeWins(s.rows, partial, |partial|, t, id);
    LastChangeWins(Synced(s.rows, partial, t), full, |full|, t, id);
    LastChangeWins(s.rows, full, |full|, t, id);
  }

  /**
   The counts a restarted sync returns account for the table exactly when the dropped pages added as many rows as they
   deleted.
   */
  lemma RestartCountsIff(s: State, calendar: string, t: Target, remote: Calendar, n: nat)
    requires Restarts(s, calendar, t, remote) && n >= 2
    ensures var o := Sync(s, calendar, t, remote, 0, n);
            var partial := Feed(remote(0, StoredToken(s, calendar, t)));
            var dropped := FoldCounts(s.rows, partial, |partial|, t);
            && Completed(o)
            && var grown := o.result.counts.added - o.result.counts.deleted;
               |o.state.rows| == |s.rows| + grown <==> dropped.added == dropped.deleted
  {
    var partial, full := Feed(remote(0, StoredToken(s, calendar, t))), Feed(remote(1, None));
    RestartedSync(s, calendar, t, remote, n);
    FoldCountsRows(s.rows, partial, |partial|, t);
    FoldCountsRows(Synced(s.rows, partial, t), full, |full|, t);
  }

  /** One change on a page that a rejected token cuts short, and an empty full listing after it. */
  function CutShort(c: Change): Calendar {
    (k: nat, token: Option<string>) =>
      if token.Some? then Listing([[c]], TokenInvalid) else Listing([], Finished(None))
  }

  /** The event of that page is stored though the full listing has none, and the sync reports that it added nothing. */
  lemma KeptAndUncounted(t: Target)
    ensures var c := Change("x", false, "", When(Some(0), None), When(Some(1), None));
            var s := State([], map[(t.connection, "c") := "token"]);
            var o := Sync(s, "c", t, CutShort(c), 0, 2);
            && Completed(o) && o.state.rows == [Created(c, t)] && o.result.counts == ZERO
            && Synced(s.rows, Feed(CutShort(c)(1, None)), t) == []
  {
    var c := Change("x", false, "", When(Some(0), None), When(Some(1), None));
    var s := State([], map[(t.connection, "c") := "token"]);
    var remote := CutShort(c);
    assert StoredToken(s, "c", t) == Some("token");
    RestartedSync(s, "c", t, remote, 2);
    var partial, full := remote(0, Some("token")), remote(1, None);
    assert Flatten(partial.pages, 0) == [];
    assert Feed(partial) == [c] && Feed(full) == [];
    assert Fold([], [c], 0, t) == [];
    assert Synced([], [c], t) == [Created(c, t)];
  }

  // ---------------------------------------------------------------------------
  // All calendars of a connection
  // ---------------------------------------------------------------------------

  /**
   Syncing a connection's calendars one after the other keeps at most one row per identifier and touches nobody else's
   rows.
   */
  lemma {:induction false} SyncAllKeepsRows(s: State, calendars: seq<string>, t: Target, remotes: seq<Calendar>, m: nat,
      n: nat)
    requires m <= |calendars| == |remotes| && AtMostOne(s.rows, t.connection)
    ensures AtMostOne(SyncAll(s, calendars, t, remotes, m, n).state.rows, t.connection)
    ensures Others(SyncAll(s, calendars, t, remotes, m, n).state.rows, t.connection) == Others(s.rows, t.connection)
    decreases m
  {
    if m == 0 {
    } else {
      SyncAllKeepsRows(s, calendars, t, remotes, m - 1, n);
      var before := SyncAll(s, calendars, t, remotes, m - 1, n);
      if Completed(before) {
        SyncKeepsAtMostOne(before.state, calendars[m - 1], t, remotes[m - 1], 0, n);
        SyncKeepsOthers(before.state, calendars[m - 1], t, remotes[m - 1], 0, n);
      }
    }
  }

  /** Whatever token it is sent, the calendar's first listing finishes. */
  ghost predicate FinishesAtOnce(remote: Calendar) {
    forall token :: remote(0, token).ending.Finished?
  }

  /** When no calendar restarts, the total counts account for the whole table. */
  lemma {:induction false} SyncAllCountsRows(s: State, calendars: seq<string>, t: Target, remotes: seq<Calendar>,
      m: nat, n: nat)
    requires m <= |calendars| == |remotes| && n >= 1
    requires forall i :: 0 <= i < m ==> FinishesAtOnce(remotes[i])
    ensures var o := SyncAll(s, calendars, t, remotes, m, n);
            Completed(o) && |o.state.rows| == |s.rows| + o.result.counts.added - o.result.counts.deleted
    decreases m
  {
    if m == 0 {
    } else {
      SyncAllCountsRows(s, calendars, t, remotes, m - 1, n);
      var before := SyncAll(s, calendars, t, remotes, m - 1, n);
      assert FinishesAtOnce(remotes[m - 1]);
      var feed := Feed(remotes[m - 1](0, StoredToken(before.state, calendars[m - 1], t)));
      FoldCountsRows(before.state.rows, feed, |feed|, t);
    }
  }

  /**
   If no token-free listing of any calendar reports an invalid token, the whole sync returns after at most two
   attempts for each.
   */
  lemma {:induction false} SyncAllReturns(s: State, calendars: seq<string>, t: Target, remotes: seq<Calendar>, m: nat,
      n: nat)
    requires m <= |calendars| == |remotes| && n >= 2
    requires forall i :: 0 <= i < m ==> TokenFreeIsValid(remotes[i])
    ensures SyncAll(s, calendars, t, remotes, m, n).Returned?
    ensures SyncAll(s, calendars, t, remotes, m, n) == SyncAll(s, calendars, t, remotes, m, 2)
    decreases m
  {
    if m == 0 {
    } else {
      SyncAllReturns(s, calendars, t, remotes, m - 1, n);
      var before := SyncAll(s, calendars, t, remotes, m - 1, n);
      if Completed(before) {
        AtMostOneRestart(before.state, calendars[m - 1], t, remotes[m - 1], n);
        AtMostOneRestart(before.state, calendars[m - 1], t, remotes[m - 1], 2);
      }
    }
  }
}
