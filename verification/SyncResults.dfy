/** What a sync leaves behind: the sync token, the stored events field by field, and its counts. */
module SyncResults {
  import opened Tables
  import opened CalendarSync

  // ---------------------------------------------------------------------------
  // The sync token
  // ---------------------------------------------------------------------------

  /** What the next sync should send: the token that the listing ended with, or if it brought none the one sent. */
  function Renewed(ending: Ending, sent: Option<string>): Option<string> {
    match ending
    case Finished(Some(next)) => if |next| > 0 then Some(next) else sent
    case _ => sent
  }

  /** Attempt k is the first one that is not told that its token is invalid. */
  ghost predicate FirstValid(s: State, calendar: string, t: Target, remote: Calendar, k: nat) {
    && !Rejects(remote, k, TokenSent(s, calendar, t, k))
    && forall i: nat :: i < k ==> Rejects(remote, i, TokenSent(s, calendar, t, i))
  }

  /** With no token stored. */
  lemma {:induction false} LaterFirstValid(s: State, calendar: string, t: Target, remote: Calendar, k: nat, n: nat)
    returns (l: nat)
    requires StoredToken(s, calendar, t) == None && Sync(s, calendar, t, remote, k, n).Returned?
    ensures k <= l < k + n && !Rejects(remote, l, None) && forall i: nat :: k <= i < l ==> Rejects(remote, i, None)
    ensures StoredToken(Sync(s, calendar, t, remote, k, n).state, calendar, t) == Renewed(remote(l, None).ending, None)
    ensures Sync(s, calendar, t, remote, k, n).result.SyncFailed? <==> remote(l, None).ending.Broken?
    decreases n
  {
    l := k;
    if n == 0 {
    } else if Rejects(remote, k, None) {
      var once := Attempt(s, calendar, t, remote(k, None));
      assert StoredToken(once.state, calendar, t) == None;
      l := LaterFirstValid(once.state, calendar, t, remote, k + 1, n - 1);
    } else {
      TokenAfterAttempt(s, calendar, t, remote(k, None));
    }
  }

  lemma TokenAfterAttempt(s: State, calendar: string, t: Target, listing: Listing)
    requires !listing.ending.TokenInvalid?
    ensures Attempt(s, calendar, t, listing).Returned?
    ensures StoredToken(Attempt(s, calendar, t, listing).state, calendar, t)
            == Renewed(listing.ending, StoredToken(s, calendar, t))
    ensures Attempt(s, calendar, t, listing).result.SyncFailed? <==> listing.ending.Broken?
  {
  }

  /**
   A sync that returns has stored the token that its last listing ended with. When that listing broke off or brought no
   token, the token that was sent with it stays: the one found at the start, or none after a restart. It reports failure
   exactly when that listing broke off.
   */
  lemma SyncStoresToken(s: State, calendar: string, t: Target, remote: Calendar, n: nat) returns (k: nat)
    requires Sync(s, calendar, t, remote, 0, n).Returned?
    ensures k < n && FirstValid(s, calendar, t, remote, k)
    ensures StoredToken(Sync(s, calendar, t, remote, 0, n).state, calendar, t)
            == Renewed(remote(k, TokenSent(s, calendar, t, k)).ending, TokenSent(s, calendar, t, k))
    ensures Sync(s, calendar, t, remote, 0, n).result.SyncFailed?
            <==> remote(k, TokenSent(s, calendar, t, k)).ending.Broken?
  {
    var once := Attempt(s, calendar, t, remote(0, StoredToken(s, calendar, t)));
    if once.StartsOver? {
      assert StoredToken(once.state, calendar, t) == None;
      k := LaterFirstValid(once.state, calendar, t, remote, 1, n - 1);
      forall i: nat | i < k ensures Rejects(remote, i, TokenSent(s, calendar, t, i)) {
        assert i >= 1 ==> Rejects(remote, i, None);
      }
    } else {
      k := 0;
      TokenAfterAttempt(s, calendar, t, remote(0, StoredToken(s, calendar, t)));
    }
  }

  /**
   So the first attempt of the calendar's next sync sends exactly that token, at whatever later instant and whatever
   other calendar was synced in between.
   */
  lemma NextSyncSends(s: State, calendar: string, t: Target, remote: Calendar, n: nat, other: string, between: Target,
      otherRemote: Calendar, m: nat, later: Target, token: string)
    requires Sync(s, calendar, t, remote, 0, n).Returned? && token != ""
    requires forall k: nat :: FirstValid(s, calendar, t, remote, k) ==>
               remote(k, TokenSent(s, calendar, t, k)).ending == Finished(Some(token))
    requires (between.connection, other) != (t.connection, calendar) && later.connection == t.connection
    ensures var synced := Sync(s, calendar, t, remote, 0, n).state;
            TokenSent(Sync(synced, other, between, otherRemote, 0, m).state, calendar, later, 0) == Some(token)
  {
    var synced := Sync(s, calendar, t, remote, 0, n).state;
    var k := SyncStoresToken(s, calendar, t, remote, n);
    var after, key := Sync(synced, other, between, otherRemote, 0, m).state, (t.connection, calendar);
    SyncKeepsOthers(synced, other, between, otherRemote, 0, m);
    assert key in synced.tokens && synced.tokens[key] == token;
    assert key in synced.tokens - {(between.connection, other)};
    assert key in after.tokens - {(between.connection, other)} && after.tokens[key] == token;
  }

  // ---------------------------------------------------------------------------
  // The pages of all attempts
  // ---------------------------------------------------------------------------

  /** The feeds of the n attempts from k on, one after the other, of which the first sends the token. */
  function FeedsFrom(remote: Calendar, k: nat, n: nat, token: Option<string>): seq<Change>
    decreases n
  {
    if n == 0 then [] else Feed(remote(k, token)) + FeedsFrom(remote, k + 1, n - 1, None)
  }

  lemma {:induction false} FoldConcat(rows: seq<Row>, a: seq<Change>, b: seq<Change>, n: nat, t: Target)
    requires n <= |b|
    ensures Fold(rows, a + b, |a| + n, t) == Fold(Synced(rows, a, t), b, n, t)
  {
    if n == 0 {
      FoldPrefix(rows, a, b, |a|, t);
    } else {
      FoldConcat(rows, a, b, n - 1, t);
    }
  }

  lemma {:induction false} PagesFrom(s: State, calendar: string, t: Target, remote: Calendar, k: nat, n: nat)
    returns (made: nat)
    ensures made <= n && (Sync(s, calendar, t, remote, k, n).StartsOver? ==> made == n)
    ensures Sync(s, calendar, t, remote, k, n).state.rows
            == Synced(s.rows, FeedsFrom(remote, k, made, StoredToken(s, calendar, t)), t)
    decreases n
  {
    made := 0;
    if n == 0 {
    } else {
      var listing := remote(k, StoredToken(s, calendar, t));
      var once := Attempt(s, calendar, t, listing);
      if once.StartsOver? {
        assert StoredToken(once.state, calendar, t) == None;
        var later := PagesFrom(once.state, calendar, t, remote, k + 1, n - 1);
        var rest := FeedsFrom(remote, k + 1, later, None);
        made := later + 1;
        FoldConcat(s.rows, Feed(listing), rest, |rest|, t);
      } else {
        made := 1;
        assert FeedsFrom(remote, k, 1, StoredToken(s, calendar, t)) == Feed(listing) + [];
        assert Feed(listing) + [] == Feed(listing);
      }
    }
  }

  /**
   Whether a sync finishes, breaks off or goes on restarting: the table is what the pages of all its attempts make of
   it, one after the other, each change applied once.
   */
  lemma EveryPageCounts(s: State, calendar: string, t: Target, remote: Calendar, n: nat) returns (made: nat)
    ensures made <= n && (Sync(s, calendar, t, remote, 0, n).StartsOver? ==> made == n)
    ensures Sync(s, calendar, t, remote, 0, n).state.rows
            == Synced(s.rows, FeedsFrom(remote, 0, made, TokenSent(s, calendar, t, 0)), t)
  {
    made := PagesFrom(s, calendar, t, remote, 0, n);
  }

  // ---------------------------------------------------------------------------
  // The stored events
  // ---------------------------------------------------------------------------

  /** The instant at which a timed or an all-day event starts or ends: its dateTime comes before its date. */
  function InstantOf(w: When): Option<int> {
    match w
    case When(Some(instant), _) => Some(instant)
    case When(None, date) => date
  }

  /** What a change asks for: nothing at all, no event, or this one. */
  datatype Request = Nothing | NoEvent | AnEvent(view: View)

  function RequestOf(c: Change): Request {
    if |c.id| == 0 then Nothing
    else if c.cancelled then NoEvent
    else
      match (InstantOf(c.start), InstantOf(c.end))
      case (Some(start), Some(end)) => AnEvent(View(if |c.summary| > 0 then Some(c.summary) else None, start, end))
      case _ => Nothing
  }

  /** After a feed the event of its last change is what that change asks for, or as it was if it asks for nothing. */
  lemma LastChangeIsStored(rows: seq<Row>, feed: seq<Change>, t: Target, c: Change)
    requires |Find(rows, t.connection, c.id)| <= 1
    ensures Stored(Synced(rows, feed + [c], t), t.connection, c.id) ==
              match RequestOf(c)
              case Nothing => Stored(Synced(rows, feed, t), t.connection, c.id)
              case NoEvent => []
              case AnEvent(view) => [view]
  {
    LastChangeWins(rows, feed, |feed|, t, c.id);
    OneMoreSynced(rows, feed, t, c);
    AppliedDecides(Synced(rows, feed, t), c, t, c.id);
    RequestIsAsked(c);
  }

  lemma OneMoreSynced(rows: seq<Row>, feed: seq<Change>, t: Target, c: Change)
    ensures Synced(rows, feed + [c], t) == Applied(Synced(rows, feed, t), c, t)
  {
    FoldPrefix(rows, feed, [c], |feed|, t);
  }

  lemma RequestIsAsked(c: Change)
    ensures Usable(c) <==> !RequestOf(c).Nothing?
    ensures Usable(c) ==> Asked(c) == if RequestOf(c).AnEvent? then [RequestOf(c).view] else []
  {
  }

  /** The inbound rows of the connection belong to its tenant, and those written by this sync carry its instant. */
  ghost predicate Stamped(rows: seq<Row>, was: seq<Row>, t: Target) {
    forall r :: r in rows && r.connection == t.connection && r.direction == Inbound ==>
      r in was || (r.tenant == t.tenant && r.syncedAt == t.now)
  }

  ghost predicate OwnTenant(rows: seq<Row>, t: Target) {
    forall r :: r in rows && r.connection == t.connection && r.direction == Inbound ==> r.tenant == t.tenant
  }

  lemma {:induction false} WithoutKeeps(rows: seq<Row>, connection: Id, id: string, r: Row)
    ensures r in Without(rows, connection, id) ==> r in rows
  {
    if rows == [] {
    } else {
      WithoutKeeps(rows[1..], connection, id, r);
    }
  }

  lemma {:induction false} ReplacedKeeps(rows: seq<Row>, c: Change, t: Target, r: Row)
    requires Usable(c) && !c.cancelled
    ensures r in Replaced(rows, c, t) ==>
              r in rows || exists o :: o in rows && Matches(o, t.connection, c.id) && r == Refreshed(o, c, t)
  {
    if rows == [] {
    } else if Matches(rows[0], t.connection, c.id) {
      assert rows[0] in rows;
    } else {
      ReplacedKeeps(rows[1..], c, t, r);
    }
  }

  /**
   Every row that a sync writes is the connection's tenant's and carries the instant of the sync; the other rows are
   as they were.
   */
  lemma {:induction false} RowsAreStamped(rows: seq<Row>, feed: seq<Change>, n: nat, t: Target)
    requires n <= |feed| && OwnTenant(rows, t)
    ensures OwnTenant(Fold(rows, feed, n, t), t) && Stamped(Fold(rows, feed, n, t), rows, t)
  {
    if n == 0 {
    } else {
      RowsAreStamped(rows, feed, n - 1, t);
      var before, after, c := Fold(rows, feed, n - 1, t), Fold(rows, feed, n, t), feed[n - 1];
      forall r | r in after && r.connection == t.connection && r.direction == Inbound
        ensures r.tenant == t.tenant && (r in rows || r.syncedAt == t.now)
      {
        if Usable(c) && c.cancelled {
          WithoutKeeps(before, t.connection, c.id, r);
        } else if Usable(c) && Find(before, t.connection, c.id) != [] {
          ReplacedKeeps(before, c, t, r);
        }
      }
    }
  }

  // ---------------------------------------------------------------------------
  // The counts
  // ---------------------------------------------------------------------------

  /** The event is there after the first n changes: the last change that asks for anything is not its cancellation. */
  predicate Present(rows: seq<Row>, feed: seq<Change>, n: nat, t: Target, id: string)
    requires n <= |feed|
  {
    if n == 0 then Stored(rows, t.connection, id) != []
    else if feed[n - 1].id != id || RequestOf(feed[n - 1]).Nothing? then Present(rows, feed, n - 1, t, id)
    else RequestOf(feed[n - 1]).AnEvent?
  }

  /** New events, events that were there already, and cancellations of events that were, among the first n changes. */
  function Tally(rows: seq<Row>, feed: seq<Change>, n: nat, t: Target): Counts
    requires n <= |feed|
  {
    if n == 0 then ZERO
    else
      var there := Present(rows, feed, n - 1, t, feed[n - 1].id);
      Tally(rows, feed, n - 1, t).Plus(Tallied(feed[n - 1], there))
  }

  /** A change of an event that was there before, or was not. */
  function Tallied(c: Change, there: bool): Counts {
    match RequestOf(c)
    case Nothing => Counts(0, 0, 0)
    case NoEvent => if there then Counts(0, 0, 1) else Counts(0, 0, 0)
    case AnEvent(_) => if there then Counts(0, 1, 0) else Counts(1, 0, 0)
  }

  lemma CountedAsTallied(rows: seq<Row>, c: Change, t: Target)
    requires |Find(rows, t.connection, c.id)| <= 1
    ensures Counted(rows, c, t) == Tallied(c, Find(rows, t.connection, c.id) != [])
  {
  }

  lemma {:induction false} PresentIff(rows: seq<Row>, feed: seq<Change>, n: nat, t: Target, id: string)
    requires n <= |feed| && |Find(rows, t.connection, id)| <= 1
    ensures Present(rows, feed, n, t, id) <==> Find(Fold(rows, feed, n, t), t.connection, id) != []
    ensures |Find(Fold(rows, feed, n, t), t.connection, id)| <= 1
  {
    if n == 0 {
    } else {
      PresentIff(rows, feed, n - 1, t, id);
      AppliedDecides(Fold(rows, feed, n - 1, t), feed[n - 1], t, id);
    }
  }

  /** The counts of a sync say how many events were new, how many were known, and how many known ones were cancelled. */
  lemma {:induction false} CountsAreTally(rows: seq<Row>, feed: seq<Change>, n: nat, t: Target)
    requires n <= |feed| && AtMostOne(rows, t.connection)
    ensures FoldCounts(rows, feed, n, t) == Tally(rows, feed, n, t)
  {
    if n == 0 {
    } else {
      CountsAreTally(rows, feed, n - 1, t);
      PresentIff(rows, feed, n - 1, t, feed[n - 1].id);
      CountedAsTallied(Fold(rows, feed, n - 1, t), feed[n - 1], t);
    }
  }
}
