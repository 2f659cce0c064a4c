/** What holds, sessions and bookings keep of each other over every run. */
module Conservation {
  import opened Tables
  import opened Reservations
  import opened Sessions
  import opened Bookings
  import opened Jobs
  import opened Portal
  import opened Protocol

  // ---------------------------------------------------------------------------
  // Holds, sessions and the bookings made from them
  // ---------------------------------------------------------------------------

  ghost predicate HasBooking(db: Db, h: Id) {
    exists b :: 0 <= b < |db.bookings| && db.bookings[b].origin == FromHold(h)
  }

  /**
   The booking has its hold's interval, or its history shows that it was moved; if the business counted every move, it
   remembers its hold's day.
   */
  predicate MadeFrom(b: Booking, h: Hold) {
    && b.tenant == h.tenant && b.rescheduleCount <= SelfLoops(b.history)
    && (SelfLoops(b.history) == 0 ==> b.start == h.start && b.end == h.end && b.originalDate == None)
    && (0 < SelfLoops(b.history) == b.rescheduleCount ==> b.originalDate == Some(DayOf(h.start)))
  }

  ghost predicate SessionsLinked(db: Db) {
    forall s :: 0 <= s < |db.sessions| ==>
      var row := db.sessions[s];
      && (row.status == SessionCompleted <==> row.token.Some?)
      && (row.token.Some? ==> row.token.value < |db.holds| && db.holds[row.token.value].session == s
                              && db.holds[row.token.value].status == HoldConfirmed)
  }

  ghost predicate HoldsLinked(db: Db) {
    forall h :: 0 <= h < |db.holds| ==>
      var row := db.holds[h];
      && row.session < |db.sessions| && db.sessions[row.session].tenant == row.tenant
      && (row.status == HoldConfirmed ==> db.sessions[row.session].token == Some(h) && HasBooking(db, h))
  }

  ghost predicate BookingsLinked(db: Db) {
    && (forall b :: 0 <= b < |db.bookings| && db.bookings[b].origin.FromHold? ==>
          var h := db.bookings[b].origin.hold;
          h < |db.holds| && db.holds[h].status == HoldConfirmed && MadeFrom(db.bookings[b], db.holds[h]))
    && (forall b, c :: 0 <= b < c < |db.bookings| && db.bookings[b].origin.FromHold?
          ==> db.bookings[b].origin != db.bookings[c].origin)
  }

  /** Confirmed holds, completed sessions and bookings made from holds point at each other one to one. */
  ghost predicate Linked(db: Db) {
    SessionsLinked(db) && HoldsLinked(db) && BookingsLinked(db)
  }

  /** The fields of holds that the links depend on stay, and new holds belong to a session. */
  ghost predicate HoldsKept(db: Db, db': Db) {
    && |db.holds| <= |db'.holds|
    && (forall h :: 0 <= h < |db.holds| ==>
          && db'.holds[h] == db.holds[h].(status := db'.holds[h].status)
          && (db'.holds[h].status == HoldConfirmed <==> db.holds[h].status == HoldConfirmed))
    && (forall h :: |db.holds| <= h < |db'.holds| ==>
          && db'.holds[h].status != HoldConfirmed && db'.holds[h].session < |db.sessions|
          && db.sessions[db'.holds[h].session].tenant == db'.holds[h].tenant)
  }

  ghost predicate SessionsKept(db: Db, db': Db) {
    && |db.sessions| <= |db'.sessions|
    && (forall s :: 0 <= s < |db.sessions| ==>
          && db'.sessions[s].tenant == db.sessions[s].tenant && db'.sessions[s].token == db.sessions[s].token
          && (db'.sessions[s].status == SessionCompleted <==> db.sessions[s].status == SessionCompleted))
    && (forall s :: |db.sessions| <= s < |db'.sessions| ==>
          db'.sessions[s].status != SessionCompleted && db'.sessions[s].token.None?)
  }

  lemma OtherStepsKeepHolds(db: Db, op: Op)
    requires !CompletionInserts(db, op) && !OnlyOnBookings(op)
    ensures HoldsKept(db, Step(db, op))
  {
  }

  lemma OtherStepsKeepSessions(db: Db, op: Op)
    requires !CompletionInserts(db, op) && !OnlyOnBookings(op)
    ensures SessionsKept(db, Step(db, op))
  {
  }

  lemma OtherStepsKeepBoth(db: Db, op: Op)
    requires !CompletionInserts(db, op)
    ensures HoldsKept(db, Step(db, op)) && SessionsKept(db, Step(db, op))
  {
    if OnlyOnBookings(op) {
      OnlyBookingsChange(db, op);
    } else {
      OtherStepsKeepHolds(db, op);
      OtherStepsKeepSessions(db, op);
    }
  }

  /** Bookings are never removed or given another origin. */
  lemma HasBookingStays(db: Db, op: Op, h: Id)
    requires HasBooking(db, h)
    ensures HasBooking(Step(db, op), h)
  {
    StepChangesRows(db, op);
    var b :| 0 <= b < |db.bookings| && db.bookings[b].origin == FromHold(h);
    assert Step(db, op).bookings[b].origin == FromHold(h);
  }

  lemma RowStepKeepsMaking(was: Booking, now: Booking, h: Hold)
    requires (RowStep(was, now) || LateStep(was, now)) && MadeFrom(was, h)
    ensures now.origin == was.origin && MadeFrom(now, h)
  {
    if now.history != was.history {
      SelfLoopsOfMore(was.history, now.history[|was.history|]);
    }
  }

  /** Rows already in bookings changed as a step may change them; rows appended were not made from holds. */
  ghost predicate BookingsKept(db: Db, db': Db) {
    && |db.bookings| <= |db'.bookings|
    && (forall b :: 0 <= b < |db.bookings|
          ==> RowStep(db.bookings[b], db'.bookings[b]) || LateStep(db.bookings[b], db'.bookings[b]))
    && (forall b :: |db.bookings| <= b < |db'.bookings| ==> !db'.bookings[b].origin.FromHold?)
  }

  lemma BookingsStayLinked(db: Db, db': Db)
    requires BookingsLinked(db) && HoldsKept(db, db') && BookingsKept(db, db')
    ensures BookingsLinked(db')
  {
    forall b | 0 <= b < |db'.bookings| && db'.bookings[b].origin.FromHold?
      ensures b < |db.bookings| && db.bookings[b].origin == db'.bookings[b].origin
      ensures MadeFrom(db'.bookings[b], db'.holds[db'.bookings[b].origin.hold])
    {
      assert RowStep(db.bookings[b], db'.bookings[b]) || LateStep(db.bookings[b], db'.bookings[b]);
      RowStepKeepsMaking(db.bookings[b], db'.bookings[b], db.holds[db.bookings[b].origin.hold]);
    }
  }

  lemma HoldsStayLinked(db: Db, db': Db)
    requires HoldsLinked(db) && HoldsKept(db, db') && SessionsKept(db, db')
    requires forall h :: 0 <= h < |db.holds| && db.holds[h].status == HoldConfirmed ==> HasBooking(db', h)
    ensures HoldsLinked(db')
  {
  }

  lemma OtherStepsKeepLinks(db: Db, op: Op)
    requires Linked(db) && !CompletionInserts(db, op)
    ensures Linked(Step(db, op))
  {
    var db' := Step(db, op);
    OtherStepsKeepBoth(db, op);
    assert BookingsKept(db, db') by { StepChangesRows(db, op); }
    forall h | 0 <= h < |db.holds| && db.holds[h].status == HoldConfirmed ensures HasBooking(db', h) {
      assert HasBooking(db, h);
      HasBookingStays(db, op, h);
    }
    SessionsStayLinked(db, db');
    HoldsStayLinked(db, db');
    BookingsStayLinked(db, db');
  }

  lemma SessionsStayLinked(db: Db, db': Db)
    requires SessionsLinked(db) && HoldsKept(db, db') && SessionsKept(db, db')
    ensures SessionsLinked(db')
  {
  }

  lemma CompletionKeepsSessions(db: Db, op: Op)
    requires Linked(db) && CompletionInserts(db, op)
    ensures SessionsLinked(Step(db, op))
  {
  }

  lemma CompletionKeepsBookings(db: Db, op: Op)
    requires Linked(db) && CompletionInserts(db, op)
    ensures BookingsLinked(Step(db, op))
  {
  }

  lemma CompletionKeepsLinks(db: Db, op: Op)
    requires Linked(db) && CompletionInserts(db, op)
    ensures Linked(Step(db, op))
  {
    var db' := Step(db, op);
    CompletionKeepsSessions(db, op);
    CompletionKeepsBookings(db, op);
    assert db'.bookings[|db.bookings|].origin == FromHold(op.pick);
    assert HasBooking(db', op.pick);
    forall h | 0 <= h < |db.holds| && db.holds[h].status == HoldConfirmed ensures HasBooking(db', h) {
      HasBookingStays(db, op, h);
    }
  }

  lemma StepKeepsLinks(db: Db, op: Op)
    requires Linked(db)
    ensures Linked(Step(db, op))
  {
    if CompletionInserts(db, op) { CompletionKeepsLinks(db, op); } else { OtherStepsKeepLinks(db, op); }
  }

  lemma {:induction false} RunKeepsLinks(db: Db, ops: seq<Op>)
    requires Linked(db)
    ensures Linked(Run(db, ops))
    decreases |ops|
  {
    if ops == [] {
    } else {
      StepKeepsLinks(db, ops[0]);
      RunKeepsLinks(Step(db, ops[0]), ops[1..]);
    }
  }

  function ConfirmedHolds(db: Db): set<nat> {
    set h: nat | h < |db.holds| && db.holds[h].status == HoldConfirmed
  }

  function CompletedSessions(db: Db): set<nat> {
    set s: nat | s < |db.sessions| && db.sessions[s].status == SessionCompleted
  }

  function BookingsFromHolds(db: Db): set<nat> {
    set b: nat | b < |db.bookings| && db.bookings[b].origin.FromHold?
  }

  /** Two sets that a function maps one to one and onto each other have the same size. */
  lemma {:induction false} SameSize(a: set<nat>, b: set<nat>, f: nat -> nat)
    requires forall x :: x in a ==> f(x) in b
    requires forall x, y :: x in a && y in a && f(x) == f(y) ==> x == y
    requires forall y :: y in b ==> exists x :: x in a && f(x) == y
    ensures |a| == |b|
    decreases a
  {
    if a == {} {
      assert b == {};
    } else {
      var x :| x in a;
      forall y | y in b - {f(x)} ensures exists z :: z in a - {x} && f(z) == y {
        var z :| z in a && f(z) == y;
        assert z in a - {x};
      }
      SameSize(a - {x}, b - {f(x)}, f);
    }
  }

  lemma AsManyBookingsAsHolds(db: Db)
    requires Linked(db)
    ensures |BookingsFromHolds(db)| == |ConfirmedHolds(db)|
  {
    var holdOf := (b: nat) =>
      if b < |db.bookings| && db.bookings[b].origin.FromHold? then db.bookings[b].origin.hold else 0;
    forall h | h in ConfirmedHolds(db) ensures exists b :: b in BookingsFromHolds(db) && holdOf(b) == h {
      assert HasBooking(db, h);
      var b :| 0 <= b < |db.bookings| && db.bookings[b].origin == FromHold(h);
      assert b in BookingsFromHolds(db) && holdOf(b) == h;
    }
    SameSize(BookingsFromHolds(db), ConfirmedHolds(db), holdOf);
  }

  lemma AsManyHoldsAsSessions(db: Db)
    requires Linked(db)
    ensures |ConfirmedHolds(db)| == |CompletedSessions(db)|
  {
    var sessionOf := (h: nat) => if h < |db.holds| then db.holds[h].session else 0;
    forall s | s in CompletedSessions(db) ensures exists h :: h in ConfirmedHolds(db) && sessionOf(h) == s {
      var h := db.sessions[s].token.value;
      assert h in ConfirmedHolds(db) && sessionOf(h) == s;
    }
    SameSize(ConfirmedHolds(db), CompletedSessions(db), sessionOf);
  }

  /** From empty tables, whatever the handlers do and in whatever order: the links hold and the three counts agree. */
  lemma ConservationOverRuns(now: int, ops: seq<Op>)
    ensures var db := Run(Empty(now), ops);
            && Linked(db)
            && |BookingsFromHolds(db)| == |ConfirmedHolds(db)| == |CompletedSessions(db)|
  {
    RunKeepsLinks(Empty(now), ops);
    AsManyBookingsAsHolds(Run(Empty(now), ops));
    AsManyHoldsAsSessions(Run(Empty(now), ops));
  }

  /** In every reachable state, two bookings made from holds come from two different sessions. */
  lemma OneBookingPerSession(now: int, ops: seq<Op>, b: Id, c: Id)
    requires var db := Run(Empty(now), ops);
             b < c < |db.bookings| && db.bookings[b].origin.FromHold? && db.bookings[c].origin.FromHold?
    ensures var db := Run(Empty(now), ops);
            var h, g := db.bookings[b].origin.hold, db.bookings[c].origin.hold;
            h < |db.holds| && g < |db.holds| && db.holds[h].session != db.holds[g].session
  {
    RunKeepsLinks(Empty(now), ops);
  }

  // ---------------------------------------------------------------------------
  // Hold deadlines
  // ---------------------------------------------------------------------------

  /** No HELD row has more than five minutes left. */
  predicate DeadlinesNear(db: Db) {
    forall h :: 0 <= h < |db.holds| && db.holds[h].status == Held ==> db.holds[h].expiresAt <= db.now + HOLD_MS
  }

  lemma StepKeepsDeadlines(db: Db, op: Op)
    requires DeadlinesNear(db)
    ensures DeadlinesNear(Step(db, op))
  {
  }

  lemma {:induction false} RunKeepsDeadlines(db: Db, ops: seq<Op>)
    requires DeadlinesNear(db)
    ensures DeadlinesNear(Run(db, ops))
    decreases |ops|
  {
    if ops == [] {
    } else {
      StepKeepsDeadlines(db, ops[0]);
      RunKeepsDeadlines(Step(db, ops[0]), ops[1..]);
    }
  }

  /** The expiry job is invisible: it changes no row's claim on time, so any run goes on exactly as without it. */
  lemma ExpiryJobIsInvisible(db: Db, o: Occupier)
    ensures Occupies(Step(db, ExpireJob), o) <==> Occupies(db, o)
    ensures Occupies(db, o) ==> ClaimOf(Step(db, ExpireJob), o) == ClaimOf(db, o)
  {
    var db' := Step(db, ExpireJob);
    if o.HoldRow? && o.h < |db.holds| {
      assert db'.holds[o.h].status == db.holds[o.h].status || !ActiveHold(db.holds[o.h], db.now);
    }
  }

  /** The job expires exactly the HELD rows whose time is over, and leaves every other row as it is. */
  lemma ExpiryJobIff(db: Db, h: Id)
    requires h < |db.holds|
    ensures h < |Step(db, ExpireJob).holds|
    ensures Step(db, ExpireJob).holds[h] ==
            if db.holds[h].status == Held && db.now > db.holds[h].expiresAt then db.holds[h].(status := Expired)
            else db.holds[h]
  {
  }

  /** However late it runs: once a reserved hold's five minutes are over, the job's next run expires it. */
  lemma ReservedExpires(db: Db, p: ReserveParams, ms: nat)
    requires Reserve(db, p).Done?
    ensures var d := Step(Step(Reserve(db, p).db, Tick(ms)), ExpireJob);
            |db.holds| < |d.holds| && (d.holds[|db.holds|].status == Expired <==> ms > 300_000)
  {
    ExpiryJobIff(Step(Reserve(db, p).db, Tick(ms)), |db.holds|);
  }

  // ---------------------------------------------------------------------------
  // How a hold ends
  // ---------------------------------------------------------------------------

  /** The session is the tenant's and in progress. */
  predicate OpenSessionOf(db: Db, tenant: Id, s: Id) {
    s < |db.sessions| && db.sessions[s].tenant == tenant && db.sessions[s].status == SessionInProgress
  }

  /** What a step makes of a HELD row. */
  function HoldEnds(db: Db, op: Op, h: Id): HoldStatus
    requires h < |db.holds|
  {
    var row := db.holds[h];
    match op
    case ReleaseHold(t, token) => if t == row.tenant && token == h then Released else Held
    case ReleaseSession(t, s) => if t == row.tenant && s == row.session then Released else Held
    case AbandonSession(t, s) =>
      if t == row.tenant && s == row.session && OpenSessionOf(db, t, s) then Released else Held
    case CompleteSession(_, _, pick, _) => if pick == h && Apply(db, op).Done? then HoldConfirmed else Held
    case ExpireJob => if row.expiresAt < db.now then Expired else Held
    case _ => Held
  }

  /**
   A HELD row is RELEASED by a release or an abandoned session, CONFIRMED by its session's completion and EXPIRED by the
   job, each exactly then; a row that is no longer HELD never changes, and nothing else of a row ever does.
   */
  lemma HoldFollows(db: Db, op: Op, h: Id)
    requires h < |db.holds|
    ensures h < |Step(db, op).holds|
    ensures Step(db, op).holds[h]
            == if db.holds[h].status == Held then db.holds[h].(status := HoldEnds(db, op, h)) else db.holds[h]
  {
    if OnlyOnBookings(op) {
      OnlyBookingsChange(db, op);
    } else {
      OtherHoldFollows(db, op, h);
    }
  }

  lemma OtherHoldFollows(db: Db, op: Op, h: Id)
    requires h < |db.holds| && !OnlyOnBookings(op)
    ensures h < |Step(db, op).holds|
    ensures Step(db, op).holds[h]
            == if db.holds[h].status == Held then db.holds[h].(status := HoldEnds(db, op, h)) else db.holds[h]
  {
  }
}
