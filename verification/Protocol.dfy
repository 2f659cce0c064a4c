/**
 The hold-and-book protocol: every handler as one atomic step over the tables, the queries and transactions of the
 booking jobs as steps of their own, runs of steps in any order, and what holds in every state a run reaches.
 */
module Protocol {
  import opened Tables
  import opened Reservations
  import opened Sessions
  import opened Bookings
  import opened Jobs
  import opened Portal

  datatype Op =
    | Tick(ms: nat)
    | ExpireJob
    | OpenSession(tenant: Id, svc: Option<Id>)
    | EditSession(tenant: Id, session: Id, patch: Patch)
    | ReserveSlot(params: ReserveParams)
    | ReleaseHold(tenant: Id, token: Id)
    | ReleaseSession(tenant: Id, session: Id)
    | AbandonSession(tenant: Id, session: Id)
    | CompleteSession(tenant: Id, session: Id, pick: Id, mode: Option<ServiceMode>)
    | PaySession(session: Id, pick: Id)
    | WalkInNow(tenant: Id, service: Id, row: Option<WalkInService>, client: Option<Id>, start: int, end: int)
    | RescheduleTo(tenant: Id, booking: Id, start: int, end: int, maxCount: Option<int>)
    | ConfirmOp(tenant: Id, booking: Id)
    | CancelOp(tenant: Id, booking: Id)
    | ArriveOp(tenant: Id, booking: Id)
    | NoShowOp(tenant: Id, booking: Id, grace: Option<int>)
    | FinishOp(tenant: Id, booking: Id)
    | CheckInOp(tenant: Id, booking: Id)
    | CheckOutOp(tenant: Id, booking: Id)
    | MissedQuery
    | MarkMissedOp(booking: Id)
    | EndedQuery
    | CompleteEndedOp(booking: Id)
    | UnapprovedQuery(overdue: set<Id>)
    | CancelUnapprovedOp(booking: Id)
    | PortalMove(caller: Id, booking: Id, start: int, end: int, maxCount: Option<int>)
    | ImportRow(tenant: Id, client: Option<Id>, found: Option<(Id, int)>, start: int)

  function Apply(db: Db, op: Op): Outcome {
    match op
    case Tick(ms) => Done(db.(now := db.now + ms), 0)
    case ExpireJob => Done(db.(holds := ExpiredAt(db.holds, db.now)), 0)
    case OpenSession(t, svc) => Sessions.Create(db, t, svc)
    case EditSession(t, s, p) => Sessions.Update(db, t, s, p)
    case ReserveSlot(p) => Reserve(db, p)
    case ReleaseHold(t, token) => Release(db, t, token)
    case ReleaseSession(t, s) => Done(db.(holds := ReleasedFor(db.holds, t, s)), s)
    case AbandonSession(t, s) => Abandon(db, t, s)
    case CompleteSession(t, s, pick, mode) => Complete(db, t, s, pick, mode)
    case PaySession(s, pick) => Pay(db, s, pick)
    case WalkInNow(t, svc, row, client, start, end) => WalkIn(db, t, svc, row, client, start, end)
    case RescheduleTo(t, b, start, end, maxCount) => Reschedule(db, t, b, start, end, maxCount)
    case ConfirmOp(t, b) => Confirm(db, t, b)
    case CancelOp(t, b) => Cancel(db, t, b)
    case ArriveOp(t, b) => Arrive(db, t, b)
    case NoShowOp(t, b, grace) => MarkNoShow(db, t, b, grace)
    case FinishOp(t, b) => Finish(db, t, b)
    case CheckInOp(t, b) => CheckIn(db, t, b)
    case CheckOutOp(t, b) => CheckOut(db, t, b)
    case MissedQuery => PickMissed(db)
    case MarkMissedOp(b) => MarkMissed(db, b)
    case EndedQuery => PickEnded(db)
    case CompleteEndedOp(b) => CompleteEnded(db, b)
    case UnapprovedQuery(overdue) => PickUnapproved(db, overdue)
    case CancelUnapprovedOp(b) => CancelUnapproved(db, b)
    case PortalMove(caller, b, start, end, maxCount) => RequestReschedule(db, caller, b, start, end, maxCount)
    case ImportRow(t, client, found, start) => Import(db, t, client, found, start)
  }

  function Step(db: Db, op: Op): Db {
    After(db, Apply(db, op))
  }

  function Run(db: Db, ops: seq<Op>): Db
    decreases |ops|
  {
    if ops == [] then db else Run(Step(db, ops[0]), ops[1..])
  }

  lemma {:induction false} RunConcat(db: Db, a: seq<Op>, b: seq<Op>)
    ensures Run(db, a + b) == Run(Run(db, a), b)
    decreases |a|
  {
    if a == [] {
      assert a + b == b;
    } else {
      assert (a + b)[0] == a[0] && (a + b)[1..] == a[1..] + b;
      RunConcat(Step(db, a[0]), a[1..], b);
    }
  }

  function Empty(now: int): Db {
    Db(now, [], [], [], Picked({}, {}, {}))
  }

  /** Every way a step that finds a booking as it expects it can change the booking's row. */
  ghost predicate RowStep(was: Booking, now: Booking) {
    || now == was
    || (now == was.(checkIn := now.checkIn) && now.checkIn != CheckInNoShow && was.checkIn != CheckInNoShow)
    || (now == was.(checkIn := CheckInNoShow) && was.status == Confirmed && was.checkIn == CheckInPending)
    || (&& now.status != was.status && AllowedEdge(HistoryEntry(was.status, now.status))
        && now == Moved(was, now.status).(checkIn := now.checkIn)
        && if now.status == NoShow then now.checkIn == CheckInNoShow
           else now.checkIn == was.checkIn || now.checkIn == CheckedIn)
    || (&& (was.status == Confirmed || was.status == Pending)
        && (now == Rescheduled(was, now.start, now.end) || now == PortalMoved(was, now.start, now.end)))
  }

  /** What a job does to a row that has changed since the job's query. */
  ghost predicate LateStep(was: Booking, now: Booking) {
    || (was.status != Confirmed && now == JobCompleted(was))
    || (was.status != Pending && now == JobCancelled(was))
  }

  /** A job's transaction still finds the status that its query asked for; other steps have nothing to miss. */
  predicate OnTime(db: Db, op: Op) {
    && (op.CompleteEndedOp? && Apply(db, op).Done? ==> db.bookings[op.booking].status == Confirmed)
    && (op.CancelUnapprovedOp? && Apply(db, op).Done? ==> db.bookings[op.booking].status == Pending)
  }

  /**
   A step changes the rows already in bookings only in these ways and appends at most one row, in one of four forms.
   */
  lemma StepChangesRows(db: Db, op: Op)
    ensures var db' := Step(db, op);
            && |db.bookings| <= |db'.bookings| <= |db.bookings| + 1
            && (forall b :: 0 <= b < |db.bookings| && b != TargetOf(op) ==> db'.bookings[b] == db.bookings[b])
            && (forall b :: 0 <= b < |db.bookings| ==>
                  if OnTime(db, op) || b != TargetOf(op) then RowStep(db.bookings[b], db'.bookings[b])
                  else LateStep(db.bookings[b], db'.bookings[b]))
            && (|db'.bookings| > |db.bookings| ==> Inserted(db, op, db'.bookings[|db.bookings|]))
  {
    if TargetOf(op) < 0 {
      OtherStepsAppend(db, op);
    } else {
      TargetedStep(db, op);
      if TargetOf(op) < |db.bookings| {
        if IsJobStep(op) { JobStepOnRow(db, op); } else { HandlerStepOnRow(db, op); }
      }
    }
  }

  /** A step without a target leaves the rows of bookings alone and may append one. */
  lemma OtherStepsAppend(db: Db, op: Op)
    requires TargetOf(op) < 0
    ensures var db' := Step(db, op);
            && |db.bookings| <= |db'.bookings| <= |db.bookings| + 1
            && (forall b :: 0 <= b < |db.bookings| ==> db'.bookings[b] == db.bookings[b])
            && (|db'.bookings| > |db.bookings| ==> Inserted(db, op, db'.bookings[|db.bookings|]))
  {
  }

  lemma TargetedStep(db: Db, op: Op)
    requires TargetOf(op) >= 0
    ensures |Step(db, op).bookings| == |db.bookings|
    ensures forall b :: 0 <= b < |db.bookings| && b != TargetOf(op) ==> Step(db, op).bookings[b] == db.bookings[b]
  {
  }

  predicate IsJobStep(op: Op) {
    op.MarkMissedOp? || op.CompleteEndedOp? || op.CancelUnapprovedOp?
  }

  lemma JobStepOnRow(db: Db, op: Op)
    requires IsJobStep(op) && op.booking < |db.bookings|
    ensures var was, now := db.bookings[op.booking], Step(db, op).bookings[op.booking];
            if OnTime(db, op) then RowStep(was, now) else LateStep(was, now)
  {
  }

  lemma HandlerStepOnRow(db: Db, op: Op)
    requires 0 <= TargetOf(op) < |db.bookings| && !IsJobStep(op)
    ensures RowStep(db.bookings[TargetOf(op)], Step(db, op).bookings[TargetOf(op)])
  {
  }

  /** The booking that a step is about, or -1. */
  function TargetOf(op: Op): int {
    match op
    case RescheduleTo(_, b, _, _, _) => b
    case ConfirmOp(_, b) => b
    case CancelOp(_, b) => b
    case ArriveOp(_, b) => b
    case NoShowOp(_, b, _) => b
    case FinishOp(_, b) => b
    case CheckInOp(_, b) => b
    case CheckOutOp(_, b) => b
    case MarkMissedOp(b) => b
    case CompleteEndedOp(b) => b
    case CancelUnapprovedOp(b) => b
    case PortalMove(_, b, _, _, _) => b
    case _ => -1
  }

  predicate OnlyOnBookings(op: Op) {
    TargetOf(op) >= 0 || op.WalkInNow? || op.ImportRow? || op.MissedQuery? || op.EndedQuery? || op.UnapprovedQuery?
  }

  /** Such a step changes neither the clock nor a hold nor a session. */
  lemma OnlyBookingsChange(db: Db, op: Op)
    requires OnlyOnBookings(op)
    ensures Step(db, op) == db.(bookings := Step(db, op).bookings, picked := Step(db, op).picked)
  {
  }

  /** The row that a walk-in, a completion, a payment or an import appends. */
  predicate Inserted(db: Db, op: Op, b: Booking) {
    match op
    case WalkInNow(t, svc, row, client, start, end) => row.Some? && client.Some?
        && b == WalkInBooking(t, client.value, svc, row.value.venue, start, end)
    case CompleteSession(t, s, pick, mode) => CompletionInserts(db, op) && b == BookingFrom(db, s, pick, mode.value)
    case PaySession(s, pick) => PaymentInserts(db, op)
        && b == BookingFrom(db, s, pick, ServiceMode(false)).(origin := FromPayment(s))
    case ImportRow(t, client, found, start) =>
      client.Some? && found.Some? && b == ImportedBooking(t, client.value, found.value.0, start, found.value.1)
    case _ => false
  }

  // ---------------------------------------------------------------------------
  // No double booking
  // ---------------------------------------------------------------------------

  predicate CompletionInserts(db: Db, op: Op) {
    op.CompleteSession? && Apply(db, op).Done?
  }

  predicate PaymentInserts(db: Db, op: Op) {
    && op.PaySession? && Apply(db, op).Done?
    && MatchingBookings(db, db.sessions[op.session].tenant, db.sessions[op.session].service.value, db.holds[op.pick])
       == {}
  }

  /** The claim of the booking that completing or paying for the session would insert. */
  function SessionClaim(db: Db, op: Op): Claim
    requires CompletionInserts(db, op) || PaymentInserts(db, op)
  {
    var row, hold := db.sessions[op.session], db.holds[op.pick];
    Claim(row.tenant, row.service.value, row.data.staff, hold.start, hold.end)
  }

  predicate ImportInserts(op: Op) {
    op.ImportRow? && op.client.Some? && op.found.Some?
  }

  /** The claim of an imported booking, which names no staff member. */
  function ImportClaim(op: Op): Claim
    requires ImportInserts(op)
  {
    Claim(op.tenant, op.found.value.0, None, op.start, op.start + Minutes(op.found.value.1))
  }

  predicate PortalMoves(db: Db, op: Op) {
    op.PortalMove? && Apply(db, op).Done?
  }

  /** The claim of the booking where the portal moves it. */
  function PortalClaim(db: Db, op: Op): Claim
    requires PortalMoves(db, op)
  {
    BookingClaim(db.bookings[op.booking]).(start := op.start, end := op.end)
  }

  /**
   The check that completion, payment, import and the portal's reschedule do not make in full: that no other occupying
   row of the same tenant, service and staff member (or both of none) overlaps. Every other step needs none beyond its
   own.
   */
  ghost predicate ClaimChecked(db: Db, op: Op) {
    && (CompletionInserts(db, op) ==> Unclaimed(db, SessionClaim(db, op), Some(HoldRow(op.pick))))
    && (PaymentInserts(db, op) ==> Unclaimed(db, SessionClaim(db, op), None))
    && (ImportInserts(op) ==> Unclaimed(db, ImportClaim(op), None))
    && (PortalMoves(db, op) ==> Unclaimed(db, PortalClaim(db, op), Some(BookingRow(op.booking))))
  }

  lemma CompletionSafeIff(db: Db, op: Op)
    requires NoDoubleBooking(db) && CompletionInserts(db, op)
    ensures NoDoubleBooking(Step(db, op)) <==> Unclaimed(db, SessionClaim(db, op), Some(HoldRow(op.pick)))
  {
    ClaimingKeepsSafetyIff(db, Step(db, op), BookingRow(|db.bookings|), SessionClaim(db, op), Some(HoldRow(op.pick)));
  }

  /**
   The two conflict queries for the booking that a completion inserts come back empty once its own hold is set aside.
   */
  predicate QueriesEmpty(db: Db, op: Op)
    requires CompletionInserts(db, op)
  {
    var others := db.(holds := db.holds[op.pick := db.holds[op.pick].(status := Released)]);
    !HoldConflict(others, SessionClaim(db, op)) && !BookingConflict(others, SessionClaim(db, op), None)
  }

  /**
   Making those queries would keep completion safe; for a session that names a staff member they ask for exactly what
   is needed, for one that names nobody they also refuse beside other people's bookings.
   */
  lemma EmptyQueriesSuffice(db: Db, op: Op)
    requires CompletionInserts(db, op)
    ensures QueriesEmpty(db, op) ==> Unclaimed(db, SessionClaim(db, op), Some(HoldRow(op.pick)))
    ensures SessionClaim(db, op).staff.Some? ==>
              (QueriesEmpty(db, op) <==> Unclaimed(db, SessionClaim(db, op), Some(HoldRow(op.pick))))
  {
    var q := SessionClaim(db, op);
    var others := db.(holds := db.holds[op.pick := db.holds[op.pick].(status := Released)]);
    QueriesFindConflictsIff(others, q, None);
    forall o ensures Occupies(others, o) <==> Occupies(db, o) && Some(o) != Some(HoldRow(op.pick)) {
    }
    if QueriesEmpty(db, op) {
      forall o | Occupies(db, o) && o != HoldRow(op.pick) ensures !Clash(ClaimOf(db, o), q) {
        assert Occupies(others, o) && !Conflicts(q, ClaimOf(others, o));
      }
    } else if q.staff.Some? {
      var o :| Occupies(others, o) && Conflicts(q, ClaimOf(others, o));
      assert Occupies(db, o) && Clash(ClaimOf(db, o), q);
    }
  }

  lemma PaymentSafeIff(db: Db, op: Op)
    requires NoDoubleBooking(db) && PaymentInserts(db, op)
    ensures NoDoubleBooking(Step(db, op)) <==> Unclaimed(db, SessionClaim(db, op), None)
  {
    ClaimingKeepsSafetyIff(db, Step(db, op), BookingRow(|db.bookings|), SessionClaim(db, op), None);
  }

  lemma ImportSafeIff(db: Db, op: Op)
    requires NoDoubleBooking(db) && ImportInserts(op)
    ensures NoDoubleBooking(Step(db, op)) <==> Unclaimed(db, ImportClaim(op), None)
  {
    ClaimingKeepsSafetyIff(db, Step(db, op), BookingRow(|db.bookings|), ImportClaim(op), None);
  }

  lemma PortalSafeIff(db: Db, op: Op)
    requires NoDoubleBooking(db) && PortalMoves(db, op)
    ensures NoDoubleBooking(Step(db, op)) <==> Unclaimed(db, PortalClaim(db, op), Some(BookingRow(op.booking)))
  {
    var b := op.booking;
    ClaimingKeepsSafetyIff(db, Step(db, op), BookingRow(b), PortalClaim(db, op), Some(BookingRow(b)));
  }

  /** The portal asks the bookings and not the holds, so holds are what is left to clash with. */
  lemma PortalMissesHolds(db: Db, op: Op)
    requires PortalMoves(db, op)
    ensures Unclaimed(db, PortalClaim(db, op), Some(BookingRow(op.booking)))
            <==> forall h: nat :: Occupies(db, HoldRow(h)) ==> !Clash(HoldClaim(db.holds[h]), PortalClaim(db, op))
  {
    var c, q := PortalClaim(db, op), RescheduleQuery(db.bookings[op.booking], op.start, op.end);
    forall b: nat | Occupies(db, BookingRow(b)) && b != op.booking ensures !Clash(ClaimOf(db, BookingRow(b)), c) {
      assert !Conflicts(q, BookingClaim(db.bookings[b]));
    }
    if Unclaimed(db, c, Some(BookingRow(op.booking))) {
      forall h: nat | Occupies(db, HoldRow(h)) ensures !Clash(HoldClaim(db.holds[h]), c) {
        assert !Clash(ClaimOf(db, HoldRow(h)), c);
      }
    }
  }

  lemma RescheduleSafe(db: Db, op: Op)
    requires NoDoubleBooking(db) && op.RescheduleTo?
    ensures NoDoubleBooking(Step(db, op))
  {
    if Apply(db, op).Done? {
      var row := db.bookings[op.booking];
      var q := RescheduleQuery(row, op.start, op.end);
      QueriesFindConflictsIff(db, q, Some(op.booking));
      var c := q.(staff := row.staff);
      forall o | Occupies(db, o) && o != BookingRow(op.booking) ensures !Clash(ClaimOf(db, o), c) {
        assert !Conflicts(q, ClaimOf(db, o));
      }
      ClaimingKeepsSafetyIff(db, Step(db, op), BookingRow(op.booking), c, Some(BookingRow(op.booking)));
    }
  }

  lemma WalkInSafe(db: Db, op: Op)
    requires NoDoubleBooking(db) && op.WalkInNow?
    ensures NoDoubleBooking(Step(db, op))
  {
    if Apply(db, op).Done? {
      var q := Claim(op.tenant, op.service, None, op.start, op.end);
      QueriesFindEveryClash(db, q, None);
      ClaimingKeepsSafetyIff(db, Step(db, op), BookingRow(|db.bookings|), q, None);
    }
  }

  /** Every step of a booking's status or check-in, late job transactions included, only lets time go. */
  lemma BookingStepsOnlyFree(db: Db, op: Op)
    requires TargetOf(op) >= 0 && !op.RescheduleTo? && !PortalMoves(db, op)
    ensures OnlyFrees(db, Step(db, op))
  {
    var db' := Step(db, op);
    OnlyBookingsChange(db, op);
    StepChangesRows(db, op);
    forall b: nat | Occupies(db', BookingRow(b)) ensures Occupies(db, BookingRow(b)) {
      assert RowStep(db.bookings[b], db'.bookings[b]) || LateStep(db.bookings[b], db'.bookings[b]);
    }
  }

  lemma OtherStepsOnlyFree(db: Db, op: Op)
    requires !CompletionInserts(db, op) && !PaymentInserts(db, op) && !ImportInserts(op)
    requires !op.ReserveSlot? && !op.WalkInNow? && TargetOf(op) < 0
    ensures OnlyFrees(db, Step(db, op))
  {
  }

  /** One step of any handler keeps the tables free of double bookings exactly when its claim was checked. */
  lemma StepSafeIff(db: Db, op: Op)
    requires NoDoubleBooking(db)
    ensures NoDoubleBooking(Step(db, op)) <==> ClaimChecked(db, op)
  {
    if CompletionInserts(db, op) {
      CompletionSafeIff(db, op);
    } else if PaymentInserts(db, op) {
      PaymentSafeIff(db, op);
    } else if ImportInserts(op) {
      ImportSafeIff(db, op);
    } else if PortalMoves(db, op) {
      PortalSafeIff(db, op);
    } else {
      CheckingStepSafe(db, op);
    }
  }

  /** The steps that make all the checks they need. */
  lemma CheckingStepSafe(db: Db, op: Op)
    requires NoDoubleBooking(db)
    requires !CompletionInserts(db, op) && !PaymentInserts(db, op) && !ImportInserts(op) && !PortalMoves(db, op)
    ensures NoDoubleBooking(Step(db, op))
  {
    if op.ReserveSlot? {
      ReserveKeepsSafety(db, op.params);
    } else if op.RescheduleTo? {
      RescheduleSafe(db, op);
    } else if op.WalkInNow? {
      WalkInSafe(db, op);
    } else {
      if TargetOf(op) >= 0 {
        BookingStepsOnlyFree(db, op);
      } else {
        OtherStepsOnlyFree(db, op);
      }
      FreeingKeepsSafety(db, Step(db, op));
    }
  }

  /** Every state of the run, the first and the last included, is free of double bookings. */
  ghost predicate SafeThroughout(db: Db, ops: seq<Op>)
    decreases |ops|
  {
    NoDoubleBooking(db) && (ops != [] ==> SafeThroughout(Step(db, ops[0]), ops[1..]))
  }

  ghost predicate AllClaimsChecked(db: Db, ops: seq<Op>)
    decreases |ops|
  {
    ops != [] ==> ClaimChecked(db, ops[0]) && AllClaimsChecked(Step(db, ops[0]), ops[1..])
  }

  /**
   Over every run of every handler: no state double-books if and only if at every completion, payment, import and
   portal reschedule on the way no other occupying row of the same tenant, service and staff member (or both of none)
   overlapped.
   */
  lemma {:induction false} SafetyIff(db: Db, ops: seq<Op>)
    requires NoDoubleBooking(db)
    ensures SafeThroughout(db, ops) <==> AllClaimsChecked(db, ops)
    decreases |ops|
  {
    if ops == [] {
    } else {
      StepSafeIff(db, ops[0]);
      if ClaimChecked(db, ops[0]) {
        SafetyIff(Step(db, ops[0]), ops[1..]);
      }
    }
  }

  /** The session still has the service and staff member its hold was reserved for. */
  predicate SessionMatchesHold(db: Db, op: Op)
    requires CompletionInserts(db, op) || PaymentInserts(db, op)
  {
    SessionClaim(db, op) == HoldClaim(db.holds[op.pick])
  }

  /**
   A run without payments, imports and portal reschedules in which each session that completes still matches its hold.
   */
  predicate Matched(db: Db, ops: seq<Op>)
    decreases |ops|
  {
    ops != [] ==>
      && !ops[0].PaySession? && !ops[0].ImportRow? && !ops[0].PortalMove?
      && (CompletionInserts(db, ops[0]) ==> SessionMatchesHold(db, ops[0]))
      && Matched(Step(db, ops[0]), ops[1..])
  }

  /** Such a run never double-books: the hold itself has kept the slot for the booking. */
  lemma {:induction false} MatchedRunsAreSafe(db: Db, ops: seq<Op>)
    requires NoDoubleBooking(db) && Matched(db, ops)
    ensures SafeThroughout(db, ops)
    decreases |ops|
  {
    if ops == [] {
    } else {
      if CompletionInserts(db, ops[0]) {
        assert Occupies(db, HoldRow(ops[0].pick));
      }
      StepSafeIff(db, ops[0]);
      MatchedRunsAreSafe(Step(db, ops[0]), ops[1..]);
    }
  }

  /** A payment that inserts a booking for a session matching its hold always double-books: the hold is still there. */
  lemma PaymentDoubleBooks(db: Db, op: Op)
    requires NoDoubleBooking(db) && PaymentInserts(db, op) && SessionMatchesHold(db, op)
    requires db.holds[op.pick].start < db.holds[op.pick].end
    ensures !NoDoubleBooking(Step(db, op))
  {
    StepSafeIff(db, op);
    assert Occupies(db, HoldRow(op.pick)) && Clash(ClaimOf(db, HoldRow(op.pick)), SessionClaim(db, op));
  }

  /** Open a session for a known client, hold a time, pay. */
  function PaidRun(): seq<Op> {
    [OpenSession(0, Some(1)),
     EditSession(0, 0, Patch(None, Some(Some(8)), None, None)),
     ReserveSlot(ReserveParams(0, 1, None, None, 0, 60)),
     PaySession(0, 0)]
  }

  /** The tables before the payment. */
  function UnpaidTables(): Db {
    Db(0,
       [Hold(0, 0, 1, None, None, 0, 60, HOLD_MS, Held)],
       [Session(0, Some(1), None, SessionData(Some(8), None, None), SessionInProgress, None)],
       [],
       Picked({}, {}, {}))
  }

  lemma UnpaidReached()
    ensures var ops := PaidRun(); Step(Step(Step(Empty(0), ops[0]), ops[1]), ops[2]) == UnpaidTables()
  {
    var ops, d3 := PaidRun(), UnpaidTables();
    var asOpened := Session(0, Some(1), None, SessionData(None, None, None), SessionInProgress, None);
    assert Step(Empty(0), ops[0]) == Empty(0).(sessions := [asOpened]);
    assert Step(Empty(0).(sessions := [asOpened]), ops[1]) == d3.(holds := []);
    assert Step(d3.(holds := []), ops[2]) == d3;
  }

  /** That payment double-books: the hold it was made for still occupies the time. */
  lemma PaidTwice()
    ensures var ops := PaidRun();
            var unpaid := Step(Step(Step(Empty(0), ops[0]), ops[1]), ops[2]);
            NoDoubleBooking(unpaid) && !NoDoubleBooking(Step(unpaid, ops[3]))
  {
    var d := UnpaidTables();
    UnpaidReached();
    assert forall o :: Occupies(d, o) ==> o == HoldRow(0);
    assert 0 in ActiveHoldsOf(d, 0, 0);
    assert PaymentInserts(d, PaidRun()[3]);
    PaymentDoubleBooks(d, PaidRun()[3]);
  }

  /** Importing the same row twice double-books. */
  lemma ImportedTwice(now: int)
    ensures var row := ImportRow(0, Some(8), Some((1, 60)), 0);
            NoDoubleBooking(Step(Empty(now), row)) && !NoDoubleBooking(Step(Step(Empty(now), row), row))
  {
    var row := ImportRow(0, Some(8), Some((1, 60)), 0);
    var once := Step(Empty(now), row);
    assert once.bookings == [ImportedBooking(0, 8, 1, 0, 60)] && once.holds == [];
    assert forall o :: Occupies(once, o) ==> o == BookingRow(0);
    ImportClashes(once, row, BookingRow(0));
  }

  lemma ImportClashes(db: Db, row: Op, o: Occupier)
    requires NoDoubleBooking(db) && ImportInserts(row) && Occupies(db, o) && Clash(ClaimOf(db, o), ImportClaim(row))
    ensures !NoDoubleBooking(Step(db, row))
  {
    ImportSafeIff(db, row);
  }

  /** Walk in on service 2, hold the same time on service 1, move the session to service 2, complete it. */
  function SwitchedServiceRun(): seq<Op> {
    [WalkInNow(0, 2, Some(WalkInService(None)), Some(7), 0, 60),
     OpenSession(0, Some(1)),
     ReserveSlot(ReserveParams(0, 1, None, None, 0, 60)),
     EditSession(0, 0, Patch(Some(2), Some(Some(8)), None, None)),
     CompleteSession(0, 0, 0, Some(ServiceMode(true)))]
  }

  /** The tables when that run reaches its completion. */
  function SwitchedServiceTables(): Db {
    Db(0,
       [Hold(0, 0, 1, None, None, 0, 60, HOLD_MS, Held)],
       [Session(0, Some(2), None, SessionData(Some(8), None, None), SessionInProgress, None)],
       [WalkInBooking(0, 7, 2, None, 0, 60)],
       Picked({}, {}, {}))
  }

  lemma SwitchedServiceReached(ops: seq<Op>)
    requires ops == SwitchedServiceRun()
    ensures Step(Step(Step(Step(Empty(0), ops[0]), ops[1]), ops[2]), ops[3]) == SwitchedServiceTables()
  {
    var d4 := SwitchedServiceTables();
    assert Step(Empty(0), ops[0]) == d4.(holds := [], sessions := []);
    var asOpened := Session(0, Some(1), None, SessionData(None, None, None), SessionInProgress, None);
    assert Step(d4.(holds := [], sessions := []), ops[1]) == d4.(holds := [], sessions := [asOpened]);
    SwitchedServiceReserves();
    assert Step(d4.(sessions := [asOpened]), ops[3]) == d4;
  }

  /** The walk-in on the other service is in nobody's way. */
  lemma SwitchedServiceReserves()
    ensures var d4 := SwitchedServiceTables();
            var asOpened := Session(0, Some(1), None, SessionData(None, None, None), SessionInProgress, None);
            Step(d4.(holds := [], sessions := [asOpened]), ReserveSlot(ReserveParams(0, 1, None, None, 0, 60)))
            == d4.(sessions := [asOpened])
  {
  }

  /**
   Completion really needs the check it leaves out: this run, without any payment, ends with two bookings of service
   2.
   */
  lemma CompletionCanDoubleBook()
    ensures !SafeThroughout(Empty(0), SwitchedServiceRun())
  {
    var ops := SwitchedServiceRun();
    SwitchedServiceReached(ops);
    var d4 := SwitchedServiceTables();
    var complete := ops[4];
    assert 0 in ActiveHoldsOf(d4, 0, 0);
    assert CompletionInserts(d4, complete);
    assert Occupies(d4, BookingRow(0)) && Clash(ClaimOf(d4, BookingRow(0)), SessionClaim(d4, complete));
    assert !ClaimChecked(d4, complete);
    assert ops[1..][1..] == ops[2..] && ops[2..][1..] == ops[3..] && ops[3..][1..] == ops[4..];
    assert !AllClaimsChecked(d4, ops[4..]);
    assert !AllClaimsChecked(Step(Step(Step(Empty(0), ops[0]), ops[1]), ops[2]), ops[3..]);
    assert !AllClaimsChecked(Step(Step(Empty(0), ops[0]), ops[1]), ops[2..]);
    assert !AllClaimsChecked(Step(Empty(0), ops[0]), ops[1..]);
    SafetyIff(Empty(0), ops);
  }
}
