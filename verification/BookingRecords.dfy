/** What a booking row and its history keep over every run. */
module BookingRecords {
  import opened Tables
  import opened Reservations
  import opened Sessions
  import opened Bookings
  import opened Jobs
  import opened Portal
  import opened Protocol

  // ---------------------------------------------------------------------------
  // The record of a booking
  // ---------------------------------------------------------------------------

  ghost predicate AllConsistent(db: Db) {
    forall b :: 0 <= b < |db.bookings| ==> Consistent(db.bookings[b])
  }

  /** The booking has, or once had, the status. */
  predicate HasBeen(b: Booking, status: BookingStatus) {
    b.status == status || exists i :: 0 <= i < |b.history| && b.history[i].from == status
  }

  /** What a job's query has picked had the status it asked for. */
  ghost predicate PicksWereTrue(db: Db) {
    && (forall b :: b in db.picked.ended ==> b < |db.bookings| && HasBeen(db.bookings[b], Confirmed))
    && (forall b :: b in db.picked.unapproved ==> b < |db.bookings| && HasBeen(db.bookings[b], Pending))
  }

  lemma InsertedIsConsistent(db: Db, op: Op, b: Booking)
    requires Inserted(db, op, b)
    ensures Consistent(b)
  {
    if op.WalkInNow? {
      assert b.history[..|b.history| - 1] == [];
    }
  }

  lemma RowStepKeepsConsistency(was: Booking, now: Booking)
    requires Consistent(was) && RowStep(was, now)
    ensures Consistent(now)
  {
    if now.history != was.history {
      RecordingStepKeepsConsistency(was, now);
    }
  }

  lemma RecordingStepKeepsConsistency(was: Booking, now: Booking)
    requires Consistent(was) && RowStep(was, now) && now.history != was.history
    ensures Consistent(now)
  {
    var m := Moved(was, now.status);
    assert AllowedEdge(HistoryEntry(was.status, now.status)) && now.history == m.history;
    MovedIsConsistent(was, now.status);
    SameRecord(m, now);
  }

  /** The record's edges and statuses are those of its history and status. */
  lemma SameRecord(m: Booking, now: Booking)
    requires now.history == m.history && m.history != []
    ensures Initial(now) == Initial(m)
  {
  }

  lemma RowStepRemembers(was: Booking, now: Booking, status: BookingStatus)
    requires RowStep(was, now) && HasBeen(was, status)
    ensures HasBeen(now, status)
  {
    if was.status == status {
      assert now.status == status || now.history[|was.history|].from == status;
    } else {
      var i :| 0 <= i < |was.history| && was.history[i].from == status;
      assert now.history[i] == was.history[i];
    }
  }

  /** An entry that does not start where the history had ended spoils the record. */
  lemma LateEntrySpoils(was: Booking, now: Booking, e: HistoryEntry)
    requires Consistent(was) && HasBeen(was, e.from) && was.status != e.from
    requires now.history == was.history + [e]
    ensures !Consistent(now)
  {
    assert now.history[..|now.history| - 1] == was.history;
    assert Initial(now) == Initial(was);
  }

  /** A step keeps every record consistent exactly when a job's transaction is not too late for its booking. */
  lemma StepConsistentIff(db: Db, op: Op)
    requires AllConsistent(db) && PicksWereTrue(db)
    ensures AllConsistent(Step(db, op)) <==> OnTime(db, op)
    ensures OnTime(db, op) ==> PicksWereTrue(Step(db, op))
  {
    var db' := Step(db, op);
    StepChangesRows(db, op);
    if OnTime(db, op) {
      forall b | 0 <= b < |db'.bookings| ensures Consistent(db'.bookings[b]) {
        if b < |db.bookings| {
          RowStepKeepsConsistency(db.bookings[b], db'.bookings[b]);
        } else {
          InsertedIsConsistent(db, op, db'.bookings[b]);
        }
      }
      StepKeepsPicks(db, op);
    } else {
      var e := if op.CompleteEndedOp? then HistoryEntry(Confirmed, Completed) else HistoryEntry(Pending, Cancelled);
      LateEntrySpoils(db.bookings[op.booking], db'.bookings[op.booking], e);
    }
  }

  lemma StepPicks(db: Db, op: Op, b: Id)
    ensures b in Step(db, op).picked.ended
            ==> b in db.picked.ended || (b < |db.bookings| && db.bookings[b].status == Confirmed)
    ensures b in Step(db, op).picked.unapproved
            ==> b in db.picked.unapproved || (b < |db.bookings| && db.bookings[b].status == Pending)
  {
  }

  lemma StepRemembers(db: Db, op: Op, b: Id, status: BookingStatus)
    requires b < |db.bookings| && HasBeen(db.bookings[b], status) && OnTime(db, op)
    ensures b < |Step(db, op).bookings| && HasBeen(Step(db, op).bookings[b], status)
  {
    StepChangesRows(db, op);
    RowStepRemembers(db.bookings[b], Step(db, op).bookings[b], status);
  }

  lemma StepKeepsPicks(db: Db, op: Op)
    requires PicksWereTrue(db) && OnTime(db, op)
    ensures PicksWereTrue(Step(db, op))
  {
    var db' := Step(db, op);
    forall b | b in db'.picked.ended ensures b < |db'.bookings| && HasBeen(db'.bookings[b], Confirmed) {
      StepPicks(db, op, b);
      StepRemembers(db, op, b, Confirmed);
    }
    forall b | b in db'.picked.unapproved ensures b < |db'.bookings| && HasBeen(db'.bookings[b], Pending) {
      StepPicks(db, op, b);
      StepRemembers(db, op, b, Pending);
    }
  }

  /** Every record is consistent in every state of the run. */
  ghost predicate ConsistentThroughout(db: Db, ops: seq<Op>)
    decreases |ops|
  {
    AllConsistent(db) && (ops != [] ==> ConsistentThroughout(Step(db, ops[0]), ops[1..]))
  }

  predicate AllOnTime(db: Db, ops: seq<Op>)
    decreases |ops|
  {
    ops != [] ==> OnTime(db, ops[0]) && AllOnTime(Step(db, ops[0]), ops[1..])
  }

  /**
   Over every run, from empty tables for instance, each booking's history replays to its status and counters in every
   state exactly when every job's transaction finds the status its query asked for.
   */
  lemma {:induction false} RunConsistentIff(db: Db, ops: seq<Op>)
    requires AllConsistent(db) && PicksWereTrue(db)
    ensures ConsistentThroughout(db, ops) <==> AllOnTime(db, ops)
    decreases |ops|
  {
    if ops == [] {
    } else {
      StepConsistentIff(db, ops[0]);
      if OnTime(db, ops[0]) {
        RunConsistentIff(Step(db, ops[0]), ops[1..]);
      }
    }
  }

  lemma ApprovedRow(db: Db, tenant: Id, b: Id)
    requires BookingFound(db, tenant, b) && db.bookings[b].status == Pending
    ensures Step(db, ConfirmOp(tenant, b)) == db.(bookings := db.bookings[b := Moved(db.bookings[b], Confirmed)])
  {
  }

  /**
   It is not always so: a booking approved between the job's query and its transaction is cancelled, and its record
   spoilt.
   */
  lemma ApprovedThenCancelled(db: Db, tenant: Id, b: Id)
    requires AllConsistent(db) && PicksWereTrue(db) && BookingFound(db, tenant, b)
    requires b in db.picked.unapproved && db.bookings[b].status == Pending
    ensures var approved := Step(db, ConfirmOp(tenant, b));
            var late := Step(approved, CancelUnapprovedOp(b));
            && approved.bookings[b].status == Confirmed && late.bookings[b].status == Cancelled
            && AllConsistent(approved) && !AllConsistent(late)
  {
    var approved := Step(db, ConfirmOp(tenant, b));
    ApprovedRow(db, tenant, b);
    StepConsistentIff(db, ConfirmOp(tenant, b));
    assert !OnTime(approved, CancelUnapprovedOp(b));
    StepConsistentIff(approved, CancelUnapprovedOp(b));
  }

  /** The day a booking was created for, as far as its row shows it. */
  function CreationDay(b: Booking): int {
    if b.originalDate.Some? then b.originalDate.value else DayOf(b.start)
  }

  /** How a row may change: identity stays, times move only with a self-loop in the history, and history only grows. */
  ghost predicate Evolves(was: Booking, now: Booking) {
    && now.tenant == was.tenant && now.client == was.client && now.service == was.service
    && now.venue == was.venue && now.staff == was.staff && now.origin == was.origin
    && was.history <= now.history
    && was.rescheduleCount <= now.rescheduleCount
    && SelfLoops(was.history) <= SelfLoops(now.history)
    && (SelfLoops(was.history) == SelfLoops(now.history) ==> now.start == was.start && now.end == was.end)
    && (was.originalDate.Some? ==> now.originalDate == was.originalDate)
  }

  lemma StepEvolves(db: Db, op: Op, b: Id)
    requires b < |db.bookings|
    ensures b < |Step(db, op).bookings| && Evolves(db.bookings[b], Step(db, op).bookings[b])
  {
    StepChangesRows(db, op);
    RowEvolves(db.bookings[b], Step(db, op).bookings[b]);
  }

  lemma RowEvolves(was: Booking, now: Booking)
    requires RowStep(was, now) || LateStep(was, now)
    ensures Evolves(was, now)
  {
    if now.history != was.history {
      SelfLoopsOfMore(was.history, now.history[|was.history|]);
    }
  }

  /**
   Over every run, late job transactions included: no history entry is lost and a booking stays what it was made for.
   */
  lemma {:induction false} RunEvolves(db: Db, ops: seq<Op>, b: Id)
    requires b < |db.bookings|
    ensures b < |Run(db, ops).bookings| && Evolves(db.bookings[b], Run(db, ops).bookings[b])
    decreases |ops|
  {
    if ops == [] {
    } else {
      StepEvolves(db, ops[0], b);
      RunEvolves(Step(db, ops[0]), ops[1..], b);
    }
  }

  /** The portal moves the booking. */
  predicate Rebooks(db: Db, op: Op, b: Id)
    requires b < |db.bookings|
  {
    PortalMoves(db, op) && op.booking == b
  }

  /**
   A step changes the creation day as the row shows it exactly when the portal first moves the booking, to another
   day.
   */
  lemma CreationDayStaysIff(db: Db, op: Op, b: Id)
    requires b < |db.bookings|
    ensures b < |Step(db, op).bookings|
    ensures CreationDay(Step(db, op).bookings[b]) == CreationDay(db.bookings[b])
            <==> !(Rebooks(db, op, b) && db.bookings[b].originalDate.None?
                 && DayOf(op.start) != DayOf(db.bookings[b].start))
  {
    StepChangesRows(db, op);
    if Rebooks(db, op, b) {
      assert Step(db, op).bookings[b] == PortalMoved(db.bookings[b], op.start, op.end);
    } else {
      RebooksIff(db, op, b);
      UnlessRebooked(db.bookings[b], Step(db, op).bookings[b]);
    }
  }

  lemma UnlessRebooked(was: Booking, now: Booking)
    requires RowStep(was, now) || LateStep(was, now)
    requires !MovesUncounted(was, now)
    ensures CreationDay(now) == CreationDay(was)
  {
  }

  /** The counter counts every recorded move. */
  predicate CountsEveryMove(b: Booking) {
    SelfLoops(b.history) == b.rescheduleCount
  }

  lemma StepCountsIff(db: Db, op: Op, b: Id)
    requires b < |db.bookings| && CountsEveryMove(db.bookings[b])
    ensures b < |Step(db, op).bookings|
    ensures CountsEveryMove(Step(db, op).bookings[b]) <==> !Rebooks(db, op, b)
  {
    StepChangesRows(db, op);
    RebooksIff(db, op, b);
    RowCountsIff(db.bookings[b], Step(db, op).bookings[b]);
  }

  /** The row's move is in its history and not in its counter. */
  predicate MovesUncounted(was: Booking, now: Booking) {
    && |now.history| > |was.history| && IsSelfLoop(now.history[|was.history|])
    && now.rescheduleCount == was.rescheduleCount
  }

  lemma RebooksIff(db: Db, op: Op, b: Id)
    requires b < |db.bookings|
    ensures b < |Step(db, op).bookings|
    ensures Rebooks(db, op, b) <==> MovesUncounted(db.bookings[b], Step(db, op).bookings[b])
  {
    StepChangesRows(db, op);
  }

  lemma RowCountsIff(was: Booking, now: Booking)
    requires CountsEveryMove(was) && (RowStep(was, now) || LateStep(was, now))
    ensures CountsEveryMove(now) <==> !MovesUncounted(was, now)
  {
    if now.history != was.history {
      SelfLoopsOfMore(was.history, now.history[|was.history|]);
    }
  }

  ghost predicate CountsThroughout(db: Db, ops: seq<Op>, b: Id)
    decreases |ops|
  {
    b < |db.bookings| && CountsEveryMove(db.bookings[b])
        && (ops != [] ==> CountsThroughout(Step(db, ops[0]), ops[1..], b))
  }

  ghost predicate NeverRebooked(db: Db, ops: seq<Op>, b: Id)
    decreases |ops|
  {
    b < |db.bookings| && (ops != [] ==> !Rebooks(db, ops[0], b) && NeverRebooked(Step(db, ops[0]), ops[1..], b))
  }

  /**
   Over every run: a booking's counter counts all its recorded moves in every state exactly when the portal never moves
   it, and then its creation day never changes either.
   */
  lemma {:induction false} CountsThroughoutIff(db: Db, ops: seq<Op>, b: Id)
    requires b < |db.bookings| && CountsEveryMove(db.bookings[b])
    ensures CountsThroughout(db, ops, b) <==> NeverRebooked(db, ops, b)
    ensures NeverRebooked(db, ops, b) ==>
              b < |Run(db, ops).bookings| && CreationDay(Run(db, ops).bookings[b]) == CreationDay(db.bookings[b])
    decreases |ops|
  {
    if ops == [] {
    } else {
      StepCountsIff(db, ops[0], b);
      CreationDayStaysIff(db, ops[0], b);
      if !Rebooks(db, ops[0], b) {
        CountsThroughoutIff(Step(db, ops[0]), ops[1..], b);
      }
    }
  }

  // ---------------------------------------------------------------------------
  // Which step moves a booking where
  // ---------------------------------------------------------------------------

  /** The status a request asks for and the booking it asks it of. */
  function Wish(op: Op): Option<(Id, Id, BookingStatus)> {
    match op
    case ConfirmOp(t, b) => Some((t, b, Confirmed))
    case CancelOp(t, b) => Some((t, b, Cancelled))
    case ArriveOp(t, b) => Some((t, b, InProgress))
    case NoShowOp(t, b, _) => Some((t, b, NoShow))
    case FinishOp(t, b) => Some((t, b, Completed))
    case _ => None
  }

  /** The moves of a booking's life, the shortcut from CONFIRMED to COMPLETED among them. */
  const MOVES: set<(BookingStatus, BookingStatus)> :=
    {(Pending, Confirmed), (Pending, Cancelled), (Confirmed, InProgress), (Confirmed, Cancelled), (Confirmed, NoShow),
     (Confirmed, Completed), (InProgress, Completed), (InProgress, Cancelled)}

  /** A no-show waits for the grace period after the end, or without one for the start. */
  predicate WaitedLongEnough(op: Op, b: Booking, now: int) {
    op.NoShowOp? ==>
      if op.grace.Some? && op.grace.value > 0 then now - b.end >= Minutes(op.grace.value) else now >= b.start
  }

  /** A request asks a booking, in its tenant and in time, for one of the moves. */
  predicate RequestsMove(db: Db, op: Op, b: Id, to: BookingStatus)
    requires b < |db.bookings|
  {
    && Wish(op) == Some((db.bookings[b].tenant, b, to))
    && (db.bookings[b].status, to) in MOVES && WaitedLongEnough(op, db.bookings[b], db.now)
  }

  /** A job's transaction completes a confirmed booking it has picked, or cancels one whatever its status. */
  predicate JobMoves(db: Db, op: Op, b: Id, to: BookingStatus)
    requires b < |db.bookings|
  {
    || (op == CompleteEndedOp(b) && b in db.picked.ended && db.bookings[b].status == Confirmed && to == Completed)
    || (op == CancelUnapprovedOp(b) && b in db.picked.unapproved && db.bookings[b].status != Cancelled
          && to == Cancelled)
  }

  lemma RequestOutcome(db: Db, op: Op, b: Id)
    requires b < |db.bookings| && Wish(op).Some?
    ensures b < |Step(db, op).bookings|
    ensures Step(db, op).bookings[b].status ==
            if RequestsMove(db, op, b, Wish(op).value.2) then Wish(op).value.2 else db.bookings[b].status
  {
  }

  lemma JobOutcome(db: Db, op: Op, b: Id)
    requires b < |db.bookings| && Wish(op).None?
    ensures b < |Step(db, op).bookings|
    ensures Step(db, op).bookings[b].status ==
            if JobMoves(db, op, b, Completed) then Completed
            else if JobMoves(db, op, b, Cancelled) then Cancelled
            else db.bookings[b].status
  {
    if IsJobStep(op) {
      JobStepOutcome(db, op, b);
    } else {
      SameStatus(db, op, b);
    }
  }

  lemma JobStepOutcome(db: Db, op: Op, b: Id)
    requires b < |db.bookings| && IsJobStep(op)
    ensures b < |Step(db, op).bookings|
    ensures Step(db, op).bookings[b].status ==
            if JobMoves(db, op, b, Completed) then Completed
            else if JobMoves(db, op, b, Cancelled) then Cancelled
            else db.bookings[b].status
  {
  }

  lemma SameStatus(db: Db, op: Op, b: Id)
    requires b < |db.bookings| && Wish(op).None? && !IsJobStep(op)
    ensures b < |Step(db, op).bookings| && Step(db, op).bookings[b].status == db.bookings[b].status
  {
  }

  /**
   A step changes the status of a booking exactly when a request asks it for one of the moves or a job has picked it.
   */
  lemma StatusChangesIff(db: Db, op: Op, b: Id, to: BookingStatus)
    requires b < |db.bookings|
    ensures b < |Step(db, op).bookings|
    ensures to != db.bookings[b].status ==>
              (Step(db, op).bookings[b].status == to <==> RequestsMove(db, op, b, to) || JobMoves(db, op, b, to))
  {
    if Wish(op).Some? {
      RequestOutcome(db, op, b);
    } else {
      JobOutcome(db, op, b);
    }
  }

  // ---------------------------------------------------------------------------
  // Terminal statuses
  // ---------------------------------------------------------------------------

  /** The approval job cancels a COMPLETED or NO_SHOW booking that was pending when its query picked it. */
  predicate CancelledLate(db: Db, op: Op, b: Id)
    requires b < |db.bookings|
  {
    && op == CancelUnapprovedOp(b) && b in db.picked.unapproved
    && (db.bookings[b].status == Completed || db.bookings[b].status == NoShow)
  }

  lemma StepLeavesTerminalIff(db: Db, op: Op, b: Id)
    requires b < |db.bookings| && Terminal(db.bookings[b].status)
    ensures b < |Step(db, op).bookings|
    ensures Step(db, op).bookings[b].status != db.bookings[b].status <==> CancelledLate(db, op, b)
  {
    if Wish(op).Some? {
      RequestOutcome(db, op, b);
    } else {
      JobOutcome(db, op, b);
    }
  }

  ghost predicate StatusStays(db: Db, ops: seq<Op>, b: Id, status: BookingStatus)
    decreases |ops|
  {
    b < |db.bookings| && db.bookings[b].status == status
        && (ops != [] ==> StatusStays(Step(db, ops[0]), ops[1..], b, status))
  }

  ghost predicate NeverCancelledLate(db: Db, ops: seq<Op>, b: Id)
    decreases |ops|
  {
    && b < |db.bookings|
    && (ops != [] ==> !CancelledLate(db, ops[0], b) && NeverCancelledLate(Step(db, ops[0]), ops[1..], b))
  }

  /**
   Over every run: a booking stays CANCELLED, COMPLETED or NO_SHOW exactly when the approval job never cancels it too
   late.
   */
  lemma {:induction false} TerminalStaysIff(db: Db, ops: seq<Op>, b: Id)
    requires b < |db.bookings| && Terminal(db.bookings[b].status)
    ensures StatusStays(db, ops, b, db.bookings[b].status) <==> NeverCancelledLate(db, ops, b)
    decreases |ops|
  {
    if ops == [] {
    } else {
      StepLeavesTerminalIff(db, ops[0], b);
      if !CancelledLate(db, ops[0], b) {
        TerminalStaysIff(Step(db, ops[0]), ops[1..], b);
      }
    }
  }

  /** One of the two jobs writes the booking. */
  predicate JobWrites(db: Db, op: Op, b: Id)
    requires b < |db.bookings|
  {
    (op == CompleteEndedOp(b) && b in db.picked.ended) || (op == CancelUnapprovedOp(b) && b in db.picked.unapproved)
  }

  lemma StepKeepsTerminalIff(db: Db, op: Op, b: Id)
    requires b < |db.bookings| && Terminal(db.bookings[b].status)
    ensures b < |Step(db, op).bookings|
    ensures var was, now := db.bookings[b], Step(db, op).bookings[b];
            now == was.(checkIn := now.checkIn) <==> !JobWrites(db, op, b)
  {
    if JobWrites(db, op, b) {
      var was, now := db.bookings[b], Step(db, op).bookings[b];
      assert |now.history| == |was.history| + 1;
    } else {
      StepChangesRows(db, op);
      if b != TargetOf(op) || OnTime(db, op) {
        TerminalRowStep(db.bookings[b], Step(db, op).bookings[b]);
      }
    }
  }

  lemma TerminalRowStep(was: Booking, now: Booking)
    requires Terminal(was.status) && RowStep(was, now)
    ensures now == was.(checkIn := now.checkIn)
  {
  }

  /** In every state of the run the row is as given, but for its check-in. */
  ghost predicate RowStays(db: Db, ops: seq<Op>, b: Id, row: Booking)
    decreases |ops|
  {
    && b < |db.bookings| && db.bookings[b] == row.(checkIn := db.bookings[b].checkIn)
    && (ops != [] ==> RowStays(Step(db, ops[0]), ops[1..], b, row))
  }

  ghost predicate NoJobWrites(db: Db, ops: seq<Op>, b: Id)
    decreases |ops|
  {
    b < |db.bookings| && (ops != [] ==> !JobWrites(db, ops[0], b) && NoJobWrites(Step(db, ops[0]), ops[1..], b))
  }

  /** And nothing of the row but its check-in changes any more exactly when neither job's transaction reaches it. */
  lemma {:induction false} TerminalIsFinalIff(db: Db, ops: seq<Op>, b: Id, row: Booking)
    requires b < |db.bookings| && Terminal(db.bookings[b].status)
    requires db.bookings[b] == row.(checkIn := db.bookings[b].checkIn)
    ensures RowStays(db, ops, b, row) <==> NoJobWrites(db, ops, b)
    decreases |ops|
  {
    if ops == [] {
    } else {
      StepKeepsTerminalIff(db, ops[0], b);
      if !JobWrites(db, ops[0], b) {
        TerminalIsFinalIff(Step(db, ops[0]), ops[1..], b, row);
      }
    }
  }

  /** Completing a session of a service with manual approval, and the approval job's query some time after. */
  function PendingRun(): seq<Op> {
    [OpenSession(0, Some(1)),
     ReserveSlot(ReserveParams(0, 1, None, None, 0, 60)),
     EditSession(0, 0, Patch(None, Some(Some(8)), None, None)),
     CompleteSession(0, 0, 0, Some(ServiceMode(false))),
     UnapprovedQuery({0})]
  }

  /** The tables after that run: one PENDING booking, picked by the approval job. */
  function PendingTables(): Db {
    Db(0,
       [Hold(0, 0, 1, None, None, 0, 60, HOLD_MS, HoldConfirmed)],
       [Session(0, Some(1), None, SessionData(Some(8), None, None), SessionCompleted, Some(0))],
       [Booking(0, 8, 1, None, None, 0, 60, Pending, CheckInPending, 0, None, [], FromHold(0))],
       Picked({}, {}, {0}))
  }

  lemma PendingReached()
    ensures Run(Empty(0), PendingRun()) == PendingTables()
  {
    var ops := PendingRun();
    var d5 := PendingTables();
    var d4 := d5.(picked := Picked({}, {}, {}));
    var open := d5.sessions[0].(status := SessionInProgress, token := None);
    var held := d5.holds[0].(status := Held);
    var d1 := Empty(0).(sessions := [open.(data := SessionData(None, None, None))]);
    var d2 := d1.(holds := [held]);
    var d3 := d2.(sessions := [open]);
    assert Step(Empty(0), ops[0]) == d1;
    assert Step(d1, ops[1]) == d2;
    assert Step(d2, ops[2]) == d3;
    assert 0 in ActiveHoldsOf(d3, 0, 0);
    assert Step(d3, ops[3]) == d4;
    assert Step(d4, ops[4]) == d5;
    RunFive(Empty(0), ops);
  }

  lemma RunFive(db: Db, ops: seq<Op>)
    requires |ops| == 5
    ensures Run(db, ops) == Step(Step(Step(Step(Step(db, ops[0]), ops[1]), ops[2]), ops[3]), ops[4])
  {
    var d1 := Step(db, ops[0]);
    var d2 := Step(d1, ops[1]);
    var d3 := Step(d2, ops[2]);
    var d4 := Step(d3, ops[3]);
    assert ops[1..][1..] == ops[2..] && ops[2..][1..] == ops[3..] && ops[3..][1..] == ops[4..] && ops[4..][1..] == [];
    assert Run(d1, ops[1..]) == Run(d2, ops[2..]);
    assert Run(d2, ops[2..]) == Run(d3, ops[3..]);
    assert Run(d3, ops[3..]) == Run(d4, ops[4..]);
    assert Run(d4, ops[4..]) == Run(Step(d4, ops[4]), []);
  }

  /**
   Statuses really are left: approved, completed or missed, then cancelled by the job that had picked it while
   pending.
   */
  lemma TerminalLeft(op: Op)
    requires op == FinishOp(0, 0) || op == NoShowOp(0, 0, None)
    ensures var approved := Run(Empty(0), PendingRun() + [ConfirmOp(0, 0)]);
            var ended := Step(approved, op);
            var late := Step(ended, CancelUnapprovedOp(0));
            && |ended.bookings| == |late.bookings| == 1
            && ended.bookings[0].status == (if op.FinishOp? then Completed else NoShow)
            && late.bookings[0].status == Cancelled
  {
    ApprovedReached();
    if op.FinishOp? {
      assert Step(ApprovedTables(), op).bookings == [Moved(ApprovedTables().bookings[0], Completed)];
    } else {
      var row := ApprovedTables().bookings[0];
      assert Step(ApprovedTables(), op).bookings == [Moved(row, NoShow).(checkIn := CheckInNoShow)];
    }
    LateCancels(Step(ApprovedTables(), op));
  }

  lemma LateCancels(db: Db)
    requires 0 in db.picked.unapproved && |db.bookings| == 1
    ensures Step(db, CancelUnapprovedOp(0)).bookings == [JobCancelled(db.bookings[0])]
  {
  }

  function ApprovedTables(): Db {
    PendingTables().(bookings := [Moved(PendingTables().bookings[0], Confirmed)])
  }

  lemma ApprovedReached()
    ensures Run(Empty(0), PendingRun() + [ConfirmOp(0, 0)]) == ApprovedTables()
  {
    PendingReached();
    RunConcat(Empty(0), PendingRun(), [ConfirmOp(0, 0)]);
    RunOne(PendingTables(), ConfirmOp(0, 0));
    ApprovedRow(PendingTables(), 0, 0);
  }

  /**
   The portal moves a booking to the next day: the move is in its history, not in its counter, and its day is lost.
   */
  lemma MovedUncounted()
    ensures var d := Run(Empty(0), PendingRun() + [PortalMove(8, 0, Days(1), Days(1) + 60, None)]);
            && |d.bookings| == 1
            && SelfLoops(d.bookings[0].history) == 1 && d.bookings[0].rescheduleCount == 0
            && CreationDay(PendingTables().bookings[0]) == 0 && CreationDay(d.bookings[0]) == 1
  {
    var op := PortalMove(8, 0, Days(1), Days(1) + 60, None);
    PendingReached();
    RunConcat(Empty(0), PendingRun(), [op]);
    RunOne(PendingTables(), op);
    MoveAccepted(op);
    SelfLoopsOfMore([], HistoryEntry(Pending, Pending));
  }

  lemma RunOne(db: Db, op: Op)
    ensures Run(db, [op]) == Step(db, op)
  {
    assert [op][1..] == [];
    assert Run(db, [op]) == Run(Step(db, op), []);
  }

  lemma MoveAccepted(op: Op)
    requires op == PortalMove(8, 0, Days(1), Days(1) + 60, None)
    ensures Step(PendingTables(), op).bookings
            == [PendingTables().bookings[0].(history := [] + [HistoryEntry(Pending, Pending)], start := Days(1),
                                             end := Days(1) + 60)]
  {
    var d := PendingTables();
    assert !BookingConflict(d, RescheduleQuery(d.bookings[0], op.start, op.end), Some(0));
  }

  /** Nobody checks the approved booking in, and the no-show job runs more than a quarter of an hour after its end. */
  lemma MissedButConfirmed()
    ensures var approved := Run(Empty(0), PendingRun() + [ConfirmOp(0, 0)]);
            var d := Step(Step(Step(approved, Tick(900_061)), MissedQuery), MarkMissedOp(0));
            |d.bookings| == 1 && d.bookings[0].status == Confirmed && d.bookings[0].checkIn == CheckInNoShow
  {
    ApprovedReached();
    var late := ApprovedTables().(now := 900_061);
    assert Step(ApprovedTables(), Tick(900_061)) == late;
    MissedIsPicked(late);
    MissedIsMarked(Step(late, MissedQuery));
  }

  lemma MissedIsPicked(db: Db)
    requires |db.bookings| == 1 && Missed(db.bookings[0], db.now)
    ensures 0 in Step(db, MissedQuery).picked.missed && Step(db, MissedQuery).bookings == db.bookings
  {
  }

  lemma MissedIsMarked(db: Db)
    requires |db.bookings| == 1 && 0 in db.picked.missed
    requires db.bookings[0].status == Confirmed && db.bookings[0].checkIn == CheckInPending
    ensures Step(db, MarkMissedOp(0)).bookings == [db.bookings[0].(checkIn := CheckInNoShow)]
  {
  }

  // ---------------------------------------------------------------------------
  // Check-in
  // ---------------------------------------------------------------------------

  /** The no-show job marks the booking as missed and leaves its status alone. */
  predicate MarksMissed(db: Db, op: Op, b: Id)
    requires b < |db.bookings|
  {
    op == MarkMissedOp(b) && b in db.picked.missed && db.bookings[b].status == Confirmed
        && db.bookings[b].checkIn == CheckInPending
  }

  /**
   A step changes a check-in by arrival or no-show, by checking in a confirmed booking, by checking out after that, or
   by the no-show job; nothing else does.
   */
  lemma CheckInFollows(db: Db, op: Op, b: Id)
    requires b < |db.bookings|
    ensures b < |Step(db, op).bookings|
    ensures var was, now := db.bookings[b], Step(db, op).bookings[b];
            now.checkIn ==
              if RequestsMove(db, op, b, InProgress) then CheckedIn
              else if RequestsMove(db, op, b, NoShow) || MarksMissed(db, op, b) then CheckInNoShow
              else if && op == CheckInOp(was.tenant, b)
                      && was.status == Confirmed && was.checkIn == CheckInPending then CheckedIn
              else if op == CheckOutOp(was.tenant, b) && was.checkIn == CheckedIn then CheckedOut
              else was.checkIn
  {
    if Wish(op).Some? {
      RequestedCheckIn(db, op, b);
    } else if IsJobStep(op) {
      JobStepCheckIn(db, op, b);
    } else {
      OtherCheckIn(db, op, b);
    }
  }

  lemma RequestedCheckIn(db: Db, op: Op, b: Id)
    requires b < |db.bookings| && Wish(op).Some?
    ensures b < |Step(db, op).bookings|
    ensures Step(db, op).bookings[b].checkIn ==
            if RequestsMove(db, op, b, InProgress) then CheckedIn
            else if RequestsMove(db, op, b, NoShow) then CheckInNoShow
            else db.bookings[b].checkIn
  {
  }

  lemma JobStepCheckIn(db: Db, op: Op, b: Id)
    requires b < |db.bookings| && IsJobStep(op)
    ensures b < |Step(db, op).bookings|
    ensures Step(db, op).bookings[b].checkIn == if MarksMissed(db, op, b) then CheckInNoShow else db.bookings[b].checkIn
  {
  }

  lemma OtherCheckIn(db: Db, op: Op, b: Id)
    requires b < |db.bookings| && Wish(op).None? && !IsJobStep(op)
    ensures b < |Step(db, op).bookings|
    ensures var was, now := db.bookings[b], Step(db, op).bookings[b];
            now.checkIn ==
              if && op == CheckInOp(was.tenant, b)
                 && was.status == Confirmed && was.checkIn == CheckInPending then CheckedIn
              else if op == CheckOutOp(was.tenant, b) && was.checkIn == CheckedIn then CheckedOut
              else was.checkIn
  {
  }

  /** Status and check-in agree on whether the booking is a no-show. */
  predicate NoShowAgrees(b: Booking) {
    b.status == NoShow <==> b.checkIn == CheckInNoShow
  }

  /** The two ways in which jobs part them: marking a booking as missed, and cancelling a no-show too late. */
  predicate PartsNoShow(db: Db, op: Op, b: Id)
    requires b < |db.bookings|
  {
    MarksMissed(db, op, b) || (JobMoves(db, op, b, Cancelled) && db.bookings[b].status == NoShow)
  }

  lemma StepNoShowAgreesIff(db: Db, op: Op, b: Id)
    requires b < |db.bookings| && NoShowAgrees(db.bookings[b])
    ensures b < |Step(db, op).bookings|
    ensures NoShowAgrees(Step(db, op).bookings[b]) <==> !PartsNoShow(db, op, b)
  {
    if Wish(op).Some? {
      RequestOutcome(db, op, b);
      RequestedCheckIn(db, op, b);
    } else if IsJobStep(op) {
      JobStepOutcome(db, op, b);
      JobStepCheckIn(db, op, b);
    } else {
      SameStatus(db, op, b);
      OtherCheckIn(db, op, b);
    }
  }

  ghost predicate NoShowAgreesThroughout(db: Db, ops: seq<Op>, b: Id)
    decreases |ops|
  {
    b < |db.bookings| && NoShowAgrees(db.bookings[b])
        && (ops != [] ==> NoShowAgreesThroughout(Step(db, ops[0]), ops[1..], b))
  }

  ghost predicate NeverParted(db: Db, ops: seq<Op>, b: Id)
    decreases |ops|
  {
    b < |db.bookings| && (ops != [] ==> !PartsNoShow(db, ops[0], b) && NeverParted(Step(db, ops[0]), ops[1..], b))
  }

  /**
   Over every run: a booking is a no-show by status exactly when it is one by check-in, unless one of the two jobs
   interferes.
   */
  lemma {:induction false} NoShowAgreesIff(db: Db, ops: seq<Op>, b: Id)
    requires b < |db.bookings| && NoShowAgrees(db.bookings[b])
    ensures NoShowAgreesThroughout(db, ops, b) <==> NeverParted(db, ops, b)
    decreases |ops|
  {
    if ops == [] {
    } else {
      StepNoShowAgreesIff(db, ops[0], b);
      if !PartsNoShow(db, ops[0], b) {
        NoShowAgreesIff(Step(db, ops[0]), ops[1..], b);
      }
    }
  }

  /**
   A reschedule is accepted exactly within its limits and when nothing else of the service is in the way; then it
   moves the booking there.
   */
  lemma RescheduleAcceptedIff(db: Db, tenant: Id, b: Id, start: int, end: int, maxCount: Option<int>)
    requires b < |db.bookings|
    ensures var row := db.bookings[b];
            Reschedule(db, tenant, b, start, end, maxCount).Done?
            <==> && row.tenant == tenant && (row.status == Pending || row.status == Confirmed)
                 && (maxCount.Some? ==> row.rescheduleCount < maxCount.value)
                 && var q := RescheduleQuery(row, start, end);
                    !exists o :: Occupies(db, o) && o != BookingRow(b) && Conflicts(q, ClaimOf(db, o))
    ensures Reschedule(db, tenant, b, start, end, maxCount).Done? ==>
              var now := Reschedule(db, tenant, b, start, end, maxCount).db.bookings[b];
              now.start == start && now.end == end && now.status == db.bookings[b].status
  {
    QueriesFindConflictsIff(db, RescheduleQuery(db.bookings[b], start, end), Some(b));
  }

  /**
   A walk-in with a known service and client is refused exactly when any row of the service, for any staff member, is
   in the way.
   */
  lemma WalkInRefusedIff(db: Db, tenant: Id, service: Id, row: WalkInService, client: Id, start: int, end: int)
    ensures WalkIn(db, tenant, service, Some(row), Some(client), start, end).Failed?
            <==> exists o :: Occupies(db, o) && Conflicts(Claim(tenant, service, None, start, end), ClaimOf(db, o))
  {
    QueriesFindConflictsIff(db, Claim(tenant, service, None, start, end), None);
  }

  /** A cancelled booking leaves no trace: every later reservation gets the answer it would have got without it. */
  lemma CancelUndoesWalkIn(db: Db, tenant: Id, service: Id, row: WalkInService, client: Id, start: int, end: int,
      later: ReserveParams)
    requires WalkIn(db, tenant, service, Some(row), Some(client), start, end).Done?
    ensures var cancel := Cancel(WalkIn(db, tenant, service, Some(row), Some(client), start, end).db, tenant,
            |db.bookings|);
            && cancel.Done? && (Reserve(cancel.db, later).Done? <==> Reserve(db, later).Done?)
            && (Reserve(db, later).Failed? ==> Reserve(cancel.db, later) == Reserve(db, later))
  {
    var freed := Cancel(WalkIn(db, tenant, service, Some(row), Some(client), start, end).db, tenant, |db.bookings|).db;
    if later.session < |db.sessions| {
      var q := RequestClaim(db.sessions[later.session].tenant, later);
      assert HoldConflict(freed, q) <==> HoldConflict(db, q);
      assert BookingConflict(freed, q, None) <==> BookingConflict(db, q, None) by {
        assert forall b :: 0 <= b < |db.bookings| ==> freed.bookings[b] == db.bookings[b];
      }
    }
  }
}
