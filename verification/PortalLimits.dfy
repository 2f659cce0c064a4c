/** What the portal's and the business's limits on reschedules limit, over every run. */
module PortalLimits {
  import opened Tables
  import opened Bookings
  import opened Jobs
  import opened Portal
  import opened Protocol
  import opened BookingRecords

  lemma ConfirmedLoopsOfMore(history: seq<HistoryEntry>, e: HistoryEntry)
    ensures ConfirmedLoops(history + [e]) ==
            ConfirmedLoops(history) + if e == HistoryEntry(Confirmed, Confirmed) then 1 else 0
  {
    assert (history + [e])[..|history|] == history;
  }

  /** Whatever changes the row, the portal's count of its reschedules never falls. */
  lemma StepKeepsCount(db: Db, op: Op, b: Id)
    requires b < |db.bookings|
    ensures b < |Step(db, op).bookings|
    ensures ConfirmedLoops(db.bookings[b].history) <= ConfirmedLoops(Step(db, op).bookings[b].history)
  {
    StepChangesRows(db, op);
    RowKeepsCount(db.bookings[b], Step(db, op).bookings[b]);
  }

  lemma RowKeepsCount(was: Booking, now: Booking)
    requires RowStep(was, now) || LateStep(was, now)
    ensures ConfirmedLoops(was.history) <= ConfirmedLoops(now.history)
  {
    if now.history != was.history {
      ConfirmedLoopsOfMore(was.history, now.history[|was.history|]);
    }
  }

  /** A move through the portal is counted exactly when the booking is CONFIRMED. */
  lemma MoveIsCountedIff(db: Db, op: Op, b: Id)
    requires b < |db.bookings| && Rebooks(db, op, b)
    ensures b < |Step(db, op).bookings|
    ensures ConfirmedLoops(Step(db, op).bookings[b].history) ==
            ConfirmedLoops(db.bookings[b].history) + if db.bookings[b].status == Confirmed then 1 else 0
  {
    var row := db.bookings[b];
    ConfirmedLoopsOfMore(row.history, HistoryEntry(row.status, row.status));
  }

  /** How often the portal moves the booking in a run. */
  function MovesMade(db: Db, ops: seq<Op>, b: Id): nat
    decreases |ops|
  {
    if ops == [] || b >= |db.bookings| then 0
    else (if Rebooks(db, ops[0], b) then 1 else 0) + MovesMade(Step(db, ops[0]), ops[1..], b)
  }

  /** Every request in the run to move the booking meets at most this limit. */
  predicate LimitedTo(ops: seq<Op>, b: Id, limit: int) {
    forall i :: 0 <= i < |ops| && ops[i].PortalMove? && ops[i].booking == b ==> PortalLimit(ops[i].maxCount) <= limit
  }

  /** No step makes a booking PENDING again. */
  lemma NotPendingAgain(db: Db, op: Op, b: Id)
    requires b < |db.bookings| && db.bookings[b].status != Pending
    ensures b < |Step(db, op).bookings| && Step(db, op).bookings[b].status != Pending
  {
    StepChangesRows(db, op);
  }

  /** Of a booking that is not PENDING the portal never makes more moves than the limit leaves over. */
  lemma {:induction false} LimitBinds(db: Db, ops: seq<Op>, b: Id, limit: int)
    requires b < |db.bookings| && db.bookings[b].status != Pending && LimitedTo(ops, b, limit)
    ensures MovesMade(db, ops, b) == 0 || ConfirmedLoops(db.bookings[b].history) + MovesMade(db, ops, b) <= limit
    decreases |ops|
  {
    if ops == [] {
    } else {
      assert LimitedTo(ops[1..], b, limit);
      NotPendingAgain(db, ops[0], b);
      LimitBinds(Step(db, ops[0]), ops[1..], b, limit);
      if Rebooks(db, ops[0], b) {
        MoveIsCountedIff(db, ops[0], b);
      } else {
        StepKeepsCount(db, ops[0], b);
      }
    }
  }

  function Repeated(op: Op, n: nat): (ops: seq<Op>)
    ensures |ops| == n && forall i :: 0 <= i < n ==> ops[i] == op
  {
    seq(n, _ => op)
  }

  /** After a move of a PENDING booking the same request is accepted again. */
  lemma AcceptedAgain(db: Db, op: Op)
    requires PortalMoves(db, op) && db.bookings[op.booking].status == Pending
    ensures PortalMoves(Step(db, op), op) && Step(db, op).bookings[op.booking].status == Pending
  {
    var b := op.booking;
    var d, q := Step(db, op), RescheduleQuery(db.bookings[b], op.start, op.end);
    MoveIsCountedIff(db, op, b);
    assert RescheduleQuery(d.bookings[b], op.start, op.end) == q;
    assert !BookingConflict(d, q, Some(b)) by {
      assert forall x :: 0 <= x < |d.bookings| && Some(x) != Some(b) ==> d.bookings[x] == db.bookings[x];
    }
  }

  lemma {:induction false} PendingMovesGoOn(db: Db, op: Op, n: nat)
    requires PortalMoves(db, op) && db.bookings[op.booking].status == Pending
    ensures MovesMade(db, Repeated(op, n), op.booking) == n
    decreases n
  {
    if n == 0 {
    } else {
      AcceptedAgain(db, op);
      assert Repeated(op, n)[1..] == Repeated(op, n - 1);
      PendingMovesGoOn(Step(db, op), op, n - 1);
    }
  }

  /** No run makes more moves of the booking than the limit its requests meet. */
  ghost predicate NeverMoreThan(db: Db, b: Id, limit: int) {
    forall ops :: LimitedTo(ops, b, limit) ==> MovesMade(db, ops, b) <= limit
  }

  /** When the portal accepts a move, its limit bounds all further ones exactly when the booking is not PENDING. */
  lemma PortalLimitBindsIff(db: Db, op: Op)
    requires PortalMoves(db, op)
    ensures NeverMoreThan(db, op.booking, PortalLimit(op.maxCount)) <==> db.bookings[op.booking].status != Pending
  {
    var b, limit := op.booking, PortalLimit(op.maxCount);
    if db.bookings[b].status != Pending {
      forall ops: seq<Op> | LimitedTo(ops, b, limit) ensures MovesMade(db, ops, b) <= limit {
        LimitBinds(db, ops, b, limit);
      }
    } else {
      PendingMovesGoOn(db, op, limit + 1);
      assert LimitedTo(Repeated(op, limit + 1), b, limit);
    }
  }

  // ---------------------------------------------------------------------------
  // The business's limit, and both together
  // ---------------------------------------------------------------------------

  /** The business reschedules the booking. */
  predicate BusinessMoves(db: Db, op: Op, b: Id) {
    op.RescheduleTo? && op.booking == b && Apply(db, op).Done?
  }

  function BusinessMovesMade(db: Db, ops: seq<Op>, b: Id): nat
    decreases |ops|
  {
    if ops == [] then 0
    else (if BusinessMoves(db, ops[0], b) then 1 else 0) + BusinessMovesMade(Step(db, ops[0]), ops[1..], b)
  }

  /** Every reschedule request for the booking in the run meets at most this limit. */
  predicate BusinessLimitedTo(ops: seq<Op>, b: Id, limit: int) {
    forall i :: 0 <= i < |ops| && ops[i].RescheduleTo? && ops[i].booking == b ==>
      ops[i].maxCount.Some? && ops[i].maxCount.value <= limit
  }

  lemma StepCountsBusinessMoves(db: Db, op: Op, b: Id)
    requires b < |db.bookings|
    ensures b < |Step(db, op).bookings|
    ensures Step(db, op).bookings[b].rescheduleCount ==
            db.bookings[b].rescheduleCount + if BusinessMoves(db, op, b) then 1 else 0
  {
    StepChangesRows(db, op);
  }

  /** The counter counts the moves of the business, whatever the booking's status, and nothing else. */
  lemma {:induction false} RunCountsBusinessMoves(db: Db, ops: seq<Op>, b: Id)
    requires b < |db.bookings|
    ensures b < |Run(db, ops).bookings|
    ensures Run(db, ops).bookings[b].rescheduleCount == db.bookings[b].rescheduleCount + BusinessMovesMade(db, ops, b)
    decreases |ops|
  {
    if ops == [] {
    } else {
      StepCountsBusinessMoves(db, ops[0], b);
      RunCountsBusinessMoves(Step(db, ops[0]), ops[1..], b);
    }
  }

  /** So the business never makes more moves of a booking, PENDING or not, than its limit leaves over. */
  lemma {:induction false} BusinessLimitBinds(db: Db, ops: seq<Op>, b: Id, limit: int)
    requires b < |db.bookings| && BusinessLimitedTo(ops, b, limit)
    ensures BusinessMovesMade(db, ops, b) == 0
            || db.bookings[b].rescheduleCount + BusinessMovesMade(db, ops, b) <= limit
    decreases |ops|
  {
    if ops == [] {
    } else {
      assert BusinessLimitedTo(ops[1..], b, limit);
      StepCountsBusinessMoves(db, ops[0], b);
      BusinessLimitBinds(Step(db, ops[0]), ops[1..], b, limit);
    }
  }

  lemma StepCountsAllMoves(db: Db, op: Op, b: Id)
    requires b < |db.bookings|
    ensures b < |Step(db, op).bookings|
    ensures SelfLoops(Step(db, op).bookings[b].history) ==
            SelfLoops(db.bookings[b].history)
            + (if Rebooks(db, op, b) then 1 else 0) + (if BusinessMoves(db, op, b) then 1 else 0)
  {
    StepChangesRows(db, op);
    StepCountsBusinessMoves(db, op, b);
    RebooksIff(db, op, b);
    RowCountsMove(db.bookings[b], Step(db, op).bookings[b]);
  }

  /** A row gains a self-loop exactly when its counter rises or it is moved uncounted. */
  lemma RowCountsMove(was: Booking, now: Booking)
    requires RowStep(was, now) || LateStep(was, now)
    ensures SelfLoops(now.history) == SelfLoops(was.history)
            + (if MovesUncounted(was, now) then 1 else 0) + (now.rescheduleCount - was.rescheduleCount)
  {
    if now.history != was.history {
      SelfLoopsOfMore(was.history, now.history[|was.history|]);
    }
  }

  /** The self-loops of a booking's history count the moves of both. */
  lemma {:induction false} RunCountsAllMoves(db: Db, ops: seq<Op>, b: Id)
    requires b < |db.bookings|
    ensures b < |Run(db, ops).bookings|
    ensures SelfLoops(Run(db, ops).bookings[b].history) ==
            SelfLoops(db.bookings[b].history) + MovesMade(db, ops, b) + BusinessMovesMade(db, ops, b)
    decreases |ops|
  {
    if ops == [] {
    } else {
      StepCountsAllMoves(db, ops[0], b);
      RunCountsAllMoves(Step(db, ops[0]), ops[1..], b);
    }
  }

  function LeftOver(limit: int, used: nat): nat {
    if used < limit then limit - used else 0
  }

  /** A booking that is not PENDING is moved at most as often as both limits together leave over. */
  lemma BothLimitsBind(db: Db, ops: seq<Op>, b: Id, portalLimit: int, businessLimit: int)
    requires b < |db.bookings| && db.bookings[b].status != Pending
    requires LimitedTo(ops, b, portalLimit) && BusinessLimitedTo(ops, b, businessLimit)
    ensures b < |Run(db, ops).bookings|
    ensures SelfLoops(Run(db, ops).bookings[b].history) <=
            SelfLoops(db.bookings[b].history) + LeftOver(portalLimit, ConfirmedLoops(db.bookings[b].history))
            + LeftOver(businessLimit, db.bookings[b].rescheduleCount)
  {
    RunCountsAllMoves(db, ops, b);
    LimitBinds(db, ops, b, portalLimit);
    BusinessLimitBinds(db, ops, b, businessLimit);
  }
}
