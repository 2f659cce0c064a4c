/** What a hold promises its session: five minutes in which nobody else can take the slot away. */
module HoldPromise {
  import opened Tables
  import opened Reservations
  import opened Sessions
  import opened Bookings
  import opened Protocol

  /** The time that passes during a run. */
  function Elapsed(ops: seq<Op>): nat {
    if ops == [] then 0 else (if ops[0].Tick? then ops[0].ms else 0) + Elapsed(ops[1..])
  }

  /** The step is not one by which session s gives up, changes or uses hold h. */
  predicate LeavesAlone(op: Op, s: Id, h: Id) {
    match op
    case EditSession(_, x, _) => x != s
    case ReleaseSession(_, x) => x != s
    case AbandonSession(_, x) => x != s
    case CompleteSession(_, x, _, _) => x != s
    case PaySession(x, _) => x != s
    case ReleaseHold(_, token) => token != h
    case _ => true
  }

  predicate AllLeaveAlone(ops: seq<Op>, s: Id, h: Id) {
    forall i :: 0 <= i < |ops| ==> LeavesAlone(ops[i], s, h)
  }

  lemma StepKeepsHold(db: Db, op: Op, s: Id, h: Id)
    requires h < |db.holds| && s < |db.sessions| && db.holds[h].session == s && LeavesAlone(op, s, h)
    requires db.holds[h].status == Held && db.holds[h].expiresAt > db.now
    ensures h < |Step(db, op).holds| && Step(db, op).holds[h] == db.holds[h]
    ensures s < |Step(db, op).sessions| && Step(db, op).sessions[s] == db.sessions[s]
    ensures Step(db, op).now == db.now + if op.Tick? then op.ms else 0
  {
  }

  /** Whatever everybody else does until it expires, the hold and its session stay as they are. */
  lemma {:induction false} RunKeepsHold(db: Db, ops: seq<Op>, s: Id, h: Id)
    requires h < |db.holds| && s < |db.sessions| && db.holds[h].session == s && AllLeaveAlone(ops, s, h)
    requires db.holds[h].status == Held && db.holds[h].expiresAt > db.now + Elapsed(ops)
    ensures var d := Run(db, ops);
            && h < |d.holds| && d.holds[h] == db.holds[h]
            && s < |d.sessions| && d.sessions[s] == db.sessions[s]
            && d.now == db.now + Elapsed(ops)
    decreases |ops|
  {
    if ops == [] {
    } else {
      assert LeavesAlone(ops[0], s, h);
      StepKeepsHold(db, ops[0], s, h);
      RunKeepsHold(Step(db, ops[0]), ops[1..], s, h);
    }
  }

  // ---------------------------------------------------------------------------
  // How long the promise lasts
  // ---------------------------------------------------------------------------

  /** Session s is in progress and h is one of its unexpired HELD rows. */
  predicate Promised(db: Db, s: Id, h: Id) {
    && s < |db.sessions| && db.sessions[s].status == SessionInProgress
    && h in ActiveHoldsOf(db, db.sessions[s].tenant, s)
  }

  /**
   The steps that end the promise before its time: releasing the hold, or releasing, abandoning or completing the
   session.
   */
  predicate GivesUp(db: Db, op: Op, s: Id, h: Id)
    requires s < |db.sessions|
  {
    match op
    case ReleaseHold(t, token) => t == db.sessions[s].tenant && token == h
    case ReleaseSession(t, x) => t == db.sessions[s].tenant && x == s
    case AbandonSession(t, x) => t == db.sessions[s].tenant && x == s
    case CompleteSession(_, x, _, _) => x == s && Apply(db, op).Done?
    case _ => false
  }

  predicate RunsOut(db: Db, op: Op, h: Id)
    requires h < |db.holds|
  {
    op.Tick? && db.holds[h].expiresAt <= db.now + op.ms
  }

  lemma StepKeepsPromiseIff(db: Db, op: Op, s: Id, h: Id)
    requires Promised(db, s, h)
    ensures Promised(Step(db, op), s, h) <==> !GivesUp(db, op, s, h) && !RunsOut(db, op, h)
    ensures Promised(Step(db, op), s, h) ==> Step(db, op).holds[h] == db.holds[h]
  {
    if OnlyOnBookings(op) {
      OnlyBookingsChange(db, op);
    } else {
      OtherStepKeepsPromiseIff(db, op, s, h);
    }
  }

  lemma OtherStepKeepsPromiseIff(db: Db, op: Op, s: Id, h: Id)
    requires Promised(db, s, h) && !OnlyOnBookings(op)
    ensures Promised(Step(db, op), s, h) <==> !GivesUp(db, op, s, h) && !RunsOut(db, op, h)
    ensures Promised(Step(db, op), s, h) ==> Step(db, op).holds[h] == db.holds[h]
  {
  }

  /** A step that keeps the promise keeps the session's tenant and moves the clock by no more than it says. */
  lemma StepKeepsTenant(db: Db, op: Op, s: Id)
    requires s < |db.sessions|
    ensures s < |Step(db, op).sessions| && Step(db, op).sessions[s].tenant == db.sessions[s].tenant
    ensures Step(db, op).now == db.now + if op.Tick? then op.ms else 0
  {
    if OnlyOnBookings(op) { OnlyBookingsChange(db, op); }
  }

  /** What has been given up or has run out does not come back. */
  lemma LostStaysLost(db: Db, op: Op, s: Id, h: Id)
    requires s < |db.sessions| && h < |db.holds| && !Promised(db, s, h)
    ensures s < |Step(db, op).sessions| && h < |Step(db, op).holds| && !Promised(Step(db, op), s, h)
  {
    if OnlyOnBookings(op) { OnlyBookingsChange(db, op); }
  }

  lemma {:induction false} LostInRun(db: Db, ops: seq<Op>, s: Id, h: Id)
    requires s < |db.sessions| && h < |db.holds| && !Promised(db, s, h)
    ensures !Promised(Run(db, ops), s, h)
    decreases |ops|
  {
    if ops == [] {
    } else {
      LostStaysLost(db, ops[0], s, h);
      LostInRun(Step(db, ops[0]), ops[1..], s, h);
    }
  }

  predicate NeverGivenUp(db: Db, ops: seq<Op>, s: Id, h: Id)
    decreases |ops|
  {
    && s < |db.sessions|
    && (ops != [] ==> !GivesUp(db, ops[0], s, h) && NeverGivenUp(Step(db, ops[0]), ops[1..], s, h))
  }

  /**
   Over every run, whatever the session edits, pays for and reserves, and whatever others do: the promise is kept
   exactly when the session does not give it up itself and its time has not run out.
   */
  lemma {:induction false} PromiseKeptIff(db: Db, ops: seq<Op>, s: Id, h: Id)
    requires Promised(db, s, h)
    ensures Promised(Run(db, ops), s, h)
            <==> NeverGivenUp(db, ops, s, h) && db.now + Elapsed(ops) < db.holds[h].expiresAt
    ensures Promised(Run(db, ops), s, h) ==>
              && Run(db, ops).holds[h] == db.holds[h]
              && Run(db, ops).sessions[s].tenant == db.sessions[s].tenant
    decreases |ops|
  {
    if ops == [] {
    } else {
      StepKeepsPromiseIff(db, ops[0], s, h);
      StepKeepsTenant(db, ops[0], s);
      if Promised(Step(db, ops[0]), s, h) {
        PromiseKeptIff(Step(db, ops[0]), ops[1..], s, h);
      } else {
        StepKeepsRows(db, ops[0]);
        LostInRun(Step(db, ops[0]), ops[1..], s, h);
      }
    }
  }

  lemma StepKeepsRows(db: Db, op: Op)
    ensures |db.holds| <= |Step(db, op).holds| && |db.sessions| <= |Step(db, op).sessions|
  {
    if OnlyOnBookings(op) { OnlyBookingsChange(db, op); }
  }

  // ---------------------------------------------------------------------------
  // What it is worth
  // ---------------------------------------------------------------------------

  /**
   The booking has the time and venue of the hold, the session's service, staff and client, and the service's first
   status.
   */
  predicate BookedAs(b: Booking, start: int, end: int, venue: Option<Id>, row: Session, mode: ServiceMode) {
    && b.start == start && b.end == end && b.venue == venue
    && b.tenant == row.tenant && Some(b.service) == row.service && b.staff == row.data.staff
       && Some(b.client) == ClientFor(row)
    && b.status == (if mode.autoConfirm then Confirmed else Pending)
  }

  /** The booking that completing session s with the picked hold makes. */
  function BookingOf(d: Db, tenant: Id, s: Id, pick: Id, mode: ServiceMode): Booking
    requires Complete(d, tenant, s, pick, Some(mode)).Done?
  {
    Complete(d, tenant, s, pick, Some(mode)).db.bookings[|d.bookings|]
  }

  /** The session says what to book and for whom. */
  predicate SaysEnough(row: Session) {
    row.service.Some? && ClientFor(row).Some?
  }

  /** With an unexpired hold, completing succeeds exactly when the session says enough, and books that hold. */
  lemma PickIsBooked(d: Db, s: Id, pick: Id, mode: ServiceMode)
    requires Promised(d, s, pick)
    ensures var row, h := d.sessions[s], d.holds[pick];
            && (Complete(d, row.tenant, s, pick, Some(mode)).Done? <==> SaysEnough(row))
            && (SaysEnough(row) ==>
                  var b := BookingOf(d, row.tenant, s, pick, mode);
                  BookedAs(b, h.start, h.end, h.venue, row, mode) && b.origin == FromHold(pick))
  {
  }

  lemma ReservingPromises(db: Db, p: ReserveParams)
    requires Reserve(db, p).Done? && db.sessions[p.session].status == SessionInProgress
    ensures Promised(Reserve(db, p).db, p.session, |db.holds|)
    ensures Reserve(db, p).db.holds[|db.holds|].expiresAt == db.now + HOLD_MS == Reserve(db, p).db.now + HOLD_MS
  {
  }

  /**
   A reserved slot can be turned into a booking at any time within five minutes, whatever all other sessions, staff and
   jobs do in between and whatever the session itself edits, pays for or reserves: whichever unexpired hold of the
   session the completion finds, it succeeds exactly when the session says enough by then, and books that hold.
   */
  lemma ReservedSlotCanBeBooked(db: Db, p: ReserveParams, ops: seq<Op>, mode: ServiceMode)
    requires Reserve(db, p).Done? && db.sessions[p.session].status == SessionInProgress
    requires NeverGivenUp(Reserve(db, p).db, ops, p.session, |db.holds|) && Elapsed(ops) < HOLD_MS
    ensures var d, s := Run(Reserve(db, p).db, ops), p.session;
            && s < |d.sessions| && d.sessions[s].tenant == db.sessions[s].tenant
            && |db.holds| in ActiveHoldsOf(d, d.sessions[s].tenant, s)
            && d.holds[|db.holds|] == Reserve(db, p).db.holds[|db.holds|]
            && forall pick :: pick in ActiveHoldsOf(d, d.sessions[s].tenant, s) ==>
                 var row, h := d.sessions[s], d.holds[pick];
                 && (Complete(d, row.tenant, s, pick, Some(mode)).Done? <==> SaysEnough(row))
                 && (SaysEnough(row) ==>
                       var b := BookingOf(d, row.tenant, s, pick, mode);
                       BookedAs(b, h.start, h.end, h.venue, row, mode) && b.origin == FromHold(pick))
  {
    var d, s := Run(Reserve(db, p).db, ops), p.session;
    ReservingPromises(db, p);
    PromiseKeptIff(Reserve(db, p).db, ops, s, |db.holds|);
    forall pick | pick in ActiveHoldsOf(d, d.sessions[s].tenant, s)
      ensures var row, h := d.sessions[s], d.holds[pick];
              && (Complete(d, row.tenant, s, pick, Some(mode)).Done? <==> SaysEnough(row))
              && (SaysEnough(row) ==>
                    var b := BookingOf(d, row.tenant, s, pick, mode);
                    BookedAs(b, h.start, h.end, h.venue, row, mode) && b.origin == FromHold(pick))
    {
      PickIsBooked(d, s, pick, mode);
    }
  }

  /** Every completion that the session can make in d books hold h. */
  ghost predicate OnlyBooks(d: Db, s: Id, h: Id, mode: ServiceMode)
    requires s < |d.sessions|
  {
    forall pick :: pick in ActiveHoldsOf(d, d.sessions[s].tenant, s) ==>
      && Complete(d, d.sessions[s].tenant, s, pick, Some(mode)).Done?
      && BookingOf(d, d.sessions[s].tenant, s, pick, mode).origin == FromHold(h)
  }

  /**
   Once the session says enough, the reserved slot is sure to be the one that is booked exactly when the session has no
   other unexpired hold.
   */
  lemma ReservedSlotIsBookedIff(db: Db, p: ReserveParams, ops: seq<Op>, mode: ServiceMode)
    requires Reserve(db, p).Done? && db.sessions[p.session].status == SessionInProgress
    requires NeverGivenUp(Reserve(db, p).db, ops, p.session, |db.holds|) && Elapsed(ops) < HOLD_MS
    ensures var d, s := Run(Reserve(db, p).db, ops), p.session;
            && s < |d.sessions|
            && (SaysEnough(d.sessions[s]) ==>
                  (OnlyBooks(d, s, |db.holds|, mode) <==> ActiveHoldsOf(d, d.sessions[s].tenant, s) == {|db.holds|}))
  {
    ReservedSlotCanBeBooked(db, p, ops, mode);
  }

  /** The step does not reserve for session s. */
  predicate ReservesNothing(op: Op, s: Id) {
    op.ReserveSlot? ==> op.params.session != s
  }

  lemma {:induction false} RunAddsNoHold(db: Db, ops: seq<Op>, tenant: Id, s: Id)
    requires forall i :: 0 <= i < |ops| ==> ReservesNothing(ops[i], s)
    ensures ActiveHoldsOf(Run(db, ops), tenant, s) <= ActiveHoldsOf(db, tenant, s)
    decreases |ops|
  {
    if ops == [] {
    } else {
      StepAddsNoHold(db, ops[0], tenant, s);
      RunAddsNoHold(Step(db, ops[0]), ops[1..], tenant, s);
    }
  }

  lemma StepAddsNoHold(db: Db, op: Op, tenant: Id, s: Id)
    requires ReservesNothing(op, s)
    ensures ActiveHoldsOf(Step(db, op), tenant, s) <= ActiveHoldsOf(db, tenant, s)
  {
    if OnlyOnBookings(op) { OnlyBookingsChange(db, op); }
  }

  /** Whatever the session's status: a hold that is not given up stays active until it expires. */
  lemma {:induction false} RunKeepsActive(db: Db, ops: seq<Op>, s: Id, h: Id)
    requires s < |db.sessions| && h in ActiveHoldsOf(db, db.sessions[s].tenant, s)
    requires NeverGivenUp(db, ops, s, h) && db.now + Elapsed(ops) < db.holds[h].expiresAt
    ensures h in ActiveHoldsOf(Run(db, ops), db.sessions[s].tenant, s)
    decreases |ops|
  {
    if ops == [] {
    } else {
      StepKeepsActive(db, ops[0], s, h);
      StepKeepsTenant(db, ops[0], s);
      RunKeepsActive(Step(db, ops[0]), ops[1..], s, h);
    }
  }

  lemma StepKeepsActive(db: Db, op: Op, s: Id, h: Id)
    requires s < |db.sessions| && h in ActiveHoldsOf(db, db.sessions[s].tenant, s)
    requires !GivesUp(db, op, s, h) && !RunsOut(db, op, h)
    ensures h in ActiveHoldsOf(Step(db, op), db.sessions[s].tenant, s) && Step(db, op).holds[h] == db.holds[h]
  {
    if OnlyOnBookings(op) { OnlyBookingsChange(db, op); }
  }

  /** That is so when the session had no unexpired hold when it reserved and reserves no other afterwards. */
  lemma OnlyReservationIsBooked(db: Db, p: ReserveParams, ops: seq<Op>)
    requires Reserve(db, p).Done? && ActiveHoldsOf(db, db.sessions[p.session].tenant, p.session) == {}
    requires NeverGivenUp(Reserve(db, p).db, ops, p.session, |db.holds|) && Elapsed(ops) < HOLD_MS
    requires forall i :: 0 <= i < |ops| ==> ReservesNothing(ops[i], p.session)
    ensures ActiveHoldsOf(Run(Reserve(db, p).db, ops), db.sessions[p.session].tenant, p.session) == {|db.holds|}
  {
    var held, tenant := Reserve(db, p).db, db.sessions[p.session].tenant;
    RunKeepsActive(held, ops, p.session, |db.holds|);
    RunAddsNoHold(held, ops, tenant, p.session);
    forall h | h in ActiveHoldsOf(held, tenant, p.session) ensures h == |db.holds| {
      assert h >= |db.holds| || h in ActiveHoldsOf(db, tenant, p.session);
    }
  }

  /** A second reservation does not give up the first: the session can be completed into either. */
  lemma SecondReservationCompetes(db: Db, p: ReserveParams, q: ReserveParams, mode: ServiceMode)
    requires Reserve(db, p).Done? && q.session == p.session && Reserve(Reserve(db, p).db, q).Done?
    requires var row := db.sessions[p.session];
             row.status == SessionInProgress && row.service.Some? && ClientFor(row).Some?
    ensures var d, tenant, row := Reserve(Reserve(db, p).db, q).db, db.sessions[p.session].tenant,
            db.sessions[p.session];
            var first, second := |db.holds|, |db.holds| + 1;
            && {first, second} <= ActiveHoldsOf(d, tenant, p.session)
            && BookedAs(BookingOf(d, tenant, p.session, first, mode), p.start, p.end, p.venue, row, mode)
            && BookedAs(BookingOf(d, tenant, p.session, second, mode), q.start, q.end, q.venue, row, mode)
  {
  }

  /** After five minutes the promise is over: the hold no longer blocks anyone and cannot be completed. */
  lemma ExpiredHoldCannotBeBooked(db: Db, p: ReserveParams, ms: nat, mode: ServiceMode)
    requires Reserve(db, p).Done? && ms >= HOLD_MS
    ensures var d := Step(Reserve(db, p).db, Tick(ms));
            && !Occupies(d, HoldRow(|db.holds|))
            && Complete(d, db.sessions[p.session].tenant, p.session, |db.holds|, Some(mode)).Failed?
  {
  }
}
