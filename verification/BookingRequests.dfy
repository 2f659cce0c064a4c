/** Which requests are accepted and what a refusal says, whose a booking is, and which bookings the jobs pick. */
module BookingRequests {
  import opened Tables
  import opened Reservations
  import opened Sessions
  import opened Bookings
  import opened Jobs
  import opened Portal
  import opened Protocol
  import opened BookingRecords

  /** The move is one of those that the portal counts. */
  predicate CountedMove(e: HistoryEntry) {
    e.from == Confirmed && e.to == Confirmed
  }

  function CountedMoves(history: seq<HistoryEntry>): nat {
    |set i | 0 <= i < |history| && CountedMove(history[i])|
  }

  lemma {:induction false} LoopsAreCounted(history: seq<HistoryEntry>)
    ensures ConfirmedLoops(history) == CountedMoves(history)
    decreases |history|
  {
    var counted := set i | 0 <= i < |history| && CountedMove(history[i]);
    if history == [] {
      assert counted == {};
    } else {
      var n := |history| - 1;
      LoopsAreCounted(history[..n]);
      var before := set i | 0 <= i < n && CountedMove(history[..n][i]);
      assert counted == if CountedMove(history[n]) then before + {n} else before;
    }
  }

  /** Some other live booking of the tenant and service overlaps the interval. */
  ghost predicate Booked(db: Db, tenant: Id, service: Id, start: int, end: int, except: Id) {
    exists b :: 0 <= b < |db.bookings| && b != except && !Terminal(db.bookings[b].status)
             && db.bookings[b].tenant == tenant && db.bookings[b].service == service
             && db.bookings[b].start < end && start < db.bookings[b].end
  }

  /**
   The portal moves a booking exactly when the client owns it, it is pending or confirmed, it has counted moves left,
   three without a limit of the service's own, the new time is ahead, and no other booking is in the way.
   */
  lemma PortalAcceptedIff(db: Db, client: Id, b: Id, start: int, end: int, maxCount: Option<int>)
    requires b < |db.bookings|
    ensures var row, o := db.bookings[b], RequestReschedule(db, client, b, start, end, maxCount);
            && (o.Done? <==>
                  && row.client == client && (row.status == Pending || row.status == Confirmed)
                  && CountedMoves(row.history) < (if maxCount == None then 3 else maxCount.value)
                  && db.now < start && !Booked(db, row.tenant, row.service, start, end, b))
            && (o.Done? ==> o.db.bookings[b].start == start && o.db.bookings[b].end == end)
  {
    var row := db.bookings[b];
    LoopsAreCounted(row.history);
    assert BookingConflict(db, RescheduleQuery(row, start, end), Some(b))
        <==> Booked(db, row.tenant, row.service, start, end, b);
  }

  /** A refusal says why: whoever is not the booking's client does not find it, whatever else is the matter. */
  lemma OnlyOwnerFinds(db: Db, client: Id, b: Id, start: int, end: int, maxCount: Option<int>)
    requires b < |db.bookings|
    ensures RequestReschedule(db, client, b, start, end, maxCount) == Failed(NotFound)
            <==> db.bookings[b].client != client
  {
  }

  /** Whatever step makes a booking: its client can be checked in as soon as it is confirmed, and it was never moved. */
  lemma NewBookingIsUnchecked(db: Db, op: Op)
    requires |Step(db, op).bookings| > |db.bookings|
    ensures var b := Step(db, op).bookings[|db.bookings|];
            && (CheckIn(Step(db, op), b.tenant, |db.bookings|).Done? <==> b.status == Confirmed)
            && b.rescheduleCount == 0 == SelfLoops(b.history) && b.originalDate == None
  {
    StepChangesRows(db, op);
    InsertedIsUnchecked(db, op, Step(db, op).bookings[|db.bookings|]);
  }

  lemma InsertedIsUnchecked(db: Db, op: Op, b: Booking)
    requires Inserted(db, op, b)
    ensures b.checkIn == CheckInPending && b.rescheduleCount == 0 == SelfLoops(b.history) && b.originalDate == None
  {
    if op.WalkInNow? {
      assert b.history[..|b.history| - 1] == [];
    }
  }

  /** A walk-in or an import makes a booking that can be checked in at once and that its client alone can find. */
  lemma NewBookingIsTheClients(db: Db, op: Op, caller: Id, start: int, end: int, maxCount: Option<int>)
    requires (op.WalkInNow? || op.ImportRow?) && Apply(db, op).Done?
    ensures op.client.Some? && |Step(db, op).bookings| == |db.bookings| + 1
    ensures CheckIn(Step(db, op), op.tenant, |db.bookings|).Done?
    ensures RequestReschedule(Step(db, op), caller, |db.bookings|, start, end, maxCount) == Failed(NotFound)
            <==> caller != op.client.value
  {
  }

  /** What the queries of the three jobs add to what they have picked before. */
  lemma JobsPickIff(db: Db, overdue: set<Id>, b: Id)
    ensures b in Step(db, MissedQuery).picked.missed <==>
              || b in db.picked.missed
              || (&& b < |db.bookings| && db.bookings[b].status == Confirmed && db.bookings[b].checkIn == CheckInPending
                  && db.now - db.bookings[b].end > 900_000)
    ensures b in Step(db, EndedQuery).picked.ended <==>
              || b in db.picked.ended
              || (&& b < |db.bookings| && db.bookings[b].status == Confirmed
                  && db.bookings[b].checkIn != CheckInNoShow && db.now > db.bookings[b].end)
    ensures b in Step(db, UnapprovedQuery(overdue)).picked.unapproved <==>
              || b in db.picked.unapproved
              || (b in overdue && b < |db.bookings| && db.bookings[b].status == Pending)
  {
  }

  /** A status takes time exactly as long as the booking's life is not over. */
  lemma LiveTakesTime(status: BookingStatus)
    ensures TakesTime(status) <==> AllowedTargets(status) != {}
  {
    assert status == Pending ==> Cancelled in AllowedTargets(status);
    assert status == Confirmed ==> Cancelled in AllowedTargets(status);
    assert status == InProgress ==> Cancelled in AllowedTargets(status);
  }

  predicate During(t: int, start: int, end: int) {
    start <= t < end
  }

  /** Two intervals of some length overlap exactly when they have an instant in common. */
  lemma OverlapsIff(start: int, end: int, otherStart: int, otherEnd: int)
    requires start < end && otherStart < otherEnd
    ensures Overlaps(start, end, otherStart, otherEnd)
            <==> exists t :: During(t, start, end) && During(t, otherStart, otherEnd)
  {
    var later := if start <= otherStart then otherStart else start;
    if Overlaps(start, end, otherStart, otherEnd) {
      assert During(later, start, end) && During(later, otherStart, otherEnd);
    }
  }

  // ---------------------------------------------------------------------------
  // What a refusal says
  // ---------------------------------------------------------------------------

  /** An unexpired hold that the claim conflicts with. */
  ghost predicate HeldInTheWay(db: Db, q: Claim) {
    exists h :: h in db.holds && h.status == Held && db.now < h.expiresAt && Conflicts(q, HoldClaim(h))
  }

  /** A live booking, other than the one to be moved, that it conflicts with. */
  ghost predicate BookedInTheWay(db: Db, q: Claim, except: Option<Id>) {
    exists b :: 0 <= b < |db.bookings| && Some(b) != except && !Terminal(db.bookings[b].status)
             && Conflicts(q, BookingClaim(db.bookings[b]))
  }

  lemma InTheWayIff(db: Db, q: Claim, except: Option<Id>)
    ensures HoldConflict(db, q) <==> HeldInTheWay(db, q)
    ensures BookingConflict(db, q, except) <==> BookedInTheWay(db, q, except)
  {
    if HoldConflict(db, q) {
      var i :| 0 <= i < |db.holds| && ActiveHold(db.holds[i], db.now) && Conflicts(q, HoldClaim(db.holds[i]));
      assert db.holds[i] in db.holds;
    }
    if HeldInTheWay(db, q) {
      var h :| h in db.holds && h.status == Held && db.now < h.expiresAt && Conflicts(q, HoldClaim(h));
      var i :| 0 <= i < |db.holds| && db.holds[i] == h;
      assert ActiveHold(db.holds[i], db.now);
    }
  }

  /** A reservation is told of a hold in its way before it is told of a booking. */
  lemma ReserveSaysWhy(db: Db, p: ReserveParams)
    requires p.session < |db.sessions|
    ensures var q := RequestClaim(db.sessions[p.session].tenant, p);
            && (Reserve(db, p) == Failed(SlotReserved) <==> HeldInTheWay(db, q))
            && (Reserve(db, p) == Failed(SlotBooked) <==> !HeldInTheWay(db, q) && BookedInTheWay(db, q, None))
  {
    InTheWayIff(db, RequestClaim(db.sessions[p.session].tenant, p), None);
  }

  /** A walk-in is told of a booking in its way before it is told of a hold. */
  lemma WalkInSaysWhy(db: Db, tenant: Id, service: Id, row: WalkInService, client: Id, start: int, end: int)
    ensures var q, o := Claim(tenant, service, None, start, end),
            WalkIn(db, tenant, service, Some(row), Some(client), start, end);
            && (o == Failed(SlotBooked) <==> BookedInTheWay(db, q, None))
            && (o == Failed(SlotReserved) <==> HeldInTheWay(db, q) && !BookedInTheWay(db, q, None))
  {
    InTheWayIff(db, Claim(tenant, service, None, start, end), None);
  }

  /**
   So is a reschedule, and before either that the booking is not there, that its status does not allow it, or that its
   limit is reached.
   */
  lemma RescheduleSaysWhy(db: Db, tenant: Id, b: Id, start: int, end: int, maxCount: Option<int>)
    requires b < |db.bookings|
    ensures var row, o := db.bookings[b], Reschedule(db, tenant, b, start, end, maxCount);
            var q := Claim(tenant, row.service, None, start, end);
            var atLimit := maxCount.Some? && maxCount.value <= row.rescheduleCount;
            && (o == Failed(NotFound) <==> row.tenant != tenant)
            && (o == Failed(InvalidTransition) <==> row.tenant == tenant && row.status !in {Pending, Confirmed})
            && (o == Failed(RescheduleLimitReached)
                <==> row.tenant == tenant && row.status in {Pending, Confirmed} && atLimit)
            && (o == Failed(SlotBooked)
                <==> && row.tenant == tenant && row.status in {Pending, Confirmed} && !atLimit
                     && BookedInTheWay(db, q, Some(b)))
            && (o == Failed(SlotReserved)
                <==> && row.tenant == tenant && row.status in {Pending, Confirmed} && !atLimit
                     && !BookedInTheWay(db, q, Some(b)) && HeldInTheWay(db, q))
  {
    InTheWayIff(db, Claim(tenant, db.bookings[b].service, None, start, end), Some(b));
  }

  /**
   What a session that cannot be completed is told: first that it is unknown or closed, then that it has no service, no
   unexpired hold as picked, an unknown service, or neither client nor guest.
   */
  lemma CompletionSaysWhy(db: Db, tenant: Id, s: Id, pick: Id, service: Option<ServiceMode>)
    requires s < |db.sessions| && db.sessions[s].tenant == tenant
    ensures var row, o := db.sessions[s], Complete(db, tenant, s, pick, service);
            && (row.status != SessionInProgress <==> o == Failed(SessionNotInProgress))
            && (row.status == SessionInProgress ==>
                  && (row.service.None? <==> o == Failed(NoServiceSelected))
                  && (row.service.Some? ==>
                        && (!OwnActiveHold(db, tenant, s, pick) <==> o == Failed(NoActiveReservation))
                        && (OwnActiveHold(db, tenant, s, pick) ==>
                              && (service.None? <==> o == Failed(ServiceNotFound))
                              && (service.Some? && Nobody(row) <==> o == Failed(GuestDetailsMissing))
                              && (service.Some? && !Nobody(row) <==> o.Done?))))
  {
  }

  /** An unexpired HELD row of the session. */
  predicate OwnActiveHold(db: Db, tenant: Id, s: Id, h: Id) {
    && h < |db.holds| && db.holds[h].tenant == tenant && db.holds[h].session == s && db.holds[h].status == Held
    && db.now < db.holds[h].expiresAt
  }

  /** The session names neither a client nor a guest. */
  predicate Nobody(row: Session) {
    row.client == None && row.data.client == None && row.data.guest == None
  }

  /** What a payment that cannot be taken is told: the hold comes before the service. */
  lemma PaymentSaysWhy(db: Db, s: Id, pick: Id)
    requires s < |db.sessions|
    ensures var row, o := db.sessions[s], Pay(db, s, pick);
            && (row.status != SessionInProgress <==> o == Failed(SessionNotInProgress))
            && (row.status == SessionInProgress ==>
                  && (!OwnActiveHold(db, row.tenant, s, pick) <==> o == Failed(NoActiveReservation))
                  && (OwnActiveHold(db, row.tenant, s, pick) ==>
                        && (row.service.None? <==> o == Failed(NoServiceSelected))
                        && (row.service.Some? && Nobody(row) <==> o == Failed(GuestDetailsMissing))
                        && (row.service.Some? && !Nobody(row) <==> o.Done?)))
  {
  }

  /** What a portal request that cannot be met is told, in the order of its checks. */
  lemma PortalSaysWhy(db: Db, client: Id, b: Id, start: int, end: int, maxCount: Option<int>)
    requires b < |db.bookings| && db.bookings[b].client == client
    ensures var row, o := db.bookings[b], RequestReschedule(db, client, b, start, end, maxCount);
            var atLimit := CountedMoves(row.history) >= if maxCount == None then 3 else maxCount.value;
            && (o == Failed(InvalidTransition) <==> row.status !in {Pending, Confirmed})
            && (o == Failed(RescheduleLimitReached) <==> row.status in {Pending, Confirmed} && atLimit)
            && (o == Failed(StartNotInFuture)
                <==> row.status in {Pending, Confirmed} && !atLimit && start <= db.now)
            && (o == Failed(SlotBooked)
                <==> && row.status in {Pending, Confirmed} && !atLimit && start > db.now
                     && Booked(db, row.tenant, row.service, start, end, b))
  {
    LoopsAreCounted(db.bookings[b].history);
    PortalAcceptedIff(db, client, b, start, end, maxCount);
  }

  /** Nothing but a job's own query changes what it has picked. */
  lemma PicksStay(db: Db, op: Op)
    ensures !op.MissedQuery? ==> Step(db, op).picked.missed == db.picked.missed
    ensures !op.EndedQuery? ==> Step(db, op).picked.ended == db.picked.ended
    ensures !op.UnapprovedQuery? ==> Step(db, op).picked.unapproved == db.picked.unapproved
  {
  }

  /**
   A request to change the status of a booking is told that the booking is not there, that the move is none of its life,
   or that it is too early for a no-show, each exactly then and in this order.
   */
  lemma StatusRequestSaysWhy(db: Db, op: Op, b: Id)
    requires b < |db.bookings| && Wish(op).Some? && Wish(op).value.1 == b
    ensures var row, o := db.bookings[b], Apply(db, op);
            var mine, move := Wish(op).value.0 == row.tenant, (row.status, Wish(op).value.2);
            && (o == Failed(NotFound) <==> !mine)
            && (o == Failed(InvalidTransition) <==> mine && move !in MOVES)
            && (o == Failed(TooEarlyForNoShow) <==> mine && move in MOVES && !WaitedLongEnough(op, row, db.now))
            && (o.Done? <==> mine && move in MOVES && WaitedLongEnough(op, row, db.now))
  {
  }

  /**
   A check-in is refused unless the booking is there, confirmed and unchecked, a check-out unless it is checked in.
   */
  lemma CheckInSaysWhy(db: Db, tenant: Id, b: Id)
    requires b < |db.bookings|
    ensures var row, arrive, leave := db.bookings[b], CheckIn(db, tenant, b), CheckOut(db, tenant, b);
            && (arrive == Failed(NotFound) <==> row.tenant != tenant)
                  && (leave == Failed(NotFound) <==> row.tenant != tenant)
            && (arrive == Failed(InvalidCheckIn)
                <==> row.tenant == tenant && !(row.status == Confirmed && row.checkIn == CheckInPending))
            && (leave == Failed(InvalidCheckIn) <==> row.tenant == tenant && row.checkIn != CheckedIn)
            && (arrive.Failed? ==> arrive.error in {NotFound, InvalidCheckIn})
            && (leave.Failed? ==> leave.error in {NotFound, InvalidCheckIn})
  {
  }

  /** Editing and abandoning are told first that the session is unknown, then that it is closed. */
  lemma SessionSaysWhy(db: Db, tenant: Id, s: Id, p: Sessions.Patch)
    ensures var known := s < |db.sessions| && db.sessions[s].tenant == tenant;
            && (Update(db, tenant, s, p) == Failed(NotFound) <==> !known)
            && (Abandon(db, tenant, s) == Failed(NotFound) <==> !known)
            && (known ==>
                  var closed := db.sessions[s].status != SessionInProgress;
                  && (closed <==> Update(db, tenant, s, p) == Failed(SessionNotInProgress))
                  && (closed <==> Abandon(db, tenant, s) == Failed(SessionNotInProgress))
                  && (!closed <==> Update(db, tenant, s, p).Done?) && (!closed <==> Abandon(db, tenant, s).Done?))
  {
  }

  // ---------------------------------------------------------------------------
  // What a request returns
  // ---------------------------------------------------------------------------

  /** An accepted request returns the row it has inserted or the one it was about. */
  lemma AcceptedReturnsRow(db: Db, op: Op)
    requires Apply(db, op).Done?
    ensures var row := Apply(db, op).row;
            match op
            case ReserveSlot(_) => row == |db.holds| == |Step(db, op).holds| - 1
            case ReleaseHold(_, token) => row == token
            case OpenSession(_, _) => row == |db.sessions| == |Step(db, op).sessions| - 1
            case EditSession(_, s, _) => row == s
            case AbandonSession(_, s) => row == s
            case PaySession(s, _) => row == s
            case CompleteSession(_, _, _, _) => row == |db.bookings| == |Step(db, op).bookings| - 1
            case WalkInNow(_, _, _, _, _, _) => row == |db.bookings| == |Step(db, op).bookings| - 1
            case ImportRow(_, _, _, _) => row == |db.bookings| == |Step(db, op).bookings| - 1
            case _ => TargetOf(op) >= 0 ==> row == TargetOf(op)
  {
  }

  /** An import is told that it has no client before it is told that it has no service, and fails for nothing else. */
  lemma ImportSaysWhy(db: Db, tenant: Id, client: Option<Id>, found: Option<(Id, int)>, start: int)
    ensures Import(db, tenant, client, found, start) == Failed(ClientNotFound) <==> client == None
    ensures Import(db, tenant, client, found, start) == Failed(ServiceNotFound) <==> client != None && found == None
    ensures Import(db, tenant, client, found, start).Done? <==> client != None && found != None
  {
  }
}
