/** What a session's edits and payments decide about the booking it is completed into. */
module SessionEdits {
  import opened Tables
  import opened Reservations
  import opened Sessions
  import opened Bookings
  import opened Protocol
  import opened HoldPromise

  // ---------------------------------------------------------------------------
  // The last edit of each key
  // ---------------------------------------------------------------------------

  datatype Key = ClientKey | GuestKey | StaffKey

  function KeyOf(data: SessionData, key: Key): Option<Id> {
    match key
    case ClientKey => data.client
    case GuestKey => data.guest
    case StaffKey => data.staff
  }

  /** What an edit gives for a key, which may be nobody; None when it does not mention the key. */
  function Given(p: Patch, key: Key): Option<Option<Id>> {
    match key
    case ClientKey => p.client
    case GuestKey => p.guest
    case StaffKey => p.staff
  }

  /** An edit of session s by its tenant while the session is in progress. */
  predicate Edits(db: Db, op: Op, s: Id) {
    && op.EditSession? && op.session == s && s < |db.sessions|
    && db.sessions[s].tenant == op.tenant && db.sessions[s].status == SessionInProgress
  }

  /** What the last of the run's edits of s to mention the key gave for it, or what there was before. */
  function LastGiven(db: Db, ops: seq<Op>, s: Id, key: Key, before: Option<Id>): Option<Id>
    decreases |ops|
  {
    if ops == [] then before
    else
      var gives := Edits(db, ops[0], s) && Given(ops[0].patch, key).Some?;
      LastGiven(Step(db, ops[0]), ops[1..], s, key, if gives then Given(ops[0].patch, key).value else before)
  }

  /** The service that the last of the run's edits of s to choose one chose, or the one there was before. */
  function LastService(db: Db, ops: seq<Op>, s: Id, before: Option<Id>): Option<Id>
    decreases |ops|
  {
    if ops == [] then before
    else
      var gives := Edits(db, ops[0], s) && ops[0].patch.service.Some?;
      LastService(Step(db, ops[0]), ops[1..], s, if gives then ops[0].patch.service else before)
  }

  lemma StepGives(db: Db, op: Op, s: Id, key: Key)
    requires s < |db.sessions|
    ensures s < |Step(db, op).sessions|
    ensures KeyOf(Step(db, op).sessions[s].data, key) ==
            if Edits(db, op, s) && Given(op.patch, key).Some? then Given(op.patch, key).value
            else KeyOf(db.sessions[s].data, key)
    ensures Step(db, op).sessions[s].service ==
            if Edits(db, op, s) && op.patch.service.Some? then op.patch.service else db.sessions[s].service
  {
    if OnlyOnBookings(op) { OnlyBookingsChange(db, op); }
  }

  /** Over every run a session's data and service are what its last edits gave. */
  lemma {:induction false} LastEditStays(db: Db, ops: seq<Op>, s: Id, key: Key)
    requires s < |db.sessions|
    ensures s < |Run(db, ops).sessions|
    ensures KeyOf(Run(db, ops).sessions[s].data, key)
            == LastGiven(db, ops, s, key, KeyOf(db.sessions[s].data, key))
    ensures Run(db, ops).sessions[s].service == LastService(db, ops, s, db.sessions[s].service)
    decreases |ops|
  {
    if ops == [] {
    } else {
      StepGives(db, ops[0], s, key);
      LastEditStays(Step(db, ops[0]), ops[1..], s, key);
    }
  }

  // ---------------------------------------------------------------------------
  // The client of the session
  // ---------------------------------------------------------------------------

  /** A payment for a session that names no client looks its guest up and stores the user found. */
  predicate StoresGuest(db: Db, op: Op, s: Id) {
    && op.PaySession? && op.session == s && Apply(db, op).Done?
    && db.sessions[s].client.None? && db.sessions[s].data.client.None?
  }

  lemma StepKeepsClient(db: Db, op: Op, s: Id)
    requires s < |db.sessions| && !(op.CompleteSession? && op.session == s && Apply(db, op).Done?)
    ensures s < |Step(db, op).sessions|
    ensures Step(db, op).sessions[s].client
            == if StoresGuest(db, op, s) then db.sessions[s].data.guest else db.sessions[s].client
  {
    if OnlyOnBookings(op) { OnlyBookingsChange(db, op); }
  }

  predicate CompletesIt(db: Db, op: Op, s: Id) {
    op.CompleteSession? && op.session == s && Apply(db, op).Done?
  }

  /**
   A session is closed by its tenant's abandoning it or by completing it, each exactly then; completing it records the
   hold used and, for a session that named no client, the user of its guest.
   */
  lemma SessionFollows(db: Db, op: Op, s: Id)
    requires s < |db.sessions|
    ensures s < |Step(db, op).sessions|
    ensures var was, now := db.sessions[s], Step(db, op).sessions[s];
            && now.tenant == was.tenant
            && now.status == (if CompletesIt(db, op, s) then SessionCompleted
                              else if was.status == SessionInProgress && op == AbandonSession(was.tenant, s) then
                                SessionAbandoned
                              else was.status)
            && now.token == (if CompletesIt(db, op, s) then Some(op.pick) else was.token)
            && (CompletesIt(db, op, s) && was.client.None? && was.data.client.None? ==> now.client == was.data.guest)
            && (CompletesIt(db, op, s) && (was.client.Some? || was.data.client.Some?) ==> now.client == was.client)
  {
    if OnlyOnBookings(op) { OnlyBookingsChange(db, op); }
  }

  /** A closed session is never edited, paid for, completed or abandoned again. */
  lemma ClosedStays(db: Db, op: Op, s: Id)
    requires s < |db.sessions| && db.sessions[s].status != SessionInProgress
    ensures s < |Step(db, op).sessions| && Step(db, op).sessions[s] == db.sessions[s]
  {
    if OnlyOnBookings(op) { OnlyBookingsChange(db, op); }
  }

  lemma {:induction false} ClosedIsFinal(db: Db, ops: seq<Op>, s: Id)
    requires s < |db.sessions| && db.sessions[s].status != SessionInProgress
    ensures s < |Run(db, ops).sessions| && Run(db, ops).sessions[s] == db.sessions[s]
    decreases |ops|
  {
    if ops == [] {
    } else {
      ClosedStays(db, ops[0], s);
      ClosedIsFinal(Step(db, ops[0]), ops[1..], s);
    }
  }

  /** The user stored by the first of the run's payments to look up the session's guest, or the client from before. */
  function StoredGuest(db: Db, ops: seq<Op>, s: Id, before: Option<Id>): Option<Id>
    decreases |ops|
  {
    if ops == [] then before
    else
      var stores := StoresGuest(db, ops[0], s);
      StoredGuest(Step(db, ops[0]), ops[1..], s, if stores then db.sessions[s].data.guest else before)
  }

  /** A session that is in progress at the end of a run was so in every state of it. */
  lemma OpenThroughout(db: Db, ops: seq<Op>, s: Id)
    requires s < |db.sessions| && ops != []
    requires s < |Run(db, ops).sessions| && Run(db, ops).sessions[s].status == SessionInProgress
    ensures s < |Step(db, ops[0]).sessions| && Step(db, ops[0]).sessions[s].status == SessionInProgress
    ensures !(ops[0].CompleteSession? && ops[0].session == s && Apply(db, ops[0]).Done?)
  {
    StepKeepsRows(db, ops[0]);
    if Step(db, ops[0]).sessions[s].status != SessionInProgress {
      ClosedIsFinal(Step(db, ops[0]), ops[1..], s);
    }
  }

  lemma {:induction false} StoredGuestStays(db: Db, ops: seq<Op>, s: Id)
    requires s < |db.sessions|
    requires s < |Run(db, ops).sessions| && Run(db, ops).sessions[s].status == SessionInProgress
    ensures Run(db, ops).sessions[s].client == StoredGuest(db, ops, s, db.sessions[s].client)
    decreases |ops|
  {
    if ops == [] {
    } else {
      OpenThroughout(db, ops, s);
      StepKeepsClient(db, ops[0], s);
      StoredGuestStays(Step(db, ops[0]), ops[1..], s);
    }
  }

  // ---------------------------------------------------------------------------
  // The booking of a completed session
  // ---------------------------------------------------------------------------

  /** Whom the booking is for: the user that a payment has stored, else the client given, else the guest. */
  function Chosen(stored: Option<Id>, client: Option<Id>, guest: Option<Id>): Option<Id> {
    match (stored, client)
    case (Some(_), _) => stored
    case (None, Some(_)) => client
    case (None, None) => guest
  }

  /**
   Whatever a session opened with svc goes through on its way: the booking it is completed into has the service and the
   staff member that its last edits gave, nobody if none did, and is for the user that its first payment stored, else
   for the client or (without one) the guest that its last edits gave. Time and venue are those of the hold.
   */
  lemma BookedAsEdited(db: Db, tenant: Id, svc: Option<Id>, ops: seq<Op>, pick: Id, mode: ServiceMode)
    requires Complete(Run(Step(db, OpenSession(tenant, svc)), ops), tenant, |db.sessions|, pick, Some(mode)).Done?
    ensures var begun, s := Step(db, OpenSession(tenant, svc)), |db.sessions|;
            var d := Run(begun, ops);
            var b, hold := BookingOf(d, tenant, s, pick, mode), d.holds[pick];
            && b.tenant == tenant && b.start == hold.start && b.end == hold.end && b.venue == hold.venue
            && Some(b.service) == LastService(begun, ops, s, svc)
            && b.staff == LastGiven(begun, ops, s, StaffKey, None)
            && Some(b.client) == Chosen(StoredGuest(begun, ops, s, None), LastGiven(begun, ops, s, ClientKey, None),
                   LastGiven(begun, ops, s, GuestKey, None))
            && b.status == (if mode.autoConfirm then Confirmed else Pending)
  {
    var begun, s := Step(db, OpenSession(tenant, svc)), |db.sessions|;
    LastEditStays(begun, ops, s, ClientKey);
    LastEditStays(begun, ops, s, GuestKey);
    LastEditStays(begun, ops, s, StaffKey);
    StoredGuestStays(begun, ops, s);
    NewSessionIsBlank(db, tenant, svc);
    CompletedRow(Run(begun, ops), tenant, s, pick, mode);
  }

  lemma NewSessionIsBlank(db: Db, tenant: Id, svc: Option<Id>)
    ensures var begun := Step(db, OpenSession(tenant, svc));
            && |begun.sessions| == |db.sessions| + 1
            && var row := begun.sessions[|db.sessions|];
               && row.tenant == tenant && row.service == svc && row.client.None? && row.token.None?
               && row.status == SessionInProgress
               && forall key :: KeyOf(row.data, key).None?
  {
  }

  lemma CompletedRow(d: Db, tenant: Id, s: Id, pick: Id, mode: ServiceMode)
    requires Complete(d, tenant, s, pick, Some(mode)).Done?
    ensures s < |d.sessions| && d.sessions[s].status == SessionInProgress && d.sessions[s].tenant == tenant
    ensures var row, b, hold := d.sessions[s], BookingOf(d, tenant, s, pick, mode), d.holds[pick];
            && b.tenant == tenant && b.start == hold.start && b.end == hold.end && b.venue == hold.venue
            && Some(b.service) == row.service && b.staff == KeyOf(row.data, StaffKey)
            && Some(b.client) == Chosen(row.client, KeyOf(row.data, ClientKey), KeyOf(row.data, GuestKey))
            && b.status == (if mode.autoConfirm then Confirmed else Pending)
  {
  }

  /** Once a payment has stored the guest, no edit decides any more whom the booking is for. */
  lemma PaidGuestSticks(db: Db, pay: Op, ops: seq<Op>, s: Id)
    requires StoresGuest(db, pay, s) && s < |Run(Step(db, pay), ops).sessions|
    requires Run(Step(db, pay), ops).sessions[s].status == SessionInProgress
    ensures ClientFor(Run(Step(db, pay), ops).sessions[s]) == db.sessions[s].data.guest
  {
    StepKeepsClient(db, pay, s);
    StoredOnce(Step(db, pay), ops, s);
  }

  /** What is stored is not replaced. */
  lemma {:induction false} StoredOnce(db: Db, ops: seq<Op>, s: Id)
    requires s < |db.sessions| && db.sessions[s].client.Some?
    requires s < |Run(db, ops).sessions| && Run(db, ops).sessions[s].status == SessionInProgress
    ensures Run(db, ops).sessions[s].client == db.sessions[s].client
    decreases |ops|
  {
    if ops == [] {
    } else {
      OpenThroughout(db, ops, s);
      StepKeepsClient(db, ops[0], s);
      StoredOnce(Step(db, ops[0]), ops[1..], s);
    }
  }

  // ---------------------------------------------------------------------------
  // The booking of a payment
  // ---------------------------------------------------------------------------

  /** A PENDING or CONFIRMED booking of the tenant and service for exactly the interval. */
  ghost predicate HasLiveBooking(db: Db, tenant: Id, service: Id, start: int, end: int) {
    exists b :: b in db.bookings && b.tenant == tenant && b.service == service && b.start == start && b.end == end
             && (b.status == Pending || b.status == Confirmed)
  }

  /**
   A payment inserts a booking exactly when the hold's interval has no live one yet: a PENDING one for the session's
   client, staff member and service.
   */
  lemma PaymentInsertsIff(db: Db, pay: Op)
    requires pay.PaySession? && Apply(db, pay).Done?
    ensures var row, hold, db' := db.sessions[pay.session], db.holds[pay.pick], Step(db, pay);
            && row.service.Some?
            && (db'.bookings != db.bookings <==> !HasLiveBooking(db, row.tenant, row.service.value, hold.start,
                  hold.end))
            && (db'.bookings != db.bookings ==>
                  && |db'.bookings| == |db.bookings| + 1
                  && var b := db'.bookings[|db.bookings|];
                     && BookedAs(b, hold.start, hold.end, hold.venue, row, ServiceMode(false))
                     && b.origin == FromPayment(pay.session))
  {
    var row, hold := db.sessions[pay.session], db.holds[pay.pick];
    var matching := MatchingBookings(db, row.tenant, row.service.value, hold);
    if HasLiveBooking(db, row.tenant, row.service.value, hold.start, hold.end) {
      var b :| b in db.bookings && b.tenant == row.tenant && b.service == row.service.value
          && b.start == hold.start && b.end == hold.end && (b.status == Pending || b.status == Confirmed);
      var i :| 0 <= i < |db.bookings| && db.bookings[i] == b;
      assert i in matching;
    } else {
      forall i: nat ensures i !in matching {
        assert i < |db.bookings| ==> db.bookings[i] in db.bookings;
      }
      assert matching == {};
    }
  }

  /** Paying again with the same hold goes through and inserts nothing. */
  lemma PayingAgainInsertsNothing(db: Db, pay: Op)
    requires pay.PaySession? && Apply(db, pay).Done?
    ensures var paid := Step(db, pay);
            Apply(paid, pay).Done? && Step(paid, pay).bookings == paid.bookings
  {
    var row, hold, paid := db.sessions[pay.session], db.holds[pay.pick], Step(db, pay);
    PaymentInsertsIff(db, pay);
    assert ActiveHoldsOf(paid, row.tenant, pay.session) == ActiveHoldsOf(db, row.tenant, pay.session);
    PaymentInsertsIff(paid, pay);
    assert HasLiveBooking(paid, row.tenant, row.service.value, hold.start, hold.end) by {
      if paid.bookings != db.bookings {
        assert paid.bookings[|db.bookings|] in paid.bookings;
      }
    }
  }
}
