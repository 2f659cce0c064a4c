/** How many rows can occupy one instant of a service. */
module Capacity {
  import opened Tables
  import opened Reservations
  import opened Sessions
  import opened Bookings
  import opened Jobs
  import opened Portal
  import opened Protocol

  predicate Covers(c: Claim, tenant: Id, service: Id, t: int) {
    c.tenant == tenant && c.service == service && c.start <= t < c.end
  }

  /** The rows that occupy instant t of a service. */
  function Covering(db: Db, tenant: Id, service: Id, t: int): set<Occupier> {
    (set h: nat | h < |db.holds| && Occupies(db, HoldRow(h))
        && Covers(HoldClaim(db.holds[h]), tenant, service, t) :: HoldRow(h)) +
    (set b: nat | b < |db.bookings| && Occupies(db, BookingRow(b))
        && Covers(BookingClaim(db.bookings[b]), tenant, service, t) :: BookingRow(b))
  }

  /** The staff members that the holds and bookings of the service name, whatever their status. */
  function NamedStaff(db: Db, tenant: Id, service: Id): set<Id> {
    (set h: nat | h < |db.holds| && db.holds[h].tenant == tenant && db.holds[h].service == service
        && db.holds[h].staff.Some?
      :: db.holds[h].staff.value) +
    (set b: nat | b < |db.bookings| && db.bookings[b].tenant == tenant && db.bookings[b].service == service
        && db.bookings[b].staff.Some?
      :: db.bookings[b].staff.value)
  }

  /** Rows that all cover t and name staff from a given list (or nobody) are at most as many as the list. */
  lemma {:induction false} AtMostOnePerStaff(db: Db, tenant: Id, service: Id, t: int, rows: set<Occupier>,
      staff: set<Option<Id>>)
    requires NoDoubleBooking(db)
    requires forall o :: o in rows ==>
               Occupies(db, o) && Covers(ClaimOf(db, o), tenant, service, t) && ClaimOf(db, o).staff in staff
    ensures |rows| <= |staff|
    decreases rows
  {
    if rows == {} {
    } else {
      var o :| o in rows;
      forall p | p in rows - {o} ensures ClaimOf(db, p).staff in staff - {ClaimOf(db, o).staff} {
        assert !Clash(ClaimOf(db, o), ClaimOf(db, p));
      }
      AtMostOnePerStaff(db, tenant, service, t, rows - {o}, staff - {ClaimOf(db, o).staff});
    }
  }

  function Optional(staff: set<Id>): set<Option<Id>> {
    set s | s in staff :: Some(s)
  }

  lemma {:induction false} OptionalSize(staff: set<Id>)
    ensures |Optional(staff)| == |staff|
  {
    if staff == {} {
    } else {
      var s :| s in staff;
      assert Optional(staff) == Optional(staff - {s}) + {Some(s)};
      OptionalSize(staff - {s});
    }
  }

  /**
   Without double bookings, an instant of a service is occupied at most once per named staff member, plus once for
   nobody.
   */
  lemma CapacityBound(db: Db, tenant: Id, service: Id, t: int)
    requires NoDoubleBooking(db)
    ensures |Covering(db, tenant, service, t)| <= |NamedStaff(db, tenant, service)| + 1
  {
    var staff := Optional(NamedStaff(db, tenant, service)) + {None};
    var rows := Covering(db, tenant, service, t);
    forall o | o in rows
      ensures Occupies(db, o) && Covers(ClaimOf(db, o), tenant, service, t) && ClaimOf(db, o).staff in staff
    {
      match o
      case HoldRow(h) =>
        if db.holds[h].staff.Some? { assert db.holds[h].staff.value in NamedStaff(db, tenant, service); }
      case BookingRow(b) =>
        if db.bookings[b].staff.Some? { assert db.bookings[b].staff.value in NamedStaff(db, tenant, service); }
    }
    AtMostOnePerStaff(db, tenant, service, t, rows, staff);
    OptionalSize(NamedStaff(db, tenant, service));
  }

  /** No request of the run names a staff member. */
  predicate NamesNobody(op: Op) {
    && (op.ReserveSlot? ==> op.params.staff.None?)
    && (op.EditSession? ==> op.patch.staff.None? || op.patch.staff.value.None?)
  }

  predicate NobodyNamed(db: Db) {
    && (forall h :: 0 <= h < |db.holds| ==> db.holds[h].staff.None?)
    && (forall s :: 0 <= s < |db.sessions| ==> db.sessions[s].data.staff.None?)
    && (forall b :: 0 <= b < |db.bookings| ==> db.bookings[b].staff.None?)
  }

  lemma StepNamesNobody(db: Db, op: Op)
    requires NobodyNamed(db) && NamesNobody(op)
    ensures NobodyNamed(Step(db, op))
  {
    var db' := Step(db, op);
    StepChangesRows(db, op);
    assert forall b :: 0 <= b < |db'.bookings| ==> db'.bookings[b].staff.None?;
    StepNamesNobodyElsewhere(db, op);
  }

  lemma StepNamesNobodyElsewhere(db: Db, op: Op)
    requires NobodyNamed(db) && NamesNobody(op)
    ensures forall h :: 0 <= h < |Step(db, op).holds| ==> Step(db, op).holds[h].staff.None?
    ensures forall s :: 0 <= s < |Step(db, op).sessions| ==> Step(db, op).sessions[s].data.staff.None?
  {
  }

  lemma {:induction false} RunNamesNobody(db: Db, ops: seq<Op>)
    requires NobodyNamed(db) && forall i :: 0 <= i < |ops| ==> NamesNobody(ops[i])
    ensures NobodyNamed(Run(db, ops))
    decreases |ops|
  {
    if ops == [] {
    } else {
      StepNamesNobody(db, ops[0]);
      RunNamesNobody(Step(db, ops[0]), ops[1..]);
    }
  }

  lemma {:induction false} SafeAtTheEnd(db: Db, ops: seq<Op>)
    requires SafeThroughout(db, ops)
    ensures NoDoubleBooking(Run(db, ops))
    decreases |ops|
  {
    if ops == [] {
    } else {
      SafeAtTheEnd(Step(db, ops[0]), ops[1..]);
    }
  }

  /** In every state a matched run reaches, an instant is occupied at most once per named staff member, plus once. */
  lemma CapacityOverRuns(now: int, ops: seq<Op>, tenant: Id, service: Id, t: int)
    requires Matched(Empty(now), ops)
    ensures |Covering(Run(Empty(now), ops), tenant, service, t)|
            <= |NamedStaff(Run(Empty(now), ops), tenant, service)| + 1
  {
    MatchedRunsAreSafe(Empty(now), ops);
    SafeAtTheEnd(Empty(now), ops);
    CapacityBound(Run(Empty(now), ops), tenant, service, t);
  }

  lemma NobodyInNobodyNamed(db: Db, tenant: Id, service: Id)
    requires NobodyNamed(db)
    ensures NamedStaff(db, tenant, service) == {}
  {
  }

  /** When the run names no staff member, an instant of a service is occupied at most once. */
  lemma OneAtATime(now: int, ops: seq<Op>, tenant: Id, service: Id, t: int)
    requires Matched(Empty(now), ops)
    requires forall i :: 0 <= i < |ops| ==> NamesNobody(ops[i])
    ensures |Covering(Run(Empty(now), ops), tenant, service, t)| <= 1
  {
    RunNamesNobody(Empty(now), ops);
    NobodyInNobodyNamed(Run(Empty(now), ops), tenant, service);
    CapacityOverRuns(now, ops, tenant, service, t);
  }

  /** After a hold that names nobody, a request for the same time naming any idle staff member is still accepted. */
  lemma NamedBesideUnnamed(db: Db, p: ReserveParams, staff: Id)
    requires Reserve(db, p).Done? && p.staff.None?
    ensures Reserve(Reserve(db, p).db, p.(staff := Some(staff))).Done?
  {
    var held := Reserve(db, p).db;
    var tenant := db.sessions[p.session].tenant;
    var named := p.(staff := Some(staff));
    var q := RequestClaim(tenant, named);
    forall o | Occupies(held, o) && Conflicts(q, ClaimOf(held, o)) ensures false {
      assert o != HoldRow(|db.holds|);
      assert Occupies(db, o) && Conflicts(RequestClaim(tenant, p), ClaimOf(db, o));
      ReserveRefusedIff(db, p);
    }
    ReserveRefusedIff(held, named);
  }

  // ---------------------------------------------------------------------------
  // The bound is reached
  // ---------------------------------------------------------------------------

  /** A request of session 0 for the first minute of service 1. */
  function Request(staff: Option<Id>): ReserveParams {
    ReserveParams(0, 1, None, staff, 0, 60_000)
  }

  /** Requests naming the first n staff members, one after the other. */
  function NamingEach(n: nat): seq<Op> {
    if n == 0 then [] else NamingEach(n - 1) + [ReserveSlot(Request(Some(n - 1)))]
  }

  /** A session, a request that names nobody, and one for each of n staff members. */
  function CrowdingRun(n: nat): seq<Op> {
    [OpenSession(0, Some(1)), ReserveSlot(Request(None))] + NamingEach(n)
  }

  function HoldFor(staff: Option<Id>): Hold {
    Hold(0, 0, 1, None, staff, 0, 60_000, HOLD_MS, Held)
  }

  /** Nobody, then staff members 0, 1, 2, ... */
  function StaffAt(i: nat): Option<Id> {
    if i == 0 then None else Some(i - 1)
  }

  /** The tables after that run. */
  function Crowded(n: nat): Db {
    var session := Session(0, Some(1), None, SessionData(None, None, None), SessionInProgress, None);
    Db(0, seq(n + 1, i requires 0 <= i <= n => HoldFor(StaffAt(i))), [session], [], Picked({}, {}, {}))
  }

  lemma OneMoreAccepted(n: nat)
    ensures Step(Crowded(n), ReserveSlot(Request(Some(n)))) == Crowded(n + 1)
  {
    var db, q := Crowded(n), RequestClaim(0, Request(Some(n)));
    assert forall h :: 0 <= h < |db.holds| ==> db.holds[h].staff != Some(n);
    assert !HoldConflict(db, q) && !BookingConflict(db, q, None);
    assert Crowded(n + 1).holds == db.holds + [HoldFor(Some(n))];
  }

  lemma {:induction false} CrowdReached(n: nat)
    ensures Run(Crowded(0), NamingEach(n)) == Crowded(n)
  {
    if n == 0 {
    } else {
      CrowdReached(n - 1);
      var last := [ReserveSlot(Request(Some(n - 1)))];
      RunConcat(Crowded(0), NamingEach(n - 1), last);
      OneMoreAccepted(n - 1);
      assert last[1..] == [];
      assert Run(Crowded(n - 1), last) == Run(Step(Crowded(n - 1), last[0]), []);
    }
  }

  lemma {:induction false} OnlyReservations(n: nat)
    ensures forall i :: 0 <= i < |NamingEach(n)| ==> NamingEach(n)[i].ReserveSlot?
  {
    if n == 0 {
    } else {
      OnlyReservations(n - 1);
    }
  }

  lemma {:induction false} ReservationsMatch(db: Db, ops: seq<Op>)
    requires forall i :: 0 <= i < |ops| ==> ops[i].ReserveSlot? || ops[i].OpenSession?
    ensures Matched(db, ops)
    decreases |ops|
  {
    if ops == [] {
    } else {
      ReservationsMatch(Step(db, ops[0]), ops[1..]);
    }
  }

  lemma FirstHoldReached(n: nat)
    ensures Run(Empty(0), CrowdingRun(n)) == Run(Crowded(0), NamingEach(n))
  {
    var ops := CrowdingRun(n);
    var begun := Crowded(0).(holds := []);
    assert Step(Empty(0), ops[0]) == begun;
    assert Step(begun, ops[1]) == Crowded(0);
    assert ops[1..][1..] == NamingEach(n);
    assert Run(Empty(0), ops) == Run(begun, ops[1..]);
  }

  function FirstIds(n: nat): (ids: set<Id>)
    ensures |ids| == n && forall s: nat :: s in ids <==> s < n
  {
    if n == 0 then {} else FirstIds(n - 1) + {n - 1}
  }

  function FirstRows(n: nat): (rows: set<Occupier>)
    ensures |rows| == n && forall o :: o in rows <==> o.HoldRow? && o.h < n
  {
    if n == 0 then {} else FirstRows(n - 1) + {HoldRow(n - 1)}
  }

  /** n + 1 holds for the first minute, the first naming nobody and the others one staff member each. */
  predicate IsCrowd(db: Db, n: nat) {
    && db.now == 0 && db.bookings == [] && |db.holds| == n + 1
    && forall h :: 0 <= h <= n ==> db.holds[h] == HoldFor(StaffAt(h))
  }

  lemma CrowdCovers(db: Db, n: nat)
    requires IsCrowd(db, n)
    ensures Covering(db, 0, 1, 0) == FirstRows(n + 1)
  {
    forall h: nat | h < n + 1 ensures Occupies(db, HoldRow(h)) && Covers(HoldClaim(db.holds[h]), 0, 1, 0) {
      assert db.holds[h] == HoldFor(StaffAt(h));
    }
  }

  lemma CrowdIsNamed(db: Db, n: nat)
    requires IsCrowd(db, n)
    ensures NamedStaff(db, 0, 1) == FirstIds(n)
  {
    forall s: nat | s < n ensures s in NamedStaff(db, 0, 1) {
      assert db.holds[s + 1] == HoldFor(StaffAt(s + 1));
    }
  }

  /** For every n a matched run reaches tables in which n staff members are named and n + 1 rows occupy one instant. */
  lemma CapacityIsReached(n: nat)
    ensures Matched(Empty(0), CrowdingRun(n))
    ensures var db := Run(Empty(0), CrowdingRun(n));
            |NamedStaff(db, 0, 1)| == n && |Covering(db, 0, 1, 0)| == n + 1
  {
    OnlyReservations(n);
    ReservationsMatch(Empty(0), CrowdingRun(n));
    FirstHoldReached(n);
    CrowdReached(n);
    CrowdCovers(Crowded(n), n);
    CrowdIsNamed(Crowded(n), n);
  }
}
