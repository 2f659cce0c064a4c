/**
 One working window cut into bookable slots: the slot generator of apps/api/src/availability/availability.service.ts.
 */
module SlotGrid {
  import opened Tables

  /** Minutes since midnight, as read from a TIME column. */
  type TimeOfDay = m: int | 0 <= m < 1440

  datatype Window = Window(start: TimeOfDay, end: TimeOfDay)

  datatype Interval = Interval(start: int, end: int)

  /** A bookable slot: a day number since 1970-01-01 and minutes since its midnight. */
  datatype Slot = Slot(day: int, start: int, end: int)

  /**
   A service's duration and buffers in minutes; the service DTOs demand at least one minute and no negative buffer.
   */
  datatype Timing = Timing(duration: int, before: int, after: int)
  {
    predicate Valid() {
      duration > 0 && before >= 0 && after >= 0
    }

    function Step(): int {
      before + duration + after
    }
  }

  /** dateWithMinutes, as an instant. */
  function At(day: int, minutes: int): int {
    Days(day) + Minutes(minutes)
  }

  predicate IsFree(s: Slot, conflicts: set<Interval>) {
    forall c :: c in conflicts ==> !Overlaps(At(s.day, s.start), At(s.day, s.end), c.start, c.end)
  }

  /** The slot that starts one buffer after a position. */
  function SlotAt(day: int, from: int, t: Timing): Slot {
    Slot(day, from + t.before, from + t.before + t.duration)
  }

  /** The k-th grid slot of a window that starts at from. */
  function GridSlot(day: int, from: int, t: Timing, k: nat): Slot {
    SlotAt(day, from + k * t.Step(), t)
  }

  /** The free grid slots of the window from a position on, earliest first. */
  function SlotsFrom(day: int, from: int, end: int, t: Timing, conflicts: set<Interval>): seq<Slot>
    requires t.Valid()
    decreases end - from
  {
    var s := SlotAt(day, from, t);
    if s.end > end then []
    else if IsFree(s, conflicts) then [s] + SlotsFrom(day, from + t.Step(), end, t, conflicts)
    else SlotsFrom(day, from + t.Step(), end, t, conflicts)
  }

  /** What has been pushed so far is followed by what the rest of the window gives. */
  ghost predicate PushedUpTo(slots: seq<Slot>, day: int, w: Window, t: Timing, conflicts: set<Interval>, position: int)
    requires t.Valid()
  {
    slots + SlotsFrom(day, position, w.end, t, conflicts) == SlotsFrom(day, w.start, w.end, t, conflicts)
  }

  lemma NothingPushedYet(day: int, w: Window, t: Timing, conflicts: set<Interval>)
    requires t.Valid()
    ensures PushedUpTo([], day, w, t, conflicts, w.start)
  {
  }

  lemma PushedOneMore(slots: seq<Slot>, day: int, w: Window, t: Timing, conflicts: set<Interval>, position: int)
    requires t.Valid() && PushedUpTo(slots, day, w, t, conflicts, position)
    requires SlotAt(day, position, t).end <= w.end
    ensures var s := SlotAt(day, position, t);
            PushedUpTo(if IsFree(s, conflicts) then slots + [s] else slots, day, w, t, conflicts, position + t.Step())
  {
    var s := SlotAt(day, position, t);
    var rest := SlotsFrom(day, position + t.Step(), w.end, t, conflicts);
    assert (slots + [s]) + rest == slots + ([s] + rest);
  }

  lemma AllPushed(slots: seq<Slot>, day: int, w: Window, t: Timing, conflicts: set<Interval>, position: int)
    requires t.Valid() && PushedUpTo(slots, day, w, t, conflicts, position)
    requires SlotAt(day, position, t).end > w.end
    ensures slots == SlotsFrom(day, w.start, w.end, t, conflicts)
  {
  }

  /** generateSlotsForWindow. */
  method GenerateSlotsForWindow(day: int, w: Window, t: Timing, conflicts: set<Interval>) returns (slots: seq<Slot>)
    requires t.Valid()
    ensures slots == SlotsFrom(day, w.start, w.end, t, conflicts)
  {
    slots := [];
    var stepMinutes := t.before + t.duration + t.after;
    var currentMinutes := w.start as int;
    NothingPushedYet(day, w, t, conflicts);
    while currentMinutes + t.duration <= w.end
      invariant PushedUpTo(slots, day, w, t, conflicts, currentMinutes)
      decreases w.end - currentMinutes
    {
      var slotStart := currentMinutes + t.before;
      var slotEnd := slotStart + t.duration;
      if slotEnd + t.after > w.end + t.after {
        if slotEnd > w.end {
          break;
        }
      }
      PushedOneMore(slots, day, w, t, conflicts, currentMinutes);
      var slot := Slot(day, slotStart, slotEnd);
      var hasConflict := exists c :: c in conflicts && Overlaps(At(day, slotStart), At(day, slotEnd), c.start, c.end);
      if !hasConflict {
        slots := slots + [slot];
      }
      currentMinutes := currentMinutes + stepMinutes;
    }
    AllPushed(slots, day, w, t, conflicts, currentMinutes);
  }

  lemma GridShift(day: int, from: int, t: Timing, k: nat)
    ensures GridSlot(day, from, t, k + 1) == GridSlot(day, from + t.Step(), t, k)
  {
    assert (k + 1) * t.Step() == k * t.Step() + t.Step();
  }

  /** Later grid positions end later. */
  lemma GridAdvances(day: int, from: int, t: Timing, k: nat)
    requires t.Valid()
    ensures GridSlot(day, from, t, k).start >= from + t.before
  {
    assert k * t.Step() >= 0;
  }

  /** A slot is generated exactly when it is a grid position that fits the window and overlaps no conflict. */
  lemma {:induction false} GeneratedIff(day: int, from: int, end: int, t: Timing, conflicts: set<Interval>, s: Slot)
    requires t.Valid()
    ensures s in SlotsFrom(day, from, end, t, conflicts)
            <==> s.end <= end && IsFree(s, conflicts) && exists k: nat :: s == GridSlot(day, from, t, k)
    decreases end - from
  {
    var first := SlotAt(day, from, t);
    if first.end > end {
      forall k: nat ensures GridSlot(day, from, t, k).end > end {
        GridAdvances(day, from, t, k);
      }
    } else {
      var rest := SlotsFrom(day, from + t.Step(), end, t, conflicts);
      GeneratedIff(day, from + t.Step(), end, t, conflicts, s);
      if s in rest {
        var k: nat :| s == GridSlot(day, from + t.Step(), t, k);
        GridShift(day, from, t, k);
      }
      assert first == GridSlot(day, from, t, 0);
      if k: nat :| s == GridSlot(day, from, t, k) {
        if k > 0 {
          GridShift(day, from, t, k - 1);
        }
      }
    }
  }

  /** Slots of one length that start no earlier than a position, each at least both buffers after the one before. */
  predicate Apart(slots: seq<Slot>, from: int, t: Timing) {
    && (forall i :: 0 <= i < |slots| ==>
          slots[i].start >= from + t.before && slots[i].end == slots[i].start + t.duration)
    && (forall i, j :: 0 <= i < j < |slots| ==> slots[i].end + t.after + t.before <= slots[j].start)
  }

  lemma {:induction false} GeneratedApart(day: int, from: int, end: int, t: Timing, conflicts: set<Interval>)
    requires t.Valid()
    ensures Apart(SlotsFrom(day, from, end, t, conflicts), from, t)
    decreases end - from
  {
    var first := SlotAt(day, from, t);
    if first.end > end {
    } else {
      GeneratedApart(day, from + t.Step(), end, t, conflicts);
      var rest := SlotsFrom(day, from + t.Step(), end, t, conflicts);
      assert Apart([first] + rest, from, t);
    }
  }

  /** Every slot leaves room for its after-buffer in the window, as the generator's comment asks. */
  predicate BuffersFit(slots: seq<Slot>, t: Timing, end: int) {
    forall i :: 0 <= i < |slots| ==> slots[i].end + t.after <= end
  }

  /**
   In a window without conflicts this is so exactly when what is left of the window after whole steps is too short for
   another slot; the window may also end before it starts.
   */
  lemma {:induction false} BuffersFitIff(day: int, from: int, end: int, t: Timing)
    requires t.Valid()
    ensures BuffersFit(SlotsFrom(day, from, end, t, {}), t, end)
            <==> end < from || (end - from) % t.Step() < t.before + t.duration
    decreases end - from
  {
    var first, slots := SlotAt(day, from, t), SlotsFrom(day, from, end, t, {});
    if first.end > end {
      if end >= from { Remainder(end - from, t.Step()); }
    } else {
      var rest := SlotsFrom(day, from + t.Step(), end, t, {});
      BuffersFitIff(day, from + t.Step(), end, t);
      assert slots == [first] + rest;
      assert BuffersFit(slots, t, end) <==> first.end + t.after <= end && BuffersFit(rest, t, end) by {
        if BuffersFit(slots, t, end) {
          assert slots[0] == first;
          forall i | 0 <= i < |rest| ensures rest[i].end + t.after <= end { assert slots[i + 1] == rest[i]; }
        }
      }
      if end - from < t.Step() { Remainder(end - from, t.Step()); } else { RemainderOfLess(end - from, t.Step()); }
    }
  }

  lemma Remainder(length: int, step: int)
    requires 0 <= length < step
    ensures length % step == length
  {
  }

  lemma RemainderOfLess(length: int, step: int)
    requires step > 0
    ensures (length - step) % step == length % step
  {
    var q, r := length / step, length % step;
    assert length - step == (q - 1) * step + r;
    RemainderIsUnique(length - step, step, q - 1, r);
  }

  lemma RemainderIsUnique(a: int, step: int, q: int, r: int)
    requires step > 0 && a == q * step + r && 0 <= r < step
    ensures a % step == r
  {
    var p := a / step;
    assert a == p * step + a % step;
    assert (p - q) * step == r - a % step;
    assert p - q >= 1 ==> (p - q) * step >= step;
    assert p - q <= -1 ==> (p - q) * step <= -step;
  }

  /** An hour of service with half an hour after it, in a window of one hour: the slot is offered all the same. */
  lemma BufferMayLeaveWindow(day: int)
    ensures var slots := SlotsFrom(day, 0, 60, Timing(60, 0, 30), {});
            slots == [Slot(day, 0, 60)] && !BuffersFit(slots, Timing(60, 0, 30), 60)
  {
    var slots := SlotsFrom(day, 0, 60, Timing(60, 0, 30), {});
    assert SlotsFrom(day, 90, 60, Timing(60, 0, 30), {}) == [];
    assert slots == [Slot(day, 0, 60)] && slots[0].end + 30 > 60;
  }

  /** The generator depends on the conflicts only through the slots of the window. */
  lemma {:induction false} SameConflictsSameSlots(day: int, from: int, end: int, t: Timing, c: set<Interval>,
      d: set<Interval>)
    requires t.Valid()
    requires forall s: Slot :: s.day == day && from + t.before <= s.start && s.end <= end ==>
               (IsFree(s, c) <==> IsFree(s, d))
    ensures SlotsFrom(day, from, end, t, c) == SlotsFrom(day, from, end, t, d)
    decreases end - from
  {
    if SlotAt(day, from, t).end > end {
    } else {
      SameConflictsSameSlots(day, from + t.Step(), end, t, c, d);
    }
  }
}
