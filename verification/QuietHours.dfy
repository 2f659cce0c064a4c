/** Quiet hours: apps/api/src/communications/quiet-hours.util.ts, in a time zone with a fixed offset. */
module QuietHours {

  type Hour = h: int | 0 <= h < 24

  datatype Config = Config(startHour: Hour, endHour: Hour)

  /** How a formatter without AM/PM writes the hour after midnight: as 0, or as 24. */
  datatype HourCycle = From0To23 | From1To24

  const MINUTE: int := 60_000

  /** Whole minutes since local midnight at a local instant in milliseconds. */
  function MinuteOfDay(t: int): (m: int)
    ensures 0 <= m < 1440
  {
    (t / 60_000) % 1440
  }

  /** The hour that the formatter shows. */
  function ShownHour(t: int, cycle: HourCycle): int {
    var h := MinuteOfDay(t) / 60;
    if h == 0 && cycle == From1To24 then 24 else h
  }

  /** isInQuietHours. */
  predicate IsInQuietHours(c: Config, t: int, cycle: HourCycle) {
    var hour := ShownHour(t, cycle);
    if c.startHour > c.endHour then hour >= c.startHour || hour < c.endHour
    else hour >= c.startHour && hour < c.endHour
  }

  /** The minutes that msUntilQuietHoursEnd computes, before its clamp to at least one. */
  function MinutesUntilEnd(c: Config, t: int, cycle: HourCycle): int {
    var hour := ShownHour(t, cycle);
    var hoursUntilEnd := if hour >= c.startHour then 24 - hour + c.endHour else c.endHour - hour;
    hoursUntilEnd * 60 - MinuteOfDay(t) % 60
  }

  /** msUntilQuietHoursEnd. */
  function MsUntilQuietHoursEnd(c: Config, t: int, cycle: HourCycle): int {
    var ms := MinutesUntilEnd(c, t, cycle) * 60_000;
    if ms >= MINUTE then ms else MINUTE
  }

  /** Quiet hours that end at midnight, with a formatter that shows the hour after it as 24. */
  predicate MidnightMisread(c: Config, cycle: HourCycle) {
    cycle == From1To24 && c.endHour == 0
  }

  lemma LaterMinute(t: int, k: int)
    ensures MinuteOfDay(t + k * 60_000) == (MinuteOfDay(t) + k) % 1440
  {
    assert (t + k * 60_000) / 60_000 == t / 60_000 + k;
  }

  /**
   A deferral in quiet hours lands in the minute endHour:00, outside quiet hours as the same formatter shows them, and
   its clamp is idle, exactly unless quiet hours end at midnight and the formatter shows the hour after it as 24.
   */
  lemma DeferralLandsAtEndIff(c: Config, t: int, cycle: HourCycle)
    requires IsInQuietHours(c, t, cycle)
    ensures var landing := t + MsUntilQuietHoursEnd(c, t, cycle);
            && MinutesUntilEnd(c, t, cycle) >= 1
            && MinuteOfDay(landing) == c.endHour * 60
            && !IsInQuietHours(c, landing, cycle)
            <==> !MidnightMisread(c, cycle)
  {
    LaterMinute(t, MinutesUntilEnd(c, t, cycle));
    LaterMinute(t, 1);
  }

  /**
   In that case it is still quiet all through the hour after midnight, and is deferred by the least minute each time.
   */
  lemma MisreadDefersByMinutes(c: Config, t: int, cycle: HourCycle)
    requires MidnightMisread(c, cycle) && c.startHour > 0 && MinuteOfDay(t) < 60
    ensures IsInQuietHours(c, t, cycle) && MsUntilQuietHoursEnd(c, t, cycle) == MINUTE
    ensures MinuteOfDay(t + MINUTE) == MinuteOfDay(t) + 1
  {
    LaterMinute(t, 1);
  }

  /** k whole minutes later quiet hours are over. */
  predicate OverAfter(c: Config, t: int, k: nat, cycle: HourCycle) {
    !IsInQuietHours(c, t + k * 60_000, cycle)
  }

  /** Quiet hours that span midnight, in minutes. */
  lemma SpanningMinutes(c: Config, t: int, cycle: HourCycle)
    requires c.startHour > c.endHour
    ensures IsInQuietHours(c, t, cycle)
            <==> MinuteOfDay(t) >= c.startHour * 60 || MinuteOfDay(t) < c.endHour * 60
                 || (cycle == From1To24 && MinuteOfDay(t) < 60)
    ensures var m := MinuteOfDay(t);
            MinutesUntilEnd(c, t, cycle) == (if m >= c.startHour * 60 then 1440 else 0) + c.endHour * 60 - m
  {
  }

  /** When quiet hours span midnight, no shorter deferral in whole minutes would do. */
  lemma LeastDeferral(c: Config, t: int, k: nat, cycle: HourCycle)
    requires c.startHour > c.endHour && IsInQuietHours(c, t, cycle)
    requires k < MinutesUntilEnd(c, t, cycle)
    ensures !OverAfter(c, t, k, cycle)
  {
    SpanningMinutes(c, t, cycle);
    LaterMinute(t, k);
    SpanningMinutes(c, t + k * 60_000, cycle);
  }

  /** Quiet hours within one day, in minutes. */
  lemma SameDayMinutes(c: Config, t: int, cycle: HourCycle)
    requires c.startHour <= c.endHour
    ensures IsInQuietHours(c, t, cycle)
            <==> c.startHour * 60 <= MinuteOfDay(t) < c.endHour * 60 && (cycle == From0To23 || MinuteOfDay(t) >= 60)
    ensures IsInQuietHours(c, t, cycle) ==> MinutesUntilEnd(c, t, cycle) == 1440 + c.endHour * 60 - MinuteOfDay(t)
  {
  }

  /** When they do not, the deferral is a whole day too long: quiet hours are over 24 hours before it lands. */
  lemma SameDayDefersADayTooLong(c: Config, t: int, cycle: HourCycle)
    requires c.startHour <= c.endHour && IsInQuietHours(c, t, cycle)
    ensures var k := MinutesUntilEnd(c, t, cycle) - 1440;
            k >= 1 && OverAfter(c, t, k, cycle) && forall j: nat :: j < k ==> !OverAfter(c, t, j, cycle)
  {
    var k := MinutesUntilEnd(c, t, cycle) - 1440;
    SameDayMinutes(c, t, cycle);
    SameDayLater(c, t, k, cycle);
    forall j: nat | j < k ensures !OverAfter(c, t, j, cycle) {
      SameDayLater(c, t, j, cycle);
    }
  }

  /** Within the same day, quiet hours are over once the end hour is reached. */
  lemma SameDayLater(c: Config, t: int, k: nat, cycle: HourCycle)
    requires c.startHour <= c.endHour && IsInQuietHours(c, t, cycle) && MinuteOfDay(t) + k < 1440
    ensures OverAfter(c, t, k, cycle) <==> MinuteOfDay(t) + k >= c.endHour * 60
  {
    SameDayMinutes(c, t, cycle);
    LaterMinute(t, k);
    SameDayMinutes(c, t + k * 60_000, cycle);
  }

  /**
   The two ways of writing hours disagree exactly in the hour after midnight and for quiet hours with one bound there:
   writing it as 24 misses the whole first hour of quiet hours that start at midnight, and adds one to those that end
   then.
   */
  lemma CyclesDisagreeIff(c: Config, t: int)
    ensures IsInQuietHours(c, t, From0To23) && !IsInQuietHours(c, t, From1To24)
            <==> MinuteOfDay(t) < 60 && c.startHour == 0 && c.endHour > 0
    ensures !IsInQuietHours(c, t, From0To23) && IsInQuietHours(c, t, From1To24)
            <==> MinuteOfDay(t) < 60 && c.startHour > 0 && c.endHour == 0
  {
    assert MinuteOfDay(t) / 60 == 0 <==> MinuteOfDay(t) < 60;
  }

  /** The quiet hours of a push: the defaults, 21:00 to 08:00. */
  const PUSH_HOURS: Config := Config(21, 8)

  datatype Handling = Send | Requeue(delay: int)

  /** The quiet-hours part of the push delivery job. */
  function HandlePush(t: int, cycle: HourCycle): Handling {
    if IsInQuietHours(PUSH_HOURS, t, cycle) then Requeue(MsUntilQuietHoursEnd(PUSH_HOURS, t, cycle)) else Send
  }

  /** A push is deferred at most once: when its delay is over, the job sends it. */
  lemma DeferredAtMostOnce(t: int, cycle: HourCycle)
    ensures HandlePush(t, cycle).Requeue? ==> HandlePush(t + HandlePush(t, cycle).delay, cycle) == Send
  {
    if HandlePush(t, cycle).Requeue? {
      DeferralLandsAtEndIff(PUSH_HOURS, t, cycle);
    }
  }

  /** A minute of a day, at any instant of it and on any day, before 1970 too. */
  lemma MinuteIs(day: int, minute: int, ms: int)
    requires 0 <= minute < 1440 && 0 <= ms < 60_000
    ensures MinuteOfDay(day * 86_400_000 + minute * 60_000 + ms) == minute
  {
    var t := day * 86_400_000 + minute * 60_000 + ms;
    assert t / 60_000 == day * 1440 + minute;
  }

  /**
   With hours written from 0 to 23 a push is held back exactly from 21:00 to 08:00; the other way of writing makes no
   difference to it.
   */
  lemma PushWaitsIff(t: int, cycle: HourCycle)
    ensures HandlePush(t, cycle).Requeue? <==> MinuteOfDay(t) >= 21 * 60 || MinuteOfDay(t) < 8 * 60
  {
    SpanningMinutes(PUSH_HOURS, t, cycle);
  }
}
