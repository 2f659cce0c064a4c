/** Reading the iCalendar feed back: what each property of the header and of an event says. */
module IcalReader {
  import opened Tables
  import opened IcalFeed

  /** Reading a line: its value, if it is a line of the property. */
  function ValueOf(line: string, property: string): Option<string> {
    if |property| < |line| && line[..|property|] == property && line[|property|] == ':' then
      Some(line[|property| + 1..])
    else None
  }

  /** The values of a property among the first n lines. */
  function Values(lines: seq<string>, n: nat, property: string): seq<string>
    requires n <= |lines|
  {
    if n == 0 then []
    else
      match ValueOf(lines[n - 1], property)
      case None => Values(lines, n - 1, property)
      case Some(value) => Values(lines, n - 1, property) + [value]
  }

  lemma OwnValue(property: string, value: string)
    ensures ValueOf(property + ":" + value, property) == Some(value)
  {
    var line := property + ":" + value;
    assert line[..|property|] == property && line[|property| + 1..] == value;
  }

  lemma OtherValue(other: string, value: string, property: string)
    requires ':' !in other && ':' !in property && other != property
    ensures ValueOf(other + ":" + value, property) == None
  {
    var line := other + ":" + value;
    assert line[..|other|] == other && line[|other|] == ':';
    assert |property| < |other| ==> line[|property|] == other[|property|];
    assert |other| < |property| <= |line| ==> line[..|property|][|other|] == ':';
  }

  /** Each line is a name, a colon and a value. */
  predicate Fields(lines: seq<string>, names: seq<string>, values: seq<string>) {
    && |lines| == |names| == |values|
    && forall i :: 0 <= i < |lines| ==> lines[i] == names[i] + ":" + values[i]
  }

  /** No name has a colon, and no two are the same. */
  predicate Telling(names: seq<string>) {
    && (forall i :: 0 <= i < |names| ==> ':' !in names[i])
    && (forall i, j :: 0 <= i < j < |names| ==> names[i] != names[j])
  }

  lemma LineIsRead(lines: seq<string>, names: seq<string>, values: seq<string>, i: nat, k: nat)
    requires Fields(lines, names, values) && Telling(names) && i < |lines| && k < |names|
    ensures ValueOf(lines[i], names[k]) == if i == k then Some(values[k]) else None
  {
    if i == k {
      OwnValue(names[k], values[k]);
    } else {
      assert names[if i < k then i else k] != names[if i < k then k else i];
      OtherValue(names[i], values[i], names[k]);
    }
  }

  lemma {:induction false} NoValue(lines: seq<string>, n: nat, property: string)
    requires n <= |lines| && forall i: nat :: i < n ==> ValueOf(lines[i], property) == None
    ensures Values(lines, n, property) == []
  {
    if n == 0 {
    } else {
      NoValue(lines, n - 1, property);
    }
  }

  lemma {:induction false} OneValue(lines: seq<string>, n: nat, property: string, k: nat)
    requires k < n <= |lines| && ValueOf(lines[k], property).Some?
    requires forall i: nat :: i < n && i != k ==> ValueOf(lines[i], property) == None
    ensures Values(lines, n, property) == [ValueOf(lines[k], property).value]
  {
    if n == k + 1 {
      NoValue(lines, k, property);
    } else {
      OneValue(lines, n - 1, property, k);
    }
  }

  /** Then a reader finds exactly one value for a name, the right one. */
  lemma FieldIsRead(lines: seq<string>, names: seq<string>, values: seq<string>, n: nat, k: nat)
    requires Fields(lines, names, values) && Telling(names) && n == |lines| && k < n
    ensures Values(lines, n, names[k]) == [values[k]]
  {
    forall i: nat | i < |lines| ensures ValueOf(lines[i], names[k]) == if i == k then Some(values[k]) else None {
      LineIsRead(lines, names, values, i, k);
    }
    OneValue(lines, n, names[k], k);
  }

  const PROPERTIES: seq<string> :=
    ["BEGIN", "UID", "DTSTAMP", "DTSTART", "DTEND", "SUMMARY", "DESCRIPTION", "STATUS", "END"]

  lemma PropertiesAreDistinct()
    ensures |PROPERTIES| == 9 && Telling(PROPERTIES)
  {
    var p := PROPERTIES;
    assert |p[0]| == 5 && |p[1]| == 3 && |p[2]| == 7 && |p[3]| == 7 && |p[4]| == 5 && |p[5]| == 7 && |p[6]| == 11
        && |p[7]| == 6 && |p[8]| == 3;
    assert p[0][0] == 'B' && p[4][0] == 'D' && p[1][0] == 'U' && p[8][0] == 'E';
    assert p[2][0] == 'D' && p[3][0] == 'D' && p[5][0] == 'S' && p[2][5] == 'M' && p[3][5] == 'R';
  }

  /** The values of an event's properties, in order. */
  function EventValues(e: Event, now: string, domain: string): seq<string> {
    ["VEVENT", e.id + "@" + domain, now, e.start, e.end, EscapeIcal(Summary(e)), EscapeIcal(Description(e)),
     "CONFIRMED", "VEVENT"]
  }

  lemma EventFields(e: Event, now: string, domain: string)
    ensures Fields(EventLines(e, now, domain), PROPERTIES, EventValues(e, now, domain))
  {
    var lines, values := EventLines(e, now, domain), EventValues(e, now, domain);
    assert lines[0] == "BEGIN" + ":" + "VEVENT" && lines[7] == "STATUS" + ":" + "CONFIRMED";
    assert lines[8] == "END" + ":" + "VEVENT";
    assert lines[1] == "UID" + ":" + values[1] && lines[2] == "DTSTAMP" + ":" + now;
    assert lines[3] == "DTSTART" + ":" + e.start && lines[4] == "DTEND" + ":" + e.end;
    assert lines[5] == "SUMMARY" + ":" + values[5] && lines[6] == "DESCRIPTION" + ":" + values[6];
  }

  lemma EventValue(e: Event, now: string, domain: string, k: nat)
    requires k < 9
    ensures |EventLines(e, now, domain)| == 9
    ensures Values(EventLines(e, now, domain), 9, PROPERTIES[k]) == [EventValues(e, now, domain)[k]]
  {
    PropertiesAreDistinct();
    EventFields(e, now, domain);
    FieldIsRead(EventLines(e, now, domain), PROPERTIES, EventValues(e, now, domain), 9, k);
  }

  /** What a reader of RFC 5545 recovers from an event's lines, texts unescaped. */
  lemma EventIsReadBack(e: Event, now: string, domain: string)
    ensures var lines := EventLines(e, now, domain);
            && |lines| == 9
            && Values(lines, 9, "UID") == [e.id + "@" + domain]
            && Values(lines, 9, "DTSTAMP") == [now]
            && Values(lines, 9, "DTSTART") == [e.start]
            && Values(lines, 9, "DTEND") == [e.end]
            && (exists summary :: Values(lines, 9, "SUMMARY") == [summary]
                                  && Unescape(summary) == e.service + " - " + e.client)
            && (exists text :: Values(lines, 9, "DESCRIPTION") == [text] && Unescape(text) == Description(e))
  {
    EventValue(e, now, domain, 1);
    EventValue(e, now, domain, 2);
    EventValue(e, now, domain, 3);
    EventValue(e, now, domain, 4);
    EventValue(e, now, domain, 5);
    EventValue(e, now, domain, 6);
    RoundTrip(Summary(e));
    RoundTrip(Description(e));
  }

  const HEADER_PROPERTIES: seq<string> :=
    ["BEGIN", "VERSION", "PRODID", "CALSCALE", "METHOD", "X-WR-CALNAME", "X-WR-TIMEZONE"]

  lemma HeaderPropertiesAreDistinct()
    ensures |HEADER_PROPERTIES| == 7 && Telling(HEADER_PROPERTIES)
  {
    var p := HEADER_PROPERTIES;
    assert |p[0]| == 5 && |p[1]| == 7 && |p[2]| == 6 && |p[3]| == 8 && |p[4]| == 6 && |p[5]| == 12 && |p[6]| == 13;
    assert p[2][0] == 'P' && p[4][0] == 'M';
  }

  /** The values of the header's properties, in order. */
  function HeaderValues(tenant: string, timezone: string): seq<string> {
    ["VCALENDAR", "2.0", "-//SavSpot//" + tenant + "//EN", "GREGORIAN", "PUBLISH", EscapeIcal(tenant) + " Bookings",
     timezone]
  }

  lemma HeaderValue(tenant: string, timezone: string, k: nat)
    requires k < 7
    ensures |HeaderLines(tenant, timezone)| == 7
    ensures Values(HeaderLines(tenant, timezone), 7, HEADER_PROPERTIES[k]) == [HeaderValues(tenant, timezone)[k]]
  {
    HeaderPropertiesAreDistinct();
    HeaderFields(tenant, timezone);
    FieldIsRead(HeaderLines(tenant, timezone), HEADER_PROPERTIES, HeaderValues(tenant, timezone), 7, k);
  }

  /** The calendar's name is the tenant's with a word after it, read back whole, and its time zone the tenant's. */
  lemma HeaderIsReadBack(tenant: string, timezone: string)
    ensures var lines := HeaderLines(tenant, timezone);
            && |lines| == 7
            && Values(lines, 7, "X-WR-TIMEZONE") == [timezone]
            && Values(lines, 7, "METHOD") == ["PUBLISH"]
            && exists name :: Values(lines, 7, "X-WR-CALNAME") == [name] && Unescape(name) == tenant + " Bookings"
  {
    HeaderValue(tenant, timezone, 4);
    HeaderValue(tenant, timezone, 5);
    HeaderValue(tenant, timezone, 6);
    NameIsRead(tenant);
  }

  lemma NameIsRead(tenant: string)
    ensures Unescape(EscapeIcal(tenant) + " Bookings") == tenant + " Bookings"
  {
    PassesAreOnePass(tenant);
    EscapedBefore(tenant, " Bookings");
    Plain(" Bookings");
  }

  lemma HeaderFields(tenant: string, timezone: string)
    ensures Fields(HeaderLines(tenant, timezone), HEADER_PROPERTIES, HeaderValues(tenant, timezone))
  {
    FirstHeaders(tenant, timezone);
    LastHeaders(tenant, timezone);
  }

  lemma FirstHeaders(tenant: string, timezone: string)
    ensures var lines := HeaderLines(tenant, timezone);
            && |lines| == 7
            && lines[0] == "BEGIN" + ":" + "VCALENDAR" && lines[1] == "VERSION" + ":" + "2.0"
            && lines[2] == "PRODID" + ":" + ("-//SavSpot//" + tenant + "//EN")
  {
    assert "PRODID:-//SavSpot//" + tenant + "//EN" == "PRODID" + ":" + ("-//SavSpot//" + tenant + "//EN");
  }

  lemma LastHeaders(tenant: string, timezone: string)
    ensures var lines := HeaderLines(tenant, timezone);
            && |lines| == 7
            && lines[3] == "CALSCALE" + ":" + "GREGORIAN" && lines[4] == "METHOD" + ":" + "PUBLISH"
            && lines[5] == "X-WR-CALNAME" + ":" + (EscapeIcal(tenant) + " Bookings")
            && lines[6] == "X-WR-TIMEZONE" + ":" + timezone
  {
    var name := EscapeIcal(tenant);
    assert "X-WR-CALNAME:" + name + " Bookings" == "X-WR-CALNAME" + ":" + (name + " Bookings");
  }

  lemma FirstDecoded(c: char, tail: string, rest: string)
    ensures Unescape((EscapeChar(c) + tail) + rest) == [c] + Unescape(tail + rest)
  {
    Reassociate(EscapeChar(c), tail, rest);
    UnescapeFirst(c, tail + rest);
  }

  /** An escaped text is decoded by itself, whatever follows. */
  lemma {:induction false} EscapedBefore(text: string, rest: string)
    ensures Unescape(EscapeEach(text) + rest) == text + Unescape(rest)
  {
    if text == [] {
      assert EscapeEach(text) + rest == rest;
    } else {
      EscapedBefore(text[1..], rest);
      FirstDecoded(text[0], EscapeEach(text[1..]), rest);
      Reassociate([text[0]], text[1..], Unescape(rest));
      assert text == [text[0]] + text[1..];
    }
  }

  /** A text without backslashes is its own decoding. */
  lemma {:induction false} Plain(text: string)
    requires '\\' !in text
    ensures Unescape(text) == text
  {
    if text == [] {
    } else {
      Plain(text[1..]);
    }
  }

  /** The k-th booking's nine lines follow the header's seven and those of the bookings before it. */
  lemma {:induction false} EventsInOrder(tenant: string, timezone: string, events: seq<Event>, n: nat, k: nat, j: nat,
      now: string, domain: string)
    requires k < n <= |events| && j < 9
    ensures var lines := FeedLines(tenant, timezone, events, n, now, domain);
            && |EventLines(events[k], now, domain)| == 9 && |lines| == 7 + 9 * n
            && lines[7 + 9 * k + j] == EventLines(events[k], now, domain)[j]
  {
    LineBefore(tenant, timezone, events, n, 7 + 9 * k + j, now, domain);
    if k < n - 1 {
      EventsInOrder(tenant, timezone, events, n - 1, k, j, now, domain);
    }
  }

  /** A line of the feed is one of the feed without its last booking or, after those, one of the last booking's. */
  lemma LineBefore(tenant: string, timezone: string, events: seq<Event>, n: nat, at: nat, now: string, domain: string)
    requires 0 < n <= |events| && at < 7 + 9 * n
    ensures |EventLines(events[n - 1], now, domain)| == 9
    ensures |FeedLines(tenant, timezone, events, n - 1, now, domain)| == 7 + 9 * (n - 1)
    ensures |FeedLines(tenant, timezone, events, n, now, domain)| == 7 + 9 * n
    ensures FeedLines(tenant, timezone, events, n, now, domain)[at] ==
            if at < 7 + 9 * (n - 1) then FeedLines(tenant, timezone, events, n - 1, now, domain)[at]
            else EventLines(events[n - 1], now, domain)[at - (7 + 9 * (n - 1))]
  {
    FeedLength(tenant, timezone, events, n - 1, now, domain);
  }

  lemma {:induction false} FeedLength(tenant: string, timezone: string, events: seq<Event>, n: nat, now: string,
      domain: string)
    requires n <= |events|
    ensures |FeedLines(tenant, timezone, events, n, now, domain)| == 7 + 9 * n
  {
    if n == 0 {
    } else {
      FeedLength(tenant, timezone, events, n - 1, now, domain);
    }
  }
}
