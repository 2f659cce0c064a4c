/** The iCalendar feed: apps/api/src/calendar/ical-feed.service.ts. */
module IcalFeed {

  // ---------------------------------------------------------------------------
  // Escaping
  // ---------------------------------------------------------------------------

  /** text.replace(/c/g, rep). */
  function ReplaceAll(text: string, c: char, rep: string): string {
    if text == [] then []
    else (if text[0] == c then rep else [text[0]]) + ReplaceAll(text[1..], c, rep)
  }

  /** escapeIcal: four global replacements, one after the other. */
  function EscapeIcal(text: string): string {
    ReplaceAll(ReplaceAll(ReplaceAll(ReplaceAll(text, '\\', "\\\\"), ';', "\\;"), ',', "\\,"), '\n', "\\n")
  }

  /** The escape of one character. */
  function EscapeChar(c: char): string {
    if c == '\\' then "\\\\"
    else if c == ';' then "\\;"
    else if c == ',' then "\\,"
    else if c == '\n' then "\\n"
    else [c]
  }

  function EscapeEach(text: string): string {
    if text == [] then [] else EscapeChar(text[0]) + EscapeEach(text[1..])
  }

  /** The decoding of a TEXT value by section 3.3.11 of RFC 5545. */
  function Unescape(value: string): string {
    if |value| == 0 then []
    else if value[0] == '\\' && |value| >= 2 then
      (if value[1] == 'n' || value[1] == 'N' then "\n" else [value[1]]) + Unescape(value[2..])
    else [value[0]] + Unescape(value[1..])
  }

  /**
   A TEXT value as the same section writes it: no raw line feed, no bare comma or semicolon, no dangling or unknown
   escape.
   */
  predicate WellFormedText(value: string) {
    |value| == 0 ||
    if value[0] == '\\' then
      |value| >= 2 && value[1] in {'\\', ';', ',', 'n', 'N'} && WellFormedText(value[2..])
    else
      value[0] != '\n' && value[0] != ',' && value[0] != ';' && WellFormedText(value[1..])
  }

  lemma Split(a: string, b: string)
    requires a != []
    ensures (a + b)[0] == a[0] && (a + b)[1..] == a[1..] + b
  {
  }

  lemma Reassociate(a: string, b: string, c: string)
    ensures (a + b) + c == a + (b + c)
  {
  }

  lemma {:induction false} ReplaceAllConcat(a: string, b: string, c: char, rep: string)
    ensures ReplaceAll(a + b, c, rep) == ReplaceAll(a, c, rep) + ReplaceAll(b, c, rep)
  {
    if a == [] {
      assert a + b == b;
    } else {
      ReplaceAllConcat(a[1..], b, c, rep);
      Split(a, b);
      Reassociate(if a[0] == c then rep else [a[0]], ReplaceAll(a[1..], c, rep), ReplaceAll(b, c, rep));
    }
  }

  lemma EscapeConcat(a: string, b: string)
    ensures EscapeIcal(a + b) == EscapeIcal(a) + EscapeIcal(b)
  {
    var a1, b1 := ReplaceAll(a, '\\', "\\\\"), ReplaceAll(b, '\\', "\\\\");
    var a2, b2 := ReplaceAll(a1, ';', "\\;"), ReplaceAll(b1, ';', "\\;");
    var a3, b3 := ReplaceAll(a2, ',', "\\,"), ReplaceAll(b2, ',', "\\,");
    ReplaceAllConcat(a, b, '\\', "\\\\");
    ReplaceAllConcat(a1, b1, ';', "\\;");
    ReplaceAllConcat(a2, b2, ',', "\\,");
    ReplaceAllConcat(a3, b3, '\n', "\\n");
  }

  lemma ReplaceOne(x: char, c: char, rep: string)
    ensures ReplaceAll([x], c, rep) == if x == c then rep else [x]
  {
    assert [x][1..] == [];
  }

  /** Two characters, neither of which is replaced. */
  lemma ReplaceNeither(x: char, y: char, c: char, rep: string)
    requires x != c && y != c
    ensures ReplaceAll([x, y], c, rep) == [x, y]
  {
    assert [x, y] == [x] + [y];
    ReplaceAllConcat([x], [y], c, rep);
    ReplaceOne(x, c, rep);
    ReplaceOne(y, c, rep);
  }

  lemma EscapeOne(x: char)
    ensures EscapeIcal([x]) == EscapeChar(x)
  {
    ReplaceOne(x, '\\', "\\\\");
    ReplaceOne(x, ';', "\\;");
    ReplaceOne(x, ',', "\\,");
    ReplaceOne(x, '\n', "\\n");
    ReplaceNeither('\\', '\\', ';', "\\;");
    ReplaceNeither('\\', '\\', ',', "\\,");
    ReplaceNeither('\\', '\\', '\n', "\\n");
    ReplaceNeither('\\', ';', ',', "\\,");
    ReplaceNeither('\\', ';', '\n', "\\n");
    ReplaceNeither('\\', ',', '\n', "\\n");
  }

  /** The four passes do not interfere: together they escape each character once, by itself. */
  lemma {:induction false} PassesAreOnePass(text: string)
    ensures EscapeIcal(text) == EscapeEach(text)
  {
    if text == [] {
    } else {
      assert text == [text[0]] + text[1..];
      EscapeConcat([text[0]], text[1..]);
      EscapeOne(text[0]);
      PassesAreOnePass(text[1..]);
    }
  }

  lemma {:induction false} UnescapeEach(text: string)
    ensures Unescape(EscapeEach(text)) == text && WellFormedText(EscapeEach(text))
  {
    if text == [] {
    } else {
      UnescapeEach(text[1..]);
      UnescapeFirst(text[0], EscapeEach(text[1..]));
      assert text == [text[0]] + text[1..];
    }
  }

  /** The escape of a character is decoded by itself, whatever follows. */
  lemma UnescapeFirst(c: char, rest: string)
    ensures Unescape(EscapeChar(c) + rest) == [c] + Unescape(rest)
    ensures WellFormedText(rest) ==> WellFormedText(EscapeChar(c) + rest)
  {
    var e := EscapeChar(c);
    if |e| == 2 {
      assert (e + rest)[2..] == rest;
    } else {
      assert (e + rest)[1..] == rest;
    }
  }

  /** A reader of the feed recovers every text exactly, and what it reads is a well-formed TEXT value. */
  lemma RoundTrip(text: string)
    ensures Unescape(EscapeIcal(text)) == text && WellFormedText(EscapeIcal(text))
  {
    PassesAreOnePass(text);
    UnescapeEach(text);
  }

  // ---------------------------------------------------------------------------
  // The feed
  // ---------------------------------------------------------------------------

  /** The text has no raw line feed. */
  predicate OneLine(text: string) {
    '\n' !in text
  }

  lemma {:induction false} WellFormedIsOneLine(value: string)
    requires WellFormedText(value)
    ensures OneLine(value)
  {
    if |value| == 0 {
    } else {
      if value[0] == '\\' {
        WellFormedIsOneLine(value[2..]);
        assert value == [value[0], value[1]] + value[2..];
      } else {
        WellFormedIsOneLine(value[1..]);
        assert value == [value[0]] + value[1..];
      }
    }
  }

  lemma EscapedIsOneLine(text: string)
    ensures OneLine(EscapeIcal(text))
  {
    RoundTrip(text);
    WellFormedIsOneLine(EscapeIcal(text));
  }

  lemma OneLineConcat(a: string, b: string)
    ensures OneLine(a + b) <==> OneLine(a) && OneLine(b)
  {
    if OneLine(a + b) {
      forall i | 0 <= i < |a| ensures a[i] != '\n' { assert a[i] == (a + b)[i]; }
      forall i | 0 <= i < |b| ensures b[i] != '\n' { assert b[i] == (a + b)[|a| + i]; }
    }
  }

  /** A booking as the feed shows it; start and end are already formatted. */
  datatype Event = Event(id: string, service: string, client: string, email: string, notes: string, start: string,
      end: string)

  function Summary(e: Event): string {
    e.service + " - " + e.client
  }

  /** The separators are a backslash and an n, not line feeds. */
  function Description(e: Event): string {
    "Client: " + e.client + "\\nEmail: " + e.email + if e.notes != "" then "\\nNotes: " + e.notes else ""
  }

  predicate HasLineFeed(text: string) {
    '\n' in text
  }

  lemma LineFeedConcat(a: string, b: string)
    ensures HasLineFeed(a + b) <==> HasLineFeed(a) || HasLineFeed(b)
  {
    OneLineConcat(a, b);
  }

  /**
   A reader of the description never gets a line break between its parts: it has one exactly when the client's name, the
   e-mail or the notes have one, and where the separators were meant to be it reads a backslash and an n.
   */
  lemma SeparatorsAreLiteral(e: Event)
    ensures var read := Unescape(EscapeIcal(Description(e)));
            && (HasLineFeed(read) <==> HasLineFeed(e.client) || HasLineFeed(e.email) || HasLineFeed(e.notes))
            && read == "Client: " + e.client + "\\nEmail: " + e.email
                       + if e.notes != "" then "\\nNotes: " + e.notes else ""
  {
    RoundTrip(Description(e));
    DescriptionLineFeeds(e);
  }

  lemma DescriptionLineFeeds(e: Event)
    ensures HasLineFeed(Description(e)) <==> HasLineFeed(e.client) || HasLineFeed(e.email) || HasLineFeed(e.notes)
  {
    var head := "Client: " + e.client + "\\nEmail: " + e.email;
    LineFeedConcat("Client: " + e.client + "\\nEmail: ", e.email);
    LineFeedConcat("Client: " + e.client, "\\nEmail: ");
    LineFeedConcat("Client: ", e.client);
    LineFeedConcat(head + "\\nNotes: ", e.notes);
    LineFeedConcat(head, "\\nNotes: ");
    assert Description(e) == if e.notes != "" then head + "\\nNotes: " + e.notes else head;
  }

  function EventLines(e: Event, now: string, domain: string): seq<string> {
    ["BEGIN:VEVENT",
     "UID:" + e.id + "@" + domain,
     "DTSTAMP:" + now,
     "DTSTART:" + e.start,
     "DTEND:" + e.end,
     "SUMMARY:" + EscapeIcal(Summary(e)),
     "DESCRIPTION:" + EscapeIcal(Description(e)),
     "STATUS:CONFIRMED",
     "END:VEVENT"]
  }

  function HeaderLines(tenant: string, timezone: string): seq<string> {
    ["BEGIN:VCALENDAR",
     "VERSION:2.0",
     "PRODID:-//SavSpot//" + tenant + "//EN",
     "CALSCALE:GREGORIAN",
     "METHOD:PUBLISH",
     "X-WR-CALNAME:" + EscapeIcal(tenant) + " Bookings",
     "X-WR-TIMEZONE:" + timezone]
  }

  function FeedLines(tenant: string, timezone: string, events: seq<Event>, n: nat,
      now: string, domain: string): seq<string>
    requires n <= |events|
  {
    if n == 0 then HeaderLines(tenant, timezone)
    else FeedLines(tenant, timezone, events, n - 1, now, domain) + EventLines(events[n - 1], now, domain)
  }

  /** generateFeed, before its lines are joined with CRLF. */
  method GenerateFeed(tenant: string, timezone: string, events: seq<Event>, now: string, domain: string)
    returns (lines: seq<string>)
    ensures lines == FeedLines(tenant, timezone, events, |events|, now, domain) + ["END:VCALENDAR"]
  {
    lines := HeaderLines(tenant, timezone);
    for i := 0 to |events|
      invariant lines == FeedLines(tenant, timezone, events, i, now, domain)
    {
      lines := lines + EventLines(events[i], now, domain);
    }
    lines := lines + ["END:VCALENDAR"];
  }

  /** No line contains a raw line feed, so a reader sees exactly the lines that were written. */
  predicate OneLineEach(lines: seq<string>) {
    forall i :: 0 <= i < |lines| ==> OneLine(lines[i])
  }

  /** The fields of an event that go into the feed unescaped. */
  predicate RawFieldsOneLine(e: Event, now: string, domain: string) {
    OneLine(e.id) && OneLine(e.start) && OneLine(e.end) && OneLine(now) && OneLine(domain)
  }

  lemma EventLinesWhole(e: Event, now: string, domain: string)
    ensures OneLineEach(EventLines(e, now, domain)) <==> RawFieldsOneLine(e, now, domain)
  {
    EscapedIsOneLine(Summary(e));
    EscapedIsOneLine(Description(e));
    OneLineConcat("UID:" + e.id + "@", domain);
    OneLineConcat("UID:" + e.id, "@");
    OneLineConcat("UID:", e.id);
    OneLineConcat("DTSTAMP:", now);
    OneLineConcat("DTSTART:", e.start);
    OneLineConcat("DTEND:", e.end);
    OneLineConcat("SUMMARY:", EscapeIcal(Summary(e)));
    OneLineConcat("DESCRIPTION:", EscapeIcal(Description(e)));
    var lines := EventLines(e, now, domain);
    assert OneLineEach(lines) <==> OneLine(lines[1]) && OneLine(lines[2]) && OneLine(lines[3]) && OneLine(lines[4]);
  }

  lemma HeaderLinesWhole(tenant: string, timezone: string)
    ensures OneLineEach(HeaderLines(tenant, timezone)) <==> OneLine(tenant) && OneLine(timezone)
  {
    EscapedIsOneLine(tenant);
    OneLineConcat("PRODID:-//SavSpot//" + tenant, "//EN");
    OneLineConcat("PRODID:-//SavSpot//", tenant);
    OneLineConcat("X-WR-CALNAME:" + EscapeIcal(tenant), " Bookings");
    OneLineConcat("X-WR-CALNAME:", EscapeIcal(tenant));
    OneLineConcat("X-WR-TIMEZONE:", timezone);
    var lines := HeaderLines(tenant, timezone);
    assert OneLineEach(lines) <==> OneLine(lines[2]) && OneLine(lines[6]);
  }

  lemma OneLineEachConcat(a: seq<string>, b: seq<string>)
    ensures OneLineEach(a + b) <==> OneLineEach(a) && OneLineEach(b)
  {
    assert forall i :: 0 <= i < |a| ==> (a + b)[i] == a[i];
    assert forall i :: 0 <= i < |b| ==> (a + b)[|a| + i] == b[i];
  }

  /**
   The feed keeps one content line per line exactly when the fields it writes unescaped hold no line feed; service
   names, clients, e-mails and notes may hold anything. The tenant name is escaped in one header and not in another.
   */
  lemma {:induction false} FeedKeepsItsLines(tenant: string, timezone: string, events: seq<Event>, n: nat, now: string,
      domain: string)
    requires n <= |events|
    ensures OneLineEach(FeedLines(tenant, timezone, events, n, now, domain))
            <==> && OneLine(tenant) && OneLine(timezone)
                 && forall i :: 0 <= i < n ==> RawFieldsOneLine(events[i], now, domain)
  {
    if n == 0 {
      HeaderLinesWhole(tenant, timezone);
    } else {
      FeedKeepsItsLines(tenant, timezone, events, n - 1, now, domain);
      FeedGrows(tenant, timezone, events, n, now, domain);
      RawOneMore(events, n, now, domain);
    }
  }

  lemma FeedGrows(tenant: string, timezone: string, events: seq<Event>, n: nat, now: string, domain: string)
    requires 0 < n <= |events|
    ensures OneLineEach(FeedLines(tenant, timezone, events, n, now, domain))
            <==> && OneLineEach(FeedLines(tenant, timezone, events, n - 1, now, domain))
                 && RawFieldsOneLine(events[n - 1], now, domain)
  {
    var before := FeedLines(tenant, timezone, events, n - 1, now, domain);
    var lines := EventLines(events[n - 1], now, domain);
    EventLinesWhole(events[n - 1], now, domain);
    OneLineEachConcat(before, lines);
  }

  lemma RawOneMore(events: seq<Event>, n: nat, now: string, domain: string)
    requires 0 < n <= |events|
    ensures (forall i :: 0 <= i < n ==> RawFieldsOneLine(events[i], now, domain))
            <==> && (forall i :: 0 <= i < n - 1 ==> RawFieldsOneLine(events[i], now, domain))
                 && RawFieldsOneLine(events[n - 1], now, domain)
  {
  }
}
