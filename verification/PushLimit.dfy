/**
 The push rate limiter: sendToUser of apps/api/src/browser-push/browser-push.service.ts, for one user in one tenant.
 */
module PushLimit {
  import opened Tables

  /** All instants are in milliseconds. */
  const MAX_PUSHES: int := 5
  const TTL_MS: int := 3_600_000

  /** What one web-push request led to. */
  datatype Outcome =
    | Sent          // delivered and recorded
    | Unrecorded    // delivered, but recording the use of the subscription failed
    | Gone          // 410: the subscription row is removed
    | GoneKept      // 410, but removing the row failed
    | Errored       // any other error

  /** One send: its outcome and how long it took. */
  datatype Attempt = Attempt(outcome: Outcome, took: nat)

  datatype Counter = Counter(count: int, expiresAt: int)

  /**
   sends and lost are the instants of recorded and unrecorded deliveries, oldest first; they are not stored by the
   service.
   */
  datatype State = State(now: int, counter: Option<Counter>, subs: seq<Id>, sends: seq<int>, lost: seq<int>)

  function Empty(now: int): State {
    State(now, None, [], [], [])
  }

  /** What get returns: expired counters are invisible. */
  function Visible(s: State): Option<int> {
    if s.counter.Some? && s.counter.value.expiresAt > s.now then Some(s.counter.value.count) else None
  }

  predicate Limited(s: State) {
    Visible(s).Some? && Visible(s).value >= MAX_PUSHES
  }

  function SentIn(attempts: seq<Attempt>, n: nat): nat
    requires n <= |attempts|
  {
    if n == 0 then 0 else SentIn(attempts, n - 1) + if attempts[n - 1].outcome == Sent then 1 else 0
  }

  /** The state after the first n sends of a call, before its counter update. */
  function AfterSends(s: State, attempts: seq<Attempt>, n: nat): State
    requires n <= |attempts| == |s.subs|
  {
    if n == 0 then s
    else
      var before := AfterSends(s, attempts, n - 1);
      var now := before.now + attempts[n - 1].took;
      match attempts[n - 1].outcome
      case Sent => before.(now := now, sends := before.sends + [now])
      case Unrecorded => before.(now := now, lost := before.lost + [now])
      case Gone => before.(now := now, subs := Dropped(before.subs, s.subs[n - 1]))
      case GoneKept => before.(now := now)
      case Errored => before.(now := now)
  }

  /** Deleting a subscription row. */
  function Dropped(subs: seq<Id>, sub: Id): seq<Id> {
    if subs == [] then []
    else if subs[0] == sub then Dropped(subs[1..], sub)
    else [subs[0]] + Dropped(subs[1..], sub)
  }

  /**
   A whole call of sendToUser, with one attempt for each subscription; saved says whether the counter can be written.
   */
  function AfterCall(s: State, attempts: seq<Attempt>, saved: bool): State
    requires |attempts| == |s.subs|
  {
    if Limited(s) then s
    else
      var done := AfterSends(s, attempts, |attempts|);
      var sent := SentIn(attempts, |attempts|);
      if sent == 0 || !saved then done
      else
        var was := if Visible(s).Some? then Visible(s).value else 0;
        done.(counter := Some(Counter(was + sent, done.now + TTL_MS)))
  }

  class BrowserPushService {
    var now: int
    var counter: Option<Counter>
    var subs: seq<Id>
    ghost var sends: seq<int>
    ghost var lost: seq<int>

    constructor (now: int)
      ensures Value() == Empty(now)
    {
      this.now, counter, subs, sends, lost := now, None, [], [], [];
    }

    ghost function Value(): State
      reads this
    {
      State(now, counter, subs, sends, lost)
    }

    method GetCount() returns (r: Option<int>)
      ensures r == Visible(Value())
    {
      r := None;
      if counter.Some? && !(counter.value.expiresAt <= now) {
        r := Some(counter.value.count);
      }
    }

    /** sendToUser; returns the number of recorded deliveries, unless the counter cannot be written: then it throws. */
    method SendToUser(attempts: seq<Attempt>, saved: bool) returns (r: Option<nat>)
      requires |attempts| == |subs|
      modifies this
      ensures Value() == AfterCall(old(Value()), attempts, saved)
      ensures var sent := if Limited(old(Value())) then 0 else SentIn(attempts, |attempts|);
              r == if sent > 0 && !saved then None else Some(sent)
    {
      var sentCount := 0;
      r := Some(0);
      var currentCount := GetCount();
      if currentCount.Some? && currentCount.value >= MAX_PUSHES {
        return;
      }
      var subscriptions := subs;
      ghost var was := Value();
      if |subscriptions| == 0 {
        return;
      }
      for i := 0 to |subscriptions|
        invariant Value() == AfterSends(was, attempts, i)
        invariant sentCount == SentIn(attempts, i)
        invariant counter == was.counter
      {
        now := now + attempts[i].took;
        match attempts[i].outcome
        case Sent =>
          sends := sends + [now];
          sentCount := sentCount + 1;
        case Unrecorded =>
          lost := lost + [now];
        case Gone =>
          subs := Dropped(subs, subscriptions[i]);
        case GoneKept =>
        case Errored =>
      }
      if sentCount > 0 {
        if !saved {
          return None;
        }
        if currentCount.None? {
          counter := Some(Counter(sentCount, now + TTL_MS));
        } else {
          var newCount := currentCount.value + sentCount;
          counter := Some(Counter(newCount, now + TTL_MS));
        }
      }
      r := Some(sentCount);
    }

    method Subscribe(sub: Id)
      modifies this
      ensures Value() == AfterSubscribe(old(Value()), sub)
    {
      if sub !in subs {
        subs := subs + [sub];
      }
    }

    method Unsubscribe(sub: Id)
      modifies this
      ensures Value() == old(Value()).(subs := Dropped(old(subs), sub))
    {
      subs := Dropped(subs, sub);
    }
  }

  /** Registering an endpoint that is already registered only refreshes its keys. */
  function AfterSubscribe(s: State, sub: Id): State {
    if sub in s.subs then s else s.(subs := s.subs + [sub])
  }

  // ---------------------------------------------------------------------------
  // Runs of sequential calls
  // ---------------------------------------------------------------------------

  datatype Op = Wait(ms: nat) | Call(attempts: seq<Attempt>, saved: bool) | Add(sub: Id) | Remove(sub: Id)

  /** A call without an attempt for each subscription cannot happen, and changes nothing. */
  function Step(s: State, op: Op): State {
    match op
    case Wait(ms) => s.(now := s.now + ms)
    case Call(attempts, saved) => if |attempts| == |s.subs| then AfterCall(s, attempts, saved) else s
    case Add(sub) => AfterSubscribe(s, sub)
    case Remove(sub) => s.(subs := Dropped(s.subs, sub))
  }

  function Run(s: State, ops: seq<Op>): State
    decreases |ops|
  {
    if ops == [] then s else Run(Step(s, ops[0]), ops[1..])
  }

  /** No call of the run finds more than most subscriptions. */
  predicate Bounded(ops: seq<Op>, most: nat) {
    forall i :: 0 <= i < |ops| && ops[i].Call? ==> |ops[i].attempts| <= most
  }

  /** How many calls of the run cannot write the counter. */
  function FailedIn(ops: seq<Op>): nat {
    if ops == [] then 0 else (if ops[0].Call? && !ops[0].saved then 1 else 0) + FailedIn(ops[1..])
  }

  // ---------------------------------------------------------------------------
  // The limit
  // ---------------------------------------------------------------------------

  /** How many of the instants fall into the hour that starts at a. */
  function InHour(times: seq<int>, a: int): nat {
    if times == [] then 0
    else InHour(times[..|times| - 1], a) + if a <= times[|times| - 1] < a + TTL_MS then 1 else 0
  }

  lemma {:induction false} NoneYet(times: seq<int>, a: int, now: int)
    requires (forall i :: 0 <= i < |times| ==> times[i] <= now) && now < a
    ensures InHour(times, a) == 0
  {
    if times == [] {
    } else {
      NoneYet(times[..|times| - 1], a, now);
    }
  }

  lemma InHourOneMore(times: seq<int>, x: int, a: int)
    ensures InHour(times + [x], a) == InHour(times, a) + if a <= x < a + TTL_MS then 1 else 0
  {
    assert (times + [x])[..|times|] == times;
  }

  /** The sends of a call add to the hour at most as many as are recorded, and nothing if the hour is over. */
  lemma {:induction false} SendsInHour(s: State, attempts: seq<Attempt>, n: nat, a: int)
    requires n <= |attempts| == |s.subs|
    ensures var d := AfterSends(s, attempts, n);
            && d.now >= s.now && d.counter == s.counter
            && InHour(s.sends, a) <= InHour(d.sends, a) <= InHour(s.sends, a) + SentIn(attempts, n)
            && (s.now >= a + TTL_MS ==> InHour(d.sends, a) == InHour(s.sends, a))
  {
    if n == 0 {
    } else {
      SendsInHour(s, attempts, n - 1, a);
      var before := AfterSends(s, attempts, n - 1);
      if attempts[n - 1].outcome == Sent {
        InHourOneMore(before.sends, before.now + attempts[n - 1].took, a);
      }
    }
  }

  /** No recorded send lies in the future. */
  predicate Past(s: State) {
    forall i :: 0 <= i < |s.sends| ==> s.sends[i] <= s.now
  }

  lemma {:induction false} SendsInThePast(s: State, attempts: seq<Attempt>, n: nat)
    requires n <= |attempts| == |s.subs|
    requires Past(s)
    ensures Past(AfterSends(s, attempts, n))
  {
    if n == 0 {
    } else {
      SendsInThePast(s, attempts, n - 1);
      var before, d := AfterSends(s, attempts, n - 1), AfterSends(s, attempts, n);
      assert before.now <= d.now && (d.sends == before.sends || d.sends == before.sends + [d.now]);
    }
  }

  lemma {:induction false} SentAtMost(attempts: seq<Attempt>, n: nat)
    requires n <= |attempts|
    ensures SentIn(attempts, n) <= n
  {
    if n == 0 {
    } else {
      SentAtMost(attempts, n - 1);
    }
  }

  /**
   While an hour with more sends than failed counter writes account for is still running, the counter is alive, outlives
   the hour and covers the others: each recorded send that is counted pushes the counter's expiry an hour ahead.
   */
  ghost predicate Covered(s: State, a: int, most: nat, uncounted: nat) {
    && Past(s)
    && (s.counter.Some? ==> s.counter.value.count >= 0)
    && InHour(s.sends, a) <= MAX_PUSHES - 1 + most + uncounted
    && (s.now < a + TTL_MS && InHour(s.sends, a) > uncounted ==>
          && s.counter.Some? && s.counter.value.expiresAt >= a + TTL_MS
          && s.counter.value.count >= InHour(s.sends, a) - uncounted)
  }

  /** A call keeps the cover; if it cannot write the counter, up to most further sends stay uncounted. */
  lemma CallKeepsCover(s: State, attempts: seq<Attempt>, saved: bool, a: int, most: nat, uncounted: nat)
    requires Covered(s, a, most, uncounted) && |attempts| == |s.subs| && |attempts| <= most
    ensures Covered(AfterCall(s, attempts, saved), a, most, if saved then uncounted else uncounted + most)
  {
    if !Limited(s) {
      var n := |attempts|;
      var d, sent := AfterSends(s, attempts, n), SentIn(attempts, n);
      SendsInHour(s, attempts, n, a);
      SendsInThePast(s, attempts, n);
      SentAtMost(attempts, n);
      if d.now < a {
        NoneYet(d.sends, a, d.now);
      }
    }
  }

  /** most sends for each failed write of the run. */
  function UncountedIn(ops: seq<Op>, most: nat): nat {
    if ops == [] then 0 else (if ops[0].Call? && !ops[0].saved then most else 0) + UncountedIn(ops[1..], most)
  }

  lemma {:induction false} UncountedIsProduct(ops: seq<Op>, most: nat)
    ensures UncountedIn(ops, most) == FailedIn(ops) * most
  {
    if ops == [] {
    } else {
      UncountedIsProduct(ops[1..], most);
      assert (1 + FailedIn(ops[1..])) * most == most + FailedIn(ops[1..]) * most;
    }
  }

  /** Over every run of sequential calls. */
  lemma {:induction false} HourlyLimit(s: State, ops: seq<Op>, a: int, most: nat, uncounted: nat)
    requires Covered(s, a, most, uncounted) && Bounded(ops, most)
    ensures Covered(Run(s, ops), a, most, uncounted + UncountedIn(ops, most))
    decreases |ops|
  {
    if ops == [] {
    } else {
      var now := if ops[0].Call? && !ops[0].saved then uncounted + most else uncounted;
      if ops[0].Call? && |ops[0].attempts| == |s.subs| {
        CallKeepsCover(s, ops[0].attempts, ops[0].saved, a, most, uncounted);
      }
      HourlyLimit(Step(s, ops[0]), ops[1..], a, most, now);
    }
  }

  /**
   Starting from nothing, no hour, wherever it starts, sees more than 4 + S recorded pushes, and S more for each time
   the counter could not be written.
   */
  lemma HourlyLimitFromStart(now: int, ops: seq<Op>, a: int, most: nat)
    requires Bounded(ops, most)
    ensures InHour(Run(Empty(now), ops).sends, a) <= MAX_PUSHES - 1 + most + FailedIn(ops) * most
  {
    HourlyLimit(Empty(now), ops, a, most, 0);
    UncountedIsProduct(ops, most);
  }

  // ---------------------------------------------------------------------------
  // How far the limit goes
  // ---------------------------------------------------------------------------

  lemma {:induction false} AllSentInHour(s: State, attempts: seq<Attempt>, n: nat, a: int)
    requires n <= |attempts| == |s.subs| && a <= s.now < a + TTL_MS
    requires forall i :: 0 <= i < n ==> attempts[i] == Attempt(Sent, 0)
    ensures AfterSends(s, attempts, n).now == s.now
    ensures InHour(AfterSends(s, attempts, n).sends, a) == InHour(s.sends, a) + n
  {
    if n == 0 {
    } else {
      AllSentInHour(s, attempts, n - 1, a);
      InHourOneMore(AfterSends(s, attempts, n - 1).sends, s.now, a);
    }
  }

  /** n calls in a row that each record one push. */
  function SingleCalls(n: nat): (ops: seq<Op>)
    ensures |ops| == n && forall i :: 0 <= i < n ==> ops[i] == Call([Attempt(Sent, 0)], true)
  {
    if n == 0 then [] else [Call([Attempt(Sent, 0)], true)] + SingleCalls(n - 1)
  }

  lemma {:induction false} RunConcat(s: State, a: seq<Op>, b: seq<Op>)
    ensures Run(s, a + b) == Run(Run(s, a), b)
    decreases |a|
  {
    if a == [] {
      assert a + b == b;
    } else {
      assert (a + b)[0] == a[0] && (a + b)[1..] == a[1..] + b;
      RunConcat(Step(s, a[0]), a[1..], b);
    }
  }

  lemma SingleCounts(s: State)
    requires |s.subs| == 1 && !Limited(s)
    ensures var was := if Visible(s).Some? then Visible(s).value else 0;
            AfterCall(s, [Attempt(Sent, 0)], true)
                == s.(sends := s.sends + [s.now], counter := Some(Counter(was + 1, s.now + TTL_MS)))
  {
    var attempts := [Attempt(Sent, 0)];
    assert AfterSends(s, attempts, 1) == s.(sends := s.sends + [s.now]);
    assert SentIn(attempts, 1) == 1;
  }

  /** Below the limit, each single call goes through and is counted. */
  lemma {:induction false} SinglesCount(s: State, n: nat, was: nat)
    requires |s.subs| == 1 && was + n <= MAX_PUSHES
    requires Visible(s) == if was == 0 then None else Some(was)
    ensures var d := Run(s, SingleCalls(n));
            && d == s.(sends := d.sends, counter := d.counter)
            && Visible(d) == (if was + n == 0 then None else Some(was + n))
            && InHour(d.sends, s.now) == InHour(s.sends, s.now) + n
    decreases n
  {
    if n == 0 {
    } else {
      var ops := SingleCalls(n);
      assert ops[1..] == SingleCalls(n - 1);
      SingleCounts(s);
      InHourOneMore(s.sends, s.now, s.now);
      SinglesCount(Step(s, ops[0]), n - 1, was + 1);
    }
  }

  /** n further subscriptions, with identifiers from first on. */
  function Adds(first: Id, n: nat): (ops: seq<Op>)
    ensures |ops| == n && forall i :: 0 <= i < n ==> ops[i].Add?
    decreases n
  {
    if n == 0 then [] else [Add(first)] + Adds(first + 1, n - 1)
  }

  lemma {:induction false} AddsSubscribe(s: State, first: Id, n: nat)
    requires forall sub :: sub in s.subs ==> sub < first
    ensures var d := Run(s, Adds(first, n)); d == s.(subs := d.subs) && |d.subs| == |s.subs| + n
    decreases n
  {
    if n == 0 {
    } else {
      var ops := Adds(first, n);
      assert ops[0] == Add(first) && ops[1..] == Adds(first + 1, n - 1);
      AddsSubscribe(s.(subs := s.subs + [first]), first + 1, n - 1);
    }
  }

  function AllSent(n: nat): seq<Attempt> {
    seq(n, _ => Attempt(Sent, 0))
  }

  /** Calls that reach most subscriptions each and cannot write the counter. */
  function FailedCalls(most: nat, n: nat): (ops: seq<Op>)
    ensures |ops| == n && forall i :: 0 <= i < n ==> ops[i] == Call(AllSent(most), false)
  {
    if n == 0 then [] else [Call(AllSent(most), false)] + FailedCalls(most, n - 1)
  }

  /**
   Four single pushes to one subscription, then most - 1 new subscriptions, then calls that reach all of them, of which
   only the last one writes the counter.
   */
  function FillingRun(most: nat, failed: nat): seq<Op>
    requires most >= 1
  {
    (SingleCalls(4) + Adds(1, most - 1)) + (FailedCalls(most, failed) + [Call(AllSent(most), true)])
  }

  lemma {:induction false} SinglesAreRecorded(n: nat)
    ensures UnrecordedIn(SingleCalls(n)) == 0
  {
    if n == 0 {
    } else {
      SinglesAreRecorded(n - 1);
      assert SingleCalls(n)[1..] == SingleCalls(n - 1);
      assert UnrecordedAmong([Attempt(Sent, 0)], 1) == 0;
    }
  }

  lemma {:induction false} AddsSendNothing(first: Id, n: nat)
    ensures UnrecordedIn(Adds(first, n)) == 0
    decreases n
  {
    if n == 0 {
    } else {
      AddsSendNothing(first + 1, n - 1);
      assert Adds(first, n)[1..] == Adds(first + 1, n - 1);
    }
  }

  lemma {:induction false} NoneUnrecorded(most: nat, n: nat)
    requires n <= most
    ensures UnrecordedAmong(AllSent(most), n) == 0
  {
    if n == 0 {
    } else {
      NoneUnrecorded(most, n - 1);
    }
  }

  lemma {:induction false} UnrecordedConcat(a: seq<Op>, b: seq<Op>)
    ensures UnrecordedIn(a + b) == UnrecordedIn(a) + UnrecordedIn(b)
    decreases |a|
  {
    if a == [] {
      assert a + b == b;
    } else {
      assert (a + b)[0] == a[0] && (a + b)[1..] == a[1..] + b;
      UnrecordedConcat(a[1..], b);
    }
  }

  lemma {:induction false} FailedConcat(a: seq<Op>, b: seq<Op>)
    ensures FailedIn(a + b) == FailedIn(a) + FailedIn(b)
    decreases |a|
  {
    if a == [] {
      assert a + b == b;
    } else {
      assert (a + b)[0] == a[0] && (a + b)[1..] == a[1..] + b;
      FailedConcat(a[1..], b);
    }
  }

  lemma {:induction false} NoneFailed(ops: seq<Op>)
    requires forall i :: 0 <= i < |ops| && ops[i].Call? ==> ops[i].saved
    ensures FailedIn(ops) == 0
  {
    if ops == [] {
    } else {
      NoneFailed(ops[1..]);
    }
  }

  lemma {:induction false} FailedCallsCount(most: nat, n: nat)
    ensures FailedIn(FailedCalls(most, n)) == n && UnrecordedIn(FailedCalls(most, n)) == 0
    decreases n
  {
    if n == 0 {
    } else {
      FailedCallsCount(most, n - 1);
      NoneUnrecorded(most, most);
      assert FailedCalls(most, n)[1..] == FailedCalls(most, n - 1);
    }
  }

  lemma FillingRunIsBounded(most: nat, failed: nat)
    requires most >= 1
    ensures Bounded(FillingRun(most, failed), most)
    ensures UnrecordedIn(FillingRun(most, failed)) == 0 && FailedIn(FillingRun(most, failed)) == failed
  {
    var first, failing, last := SingleCalls(4) + Adds(1, most - 1), FailedCalls(most, failed),
        [Call(AllSent(most), true)];
    SinglesAreRecorded(4);
    AddsSendNothing(1, most - 1);
    NoneUnrecorded(most, most);
    UnrecordedConcat(first, failing + last);
    UnrecordedConcat(failing, last);
    UnrecordedConcat(SingleCalls(4), Adds(1, most - 1));
    assert last[1..] == [];
    FailedConcat(first, failing + last);
    FailedConcat(failing, last);
    NoneFailed(first);
    FailedCallsCount(most, failed);
  }

  /** Calls that cannot write the counter go on reaching every subscription. */
  lemma {:induction false} FailedCallsFill(s: State, most: nat, n: nat)
    requires |s.subs| == most && !Limited(s)
    ensures var d := Run(s, FailedCalls(most, n));
            d == s.(sends := d.sends) && InHour(d.sends, s.now) == InHour(s.sends, s.now) + n * most
    decreases n
  {
    if n == 0 {
    } else {
      var ops := FailedCalls(most, n);
      assert ops[1..] == FailedCalls(most, n - 1);
      FailedCallFills(s, most);
      FailedCallsFill(Step(s, ops[0]), most, n - 1);
      OnceMore(n, most);
    }
  }

  lemma OnceMore(n: nat, most: nat)
    requires n > 0
    ensures n * most == most + (n - 1) * most
  {
  }

  lemma FailedCallFills(s: State, most: nat)
    requires |s.subs| == most && !Limited(s)
    ensures var d := Step(s, Call(AllSent(most), false));
            d == s.(sends := d.sends) && InHour(d.sends, s.now) == InHour(s.sends, s.now) + most
  {
    AllSentInHour(s, AllSent(most), most, s.now);
    AllSentChanges(s, AllSent(most), most);
  }

  /**
   From one subscription and no live counter, that run records 4 + (failed + 1) * most pushes in a single hour, past the
   five promised.
   */
  lemma FillingRunFills(s: State, most: nat, failed: nat)
    requires most >= 1 && s.subs == [0] && Visible(s) == None
    ensures var d := Run(s, FillingRun(most, failed));
            InHour(d.sends, s.now) == InHour(s.sends, s.now) + 4 + failed * most + most && d.lost == s.lost
  {
    var first, last := SingleCalls(4) + Adds(1, most - 1), FailedCalls(most, failed) + [Call(AllSent(most), true)];
    RunConcat(s, first, last);
    FirstFour(s, most);
    RestFills(Run(s, first), most, failed);
  }

  lemma FirstFour(s: State, most: nat)
    requires most >= 1 && s.subs == [0] && Visible(s) == None
    ensures var d := Run(s, SingleCalls(4) + Adds(1, most - 1));
            && |d.subs| == most && d.now == s.now && d.lost == s.lost && Visible(d) == Some(4)
            && InHour(d.sends, s.now) == InHour(s.sends, s.now) + 4
  {
    RunConcat(s, SingleCalls(4), Adds(1, most - 1));
    SinglesCount(s, 4, 0);
    AddsSubscribe(Run(s, SingleCalls(4)), 1, most - 1);
  }

  lemma RestFills(s: State, most: nat, failed: nat)
    requires |s.subs| == most && !Limited(s)
    ensures var d := Run(s, FailedCalls(most, failed) + [Call(AllSent(most), true)]);
            InHour(d.sends, s.now) == InHour(s.sends, s.now) + failed * most + most && d.lost == s.lost
  {
    RunConcat(s, FailedCalls(most, failed), [Call(AllSent(most), true)]);
    FailedCallsFill(s, most, failed);
    LastCallFills(Run(s, FailedCalls(most, failed)), most);
  }

  /** A call that starts below the limit reaches every subscription. */
  lemma LastCallFills(s: State, most: nat)
    requires |s.subs| == most && !Limited(s)
    ensures var d := Run(s, [Call(AllSent(most), true)]);
            InHour(d.sends, s.now) == InHour(s.sends, s.now) + most && d.lost == s.lost
  {
    var ops := [Call(AllSent(most), true)];
    assert ops[1..] == [];
    assert Run(s, ops) == Run(Step(s, ops[0]), []) == AfterCall(s, AllSent(most), true);
    AllSentInHour(s, AllSent(most), most, s.now);
    AllSentChanges(s, AllSent(most), most);
  }

  lemma {:induction false} AllSentChanges(s: State, attempts: seq<Attempt>, n: nat)
    requires n <= |attempts| == |s.subs|
    requires forall i :: 0 <= i < n ==> attempts[i] == Attempt(Sent, 0)
    ensures AfterSends(s, attempts, n) == s.(sends := AfterSends(s, attempts, n).sends)
  {
    if n == 0 {
    } else {
      AllSentChanges(s, attempts, n - 1);
    }
  }

  /** Without subscriptions nothing is ever sent. */
  lemma {:induction false} NothingToSend(s: State, ops: seq<Op>)
    requires Bounded(ops, 0)
    ensures Run(s, ops).sends == s.sends
    decreases |ops|
  {
    if ops == [] {
    } else {
      NothingToSend(Step(s, ops[0]), ops[1..]);
    }
  }

  /** No hour of any run with at most so many failed counter writes sees more than limit recorded pushes. */
  ghost predicate AtMostAnHour(limit: nat, most: nat, failed: nat) {
    forall now, ops, a :: Bounded(ops, most) && FailedIn(ops) <= failed
        ==> InHour(Run(Empty(now), ops).sends, a) <= limit
  }

  lemma FewerFail(n: nat, failed: nat, most: nat)
    requires n <= failed
    ensures n * most <= failed * most
  {
  }

  /**
   For users with at most S subscriptions, an hourly limit is kept exactly when it is at least 4 + S, and S more for
   each failed counter write, or nothing can be sent at all.
   */
  lemma HourlyLimitIff(limit: nat, most: nat, failed: nat)
    ensures AtMostAnHour(limit, most, failed) <==> most == 0 || 4 + most + failed * most <= limit
  {
    if most == 0 {
      forall now, ops: seq<Op>, a | Bounded(ops, most) ensures InHour(Run(Empty(now), ops).sends, a) <= limit {
        NothingToSend(Empty(now), ops);
      }
    } else {
      if 4 + most + failed * most <= limit {
        forall now, ops: seq<Op>, a | Bounded(ops, most) && FailedIn(ops) <= failed
          ensures InHour(Run(Empty(now), ops).sends, a) <= limit
        {
          HourlyLimitFromStart(now, ops, a, most);
          FewerFail(FailedIn(ops), failed, most);
        }
      }
      var run := [Add(0)] + FillingRun(most, failed);
      FillingRunIsBounded(most, failed);
      assert run[0] == Add(0) && run[1..] == FillingRun(most, failed);
      FillingRunFills(Step(Empty(0), Add(0)), most, failed);
      assert Bounded(run, most) && InHour(Run(Empty(0), run).sends, 0) == 4 + most + failed * most;
    }
  }

  /** The documented five an hour are kept exactly for a single subscription whose counter never fails, or for none. */
  lemma FiveAnHourIff(most: nat, failed: nat)
    ensures AtMostAnHour(MAX_PUSHES, most, failed) <==> most == 0 || (most == 1 && failed == 0)
  {
    HourlyLimitIff(MAX_PUSHES, most, failed);
    if most >= 1 { FewerFail(1, most, failed); }
  }

  // ---------------------------------------------------------------------------
  // Deliveries that are not recorded
  // ---------------------------------------------------------------------------

  function UnrecordedAmong(attempts: seq<Attempt>, n: nat): nat
    requires n <= |attempts|
  {
    if n == 0 then 0 else UnrecordedAmong(attempts, n - 1) + if attempts[n - 1].outcome == Unrecorded then 1 else 0
  }

  /** How many deliveries of the run's calls are not recorded. */
  function UnrecordedIn(ops: seq<Op>): nat {
    if ops == [] then 0
    else (if ops[0].Call? then UnrecordedAmong(ops[0].attempts, |ops[0].attempts|) else 0) + UnrecordedIn(ops[1..])
  }

  /** Everything that reached the user's devices in an hour. */
  function DeliveriesIn(s: State, a: int): nat {
    InHour(s.sends, a) + InHour(s.lost, a)
  }

  lemma {:induction false} LostInCall(s: State, attempts: seq<Attempt>, n: nat)
    requires n <= |attempts| == |s.subs|
    ensures |AfterSends(s, attempts, n).lost| == |s.lost| + UnrecordedAmong(attempts, n)
  {
    if n == 0 {
    } else {
      LostInCall(s, attempts, n - 1);
    }
  }

  lemma {:induction false} LostInRun(s: State, ops: seq<Op>)
    ensures |Run(s, ops).lost| <= |s.lost| + UnrecordedIn(ops)
    decreases |ops|
  {
    if ops == [] {
    } else {
      if ops[0].Call? && |ops[0].attempts| == |s.subs| {
        LostInCall(s, ops[0].attempts, |ops[0].attempts|);
      }
      LostInRun(Step(s, ops[0]), ops[1..]);
    }
  }

  lemma {:induction false} InHourAtMost(times: seq<int>, a: int)
    ensures InHour(times, a) <= |times|
  {
    if times == [] {
    } else {
      InHourAtMost(times[..|times| - 1], a);
    }
  }

  /**
   No hour of any run with at most so many failed counter writes and unrecorded deliveries sees more than limit
   deliveries.
   */
  ghost predicate DeliversAtMost(limit: nat, most: nat, failed: nat, unrecorded: nat) {
    forall now, ops, a :: Bounded(ops, most) && FailedIn(ops) <= failed && UnrecordedIn(ops) <= unrecorded ==>
      DeliveriesIn(Run(Empty(now), ops), a) <= limit
  }

  /** n calls in a row whose only delivery is not recorded. */
  function UnrecordedCalls(n: nat): (ops: seq<Op>)
    ensures |ops| == n && forall i :: 0 <= i < n ==> ops[i] == Call([Attempt(Unrecorded, 0)], true)
  {
    if n == 0 then [] else [Call([Attempt(Unrecorded, 0)], true)] + UnrecordedCalls(n - 1)
  }

  /** Deliveries whose bookkeeping fails leave no counter behind, however many come in a single instant. */
  lemma {:induction false} UnrecordedUnlimited(s: State, n: nat)
    requires s.counter.None? && |s.subs| == 1
    ensures var d := Run(s, UnrecordedCalls(n));
            d == s.(lost := d.lost) && |d.lost| == |s.lost| + n && InHour(d.lost, s.now) == InHour(s.lost, s.now) + n
    decreases n
  {
    if n == 0 {
    } else {
      var ops, attempts := UnrecordedCalls(n), [Attempt(Unrecorded, 0)];
      assert ops[0] == Call(attempts, true) && ops[1..] == UnrecordedCalls(n - 1);
      assert AfterSends(s, attempts, 1) == s.(lost := s.lost + [s.now]);
      assert SentIn(attempts, 1) == 0;
      InHourOneMore(s.lost, s.now, s.now);
      UnrecordedUnlimited(s.(lost := s.lost + [s.now]), n - 1);
    }
  }

  lemma {:induction false} UnrecordedCallsCount(n: nat)
    ensures UnrecordedIn(UnrecordedCalls(n)) == n
  {
    if n == 0 {
    } else {
      UnrecordedCallsCount(n - 1);
      assert UnrecordedCalls(n)[1..] == UnrecordedCalls(n - 1);
      assert UnrecordedAmong([Attempt(Unrecorded, 0)], 1) == 1;
    }
  }

  /**
   What reaches the user in an hour is limited by 4 + S, plus S for each failed counter write, plus one for each
   delivery that is not recorded, and by nothing less.
   */
  lemma DeliveriesIff(limit: nat, most: nat, failed: nat, unrecorded: nat)
    requires most >= 1
    ensures DeliversAtMost(limit, most, failed, unrecorded) <==> 4 + most + failed * most + unrecorded <= limit
  {
    if 4 + most + failed * most + unrecorded <= limit {
      forall now, ops: seq<Op>, a | Bounded(ops, most) && FailedIn(ops) <= failed && UnrecordedIn(ops) <= unrecorded
        ensures DeliveriesIn(Run(Empty(now), ops), a) <= limit
      {
        HourlyLimitFromStart(now, ops, a, most);
        FewerFail(FailedIn(ops), failed, most);
        LostInRun(Empty(now), ops);
        InHourAtMost(Run(Empty(now), ops).lost, a);
      }
    }
    WorstRunDelivers(most, failed, unrecorded);
  }

  function WorstRun(most: nat, failed: nat, unrecorded: nat): seq<Op>
    requires most >= 1
  {
    [Add(0)] + (UnrecordedCalls(unrecorded) + FillingRun(most, failed))
  }

  lemma WorstRunIsBounded(most: nat, failed: nat, unrecorded: nat)
    requires most >= 1
    ensures var run := WorstRun(most, failed, unrecorded);
            Bounded(run, most) && FailedIn(run) == failed && UnrecordedIn(run) == unrecorded
  {
    var run, first, filling := WorstRun(most, failed, unrecorded), UnrecordedCalls(unrecorded),
        FillingRun(most, failed);
    assert run[0] == Add(0) && run[1..] == first + filling;
    UnrecordedCallsCount(unrecorded);
    FillingRunIsBounded(most, failed);
    UnrecordedConcat(first, filling);
    FailedConcat(first, filling);
    NoneFailed(first);
  }

  lemma WorstRunDelivers(most: nat, failed: nat, unrecorded: nat)
    requires most >= 1
    ensures var run := WorstRun(most, failed, unrecorded);
            && Bounded(run, most) && FailedIn(run) == failed && UnrecordedIn(run) == unrecorded
            && DeliveriesIn(Run(Empty(0), run), 0) == 4 + most + failed * most + unrecorded
  {
    var run, first, filling := WorstRun(most, failed, unrecorded), UnrecordedCalls(unrecorded),
        FillingRun(most, failed);
    WorstRunIsBounded(most, failed, unrecorded);
    assert run[0] == Add(0) && run[1..] == first + filling;
    var s := Step(Empty(0), Add(0));
    UnrecordedUnlimited(s, unrecorded);
    RunConcat(s, first, filling);
    FillingRunFills(Run(s, first), most, failed);
  }
}
