/** What a single call of sendToUser does to the user's subscriptions, deliveries and counter. */
module PushCalls {
  import opened Tables
  import opened PushLimit

  // ---------------------------------------------------------------------------
  // Subscriptions
  // ---------------------------------------------------------------------------

  lemma {:induction false} DroppedIff(subs: seq<Id>, gone: Id, sub: Id)
    ensures sub in Dropped(subs, gone) <==> sub in subs && sub != gone
  {
    if subs == [] {
    } else {
      DroppedIff(subs[1..], gone, sub);
      assert subs == [subs[0]] + subs[1..];
    }
  }

  /** One of the first n sends to the subscription found that its endpoint is gone, and its row could be removed. */
  predicate FoundGone(s: State, attempts: seq<Attempt>, n: nat, sub: Id)
    requires n <= |attempts| == |s.subs|
  {
    exists i :: 0 <= i < n && s.subs[i] == sub && attempts[i].outcome == Gone
  }

  lemma {:induction false} SendsKeepIff(s: State, attempts: seq<Attempt>, n: nat, sub: Id)
    requires n <= |attempts| == |s.subs|
    ensures sub in AfterSends(s, attempts, n).subs <==> sub in s.subs && !FoundGone(s, attempts, n, sub)
  {
    if n == 0 {
    } else {
      SendsKeepIff(s, attempts, n - 1, sub);
      DroppedIff(AfterSends(s, attempts, n - 1).subs, s.subs[n - 1], sub);
    }
  }

  /** An unexpired counter has reached five. */
  predicate HadFive(s: State) {
    s.counter.Some? && s.now < s.counter.value.expiresAt && 5 <= s.counter.value.count
  }

  /** A call drops exactly the subscriptions that are gone, and none when five pushes have been counted before it. */
  lemma CallKeepsIff(s: State, attempts: seq<Attempt>, saved: bool, sub: Id)
    requires |attempts| == |s.subs|
    ensures sub in AfterCall(s, attempts, saved).subs
            <==> sub in s.subs && (HadFive(s) || !FoundGone(s, attempts, |attempts|, sub))
  {
    SendsKeepIff(s, attempts, |attempts|, sub);
  }

  /** Subscribing adds the one, and unsubscribing takes it away. */
  lemma SubscribedIff(s: State, sub: Id, other: Id)
    ensures other in Step(s, Add(sub)).subs <==> other == sub || other in s.subs
    ensures other in Step(s, Remove(sub)).subs <==> other != sub && other in s.subs
  {
    DroppedIff(s.subs, sub, other);
  }

  // ---------------------------------------------------------------------------
  // Deliveries
  // ---------------------------------------------------------------------------

  /** The time that the first n sends take. */
  function Took(attempts: seq<Attempt>, n: nat): nat
    requires n <= |attempts|
  {
    if n == 0 then 0 else Took(attempts, n - 1) + attempts[n - 1].took
  }

  /** One of the first n sends ended at the instant t, with the outcome. */
  predicate EndedAt(s: State, attempts: seq<Attempt>, n: nat, outcome: PushLimit.Outcome, t: int)
    requires n <= |attempts|
  {
    exists i :: 0 <= i < n && attempts[i].outcome == outcome && t == s.now + Took(attempts, i + 1)
  }

  lemma {:induction false} SendsEnd(s: State, attempts: seq<Attempt>, n: nat, t: int)
    requires n <= |attempts| == |s.subs|
    ensures AfterSends(s, attempts, n).now == s.now + Took(attempts, n)
    ensures t in AfterSends(s, attempts, n).sends <==> t in s.sends || EndedAt(s, attempts, n, Sent, t)
    ensures t in AfterSends(s, attempts, n).lost <==> t in s.lost || EndedAt(s, attempts, n, Unrecorded, t)
  {
    if n == 0 {
    } else {
      SendsEnd(s, attempts, n - 1, t);
    }
  }

  /** A push that was delivered counts at the instant at which its send ended, and none when five had been counted. */
  lemma DeliveredAtIff(s: State, attempts: seq<Attempt>, saved: bool, t: int)
    requires |attempts| == |s.subs|
    ensures var d := AfterCall(s, attempts, saved);
            && d.now == (if HadFive(s) then s.now else s.now + Took(attempts, |attempts|))
            && (t in d.sends <==> t in s.sends || (!HadFive(s) && EndedAt(s, attempts, |attempts|, Sent, t)))
            && (t in d.lost <==> t in s.lost || (!HadFive(s) && EndedAt(s, attempts, |attempts|, Unrecorded, t)))
  {
    SendsEnd(s, attempts, |attempts|, t);
  }

  // ---------------------------------------------------------------------------
  // The counter
  // ---------------------------------------------------------------------------

  /** The number of subscriptions to which the call delivers and records a push. */
  function Recorded(attempts: seq<Attempt>): nat {
    |SentAmong(attempts, |attempts|)|
  }

  /** The positions of the delivered and recorded ones among the first n sends. */
  function SentAmong(attempts: seq<Attempt>, n: nat): set<nat>
    requires n <= |attempts|
  {
    set i: nat | i < n && attempts[i].outcome == Sent
  }

  lemma {:induction false} SentIsRecorded(attempts: seq<Attempt>, n: nat)
    requires n <= |attempts|
    ensures SentIn(attempts, n) == |SentAmong(attempts, n)|
  {
    if n == 0 {
      assert SentAmong(attempts, 0) == {};
    } else {
      SentIsRecorded(attempts, n - 1);
      OneMoreSent(attempts, n);
    }
  }

  lemma OneMoreSent(attempts: seq<Attempt>, n: nat)
    requires 0 < n <= |attempts|
    ensures |SentAmong(attempts, n)| == |SentAmong(attempts, n - 1)| + if attempts[n - 1].outcome == Sent then 1 else 0
  {
    var before := SentAmong(attempts, n - 1);
    assert SentAmong(attempts, n) == if attempts[n - 1].outcome == Sent then before + {n - 1} else before;
  }

  lemma CounterUntouched(s: State, attempts: seq<Attempt>, n: nat)
    requires n <= |attempts| == |s.subs|
    ensures AfterSends(s, attempts, n).counter == s.counter
  {
    SendsInHour(s, attempts, n, 0);
  }

  /** What the counter shows to a call that starts at the instant, nothing being zero. */
  function Shown(s: State, t: int): int {
    if s.counter.Some? && t < s.counter.value.expiresAt then s.counter.value.count else 0
  }

  /**
   After a call that records something and can write the counter, the counter shows that many more than before, for an
   hour from the end of the call to the millisecond. Any other call leaves it alone.
   */
  lemma CounterShows(s: State, attempts: seq<Attempt>, saved: bool, ms: nat)
    requires |attempts| == |s.subs|
    ensures var d := AfterCall(s, attempts, saved);
            if HadFive(s) || Recorded(attempts) == 0 || !saved then d.counter == s.counter
            else Shown(d, d.now + ms) == if ms < 3_600_000 then Shown(s, s.now) + Recorded(attempts) else 0
  {
    SentIsRecorded(attempts, |attempts|);
    CounterUntouched(s, attempts, |attempts|);
  }

  // ---------------------------------------------------------------------------
  // One row for each endpoint
  // ---------------------------------------------------------------------------

  predicate Distinct(subs: seq<Id>) {
    forall i, j :: 0 <= i < j < |subs| ==> subs[i] != subs[j]
  }

  lemma {:induction false} DroppedDistinct(subs: seq<Id>, gone: Id)
    requires Distinct(subs)
    ensures Distinct(Dropped(subs, gone))
  {
    if subs == [] {
    } else {
      DroppedDistinct(subs[1..], gone);
      var rest := Dropped(subs[1..], gone);
      forall i | 0 <= i < |rest| ensures rest[i] != subs[0] {
        DroppedIff(subs[1..], gone, rest[i]);
      }
    }
  }

  lemma {:induction false} SendsKeepDistinct(s: State, attempts: seq<Attempt>, n: nat)
    requires n <= |attempts| == |s.subs| && Distinct(s.subs)
    ensures Distinct(AfterSends(s, attempts, n).subs)
  {
    if n == 0 {
    } else {
      SendsKeepDistinct(s, attempts, n - 1);
      DroppedDistinct(AfterSends(s, attempts, n - 1).subs, s.subs[n - 1]);
    }
  }

  /** However often an endpoint is registered, over every run it has one row at most: no device gets a push twice. */
  lemma {:induction false} OneRowEach(s: State, ops: seq<Op>)
    requires Distinct(s.subs)
    ensures Distinct(Run(s, ops).subs)
    decreases |ops|
  {
    if ops == [] {
    } else {
      match ops[0] {
        case Call(attempts, saved) =>
          if |attempts| == |s.subs| { SendsKeepDistinct(s, attempts, |attempts|); }
        case Remove(sub) => DroppedDistinct(s.subs, sub);
        case _ =>
      }
      OneRowEach(Step(s, ops[0]), ops[1..]);
    }
  }
}
