/** Refund evaluation: apps/api/src/bookings/cancellation-policy.evaluator.ts, in exact arithmetic. */
module CancellationPolicy {
  import opened Tables

  datatype FeeType = Percentage | Fixed

  datatype Policy = Policy(freeHours: real, feeType: FeeType, feeAmount: real, noRefundHours: real)

  /** A key of the stored JSON policy: absent, null, or a number. A null amount counts as zero in arithmetic. */
  datatype Field = Undefined | Null | Number(value: real)

  /** The late_cancel_fee_type key. */
  datatype TypeField = NoType | NullType | Named(name: string)

  datatype RawPolicy = RawPolicy(
    freeHours: Field, feeType: TypeField, feeAmount: Field, noRefundHours: Field,
    legacyPercent: Field, legacyFlat: Field)

  const DEFAULT_POLICY: Policy := Policy(24.0, Percentage, 0.0, 0.0)

  /** raw ?? default. */
  function OrElse(f: Field, default: real): real {
    if f.Number? then f.value else default
  }

  /** normalizePolicy: the spec's field names win, then a positive legacy flat fee, then the legacy percentage. */
  function NormalizePolicy(raw: RawPolicy): Policy {
    var freeHours, noRefundHours := OrElse(raw.freeHours, 24.0), OrElse(raw.noRefundHours, 0.0);
    if raw.feeType != NoType && raw.feeAmount != Undefined then
      Policy(freeHours, if raw.feeType == Named("fixed") then Fixed else Percentage,
             OrElse(raw.feeAmount, 0.0), noRefundHours)
    else if raw.legacyFlat.Number? && raw.legacyFlat.value > 0.0 then
      Policy(freeHours, Fixed, raw.legacyFlat.value, noRefundHours)
    else if raw.legacyPercent != Undefined then
      Policy(freeHours, Percentage, OrElse(raw.legacyPercent, 0.0), noRefundHours)
    else
      Policy(freeHours, Percentage, 0.0, noRefundHours)
  }

  /** A normalized policy read back as stored JSON. */
  function ToRaw(p: Policy): RawPolicy {
    RawPolicy(Number(p.freeHours), Named(if p.feeType == Fixed then "fixed" else "percentage"), Number(p.feeAmount),
              Number(p.noRefundHours), Undefined, Undefined)
  }

  /** The nearest whole number of cents, halves up. */
  function RoundedCents(n: real): int {
    (n * 100.0 + 0.5).Floor
  }

  /** round2. */
  function Round2(n: real): real {
    RoundedCents(n) as real / 100.0
  }

  datatype RefundType = FullRefund | PartialRefund | NoRefund

  datatype Refund = Refund(kind: RefundType, amount: real, fee: real)

  function Min(a: real, b: real): real { if a <= b then a else b }
  function Max(a: real, b: real): real { if a >= b then a else b }

  function FeeOf(p: Policy, total: real): real {
    match p.feeType
    case Fixed => Min(p.feeAmount, total)
    case Percentage => total * (p.feeAmount / 100.0)
  }

  /** The policy that applies: the stored one, or the default. */
  function PolicyOf(raw: Option<RawPolicy>): Policy {
    if raw.None? then DEFAULT_POLICY else NormalizePolicy(raw.value)
  }

  /** evaluateCancellationPolicy, given the hours left until the booking starts. */
  function Evaluate(raw: Option<RawPolicy>, hoursUntilStart: real, total: real): Refund {
    if total <= 0.0 then
      Refund(FullRefund, 0.0, 0.0)
    else
      var p := PolicyOf(raw);
      if hoursUntilStart >= p.freeHours then
        Refund(FullRefund, Round2(total), 0.0)
      else if p.noRefundHours > 0.0 && hoursUntilStart <= p.noRefundHours then
        Refund(NoRefund, 0.0, Round2(total))
      else
        var fee := FeeOf(p, total);
        Refund(PartialRefund, Round2(Max(total - fee, 0.0)), Round2(fee))
  }

  /** An amount of whole cents. */
  predicate WholeCents(n: real) {
    n * 100.0 == (n * 100.0).Floor as real
  }

  /** The fraction of a cent in an amount. */
  function CentFraction(n: real): real {
    n * 100.0 - (n * 100.0).Floor as real
  }

  const CENT: real := 0.01

  /** Too late for a free cancellation and, if there is a window without refund, before it. */
  predicate BetweenWindows(p: Policy, hours: real) {
    hours < p.freeHours && (p.noRefundHours > 0.0 ==> hours > p.noRefundHours)
  }

  // ---------------------------------------------------------------------------
  // Properties
  // ---------------------------------------------------------------------------

  /** Normalizing what normalizing produced changes nothing, whatever mix of names the first policy used. */
  lemma NormalizeIsIdempotent(raw: RawPolicy)
    ensures NormalizePolicy(ToRaw(NormalizePolicy(raw))) == NormalizePolicy(raw)
  {
    assert "fixed" != "percentage" by { assert |"fixed"| != |"percentage"|; }
  }

  /** Rounding a whole amount keeps it, and rounding is monotone. */
  lemma RoundWhole(n: real)
    requires WholeCents(n)
    ensures Round2(n) == n
  {
    var c := (n * 100.0).Floor;
    assert (c as real + 0.5).Floor == c;
  }

  lemma RoundMonotone(a: real, b: real)
    requires a <= b
    ensures RoundedCents(a) <= RoundedCents(b) && Round2(a) <= Round2(b)
  {
    assert a * 100.0 + 0.5 <= b * 100.0 + 0.5;
  }

  /** The refund is never negative and never more than was paid. */
  lemma RefundWithinTotal(raw: Option<RawPolicy>, hours: real, total: real)
    requires total > 0.0 && WholeCents(total) && PolicyOf(raw).feeAmount >= 0.0
    ensures 0.0 <= Evaluate(raw, hours, total).amount <= total
  {
    var p := PolicyOf(raw);
    var kept := Max(total - FeeOf(p, total), 0.0);
    FeeNotNegative(p, total);
    RoundWhole(total);
    RoundWhole(0.0);
    RoundMonotone(0.0, kept);
    RoundMonotone(kept, total);
  }

  lemma FeeNotNegative(p: Policy, total: real)
    requires total > 0.0 && p.feeAmount >= 0.0
    ensures FeeOf(p, total) >= 0.0
  {
    assert p.feeAmount / 100.0 >= 0.0;
    if p.feeType.Percentage? { NonNegativeProduct(total, p.feeAmount / 100.0); }
  }

  lemma NonNegativeProduct(a: real, b: real)
    requires a >= 0.0 && b >= 0.0
    ensures a * b >= 0.0
  {
  }

  /** Cancelling earlier never refunds less. */
  lemma EarlierRefundsMore(raw: Option<RawPolicy>, later: real, earlier: real, total: real)
    requires later <= earlier && total > 0.0 && WholeCents(total) && PolicyOf(raw).feeAmount >= 0.0
    ensures Evaluate(raw, later, total).amount <= Evaluate(raw, earlier, total).amount
  {
    RefundWithinTotal(raw, later, total);
    RefundWithinTotal(raw, earlier, total);
    RoundWhole(total);
  }

  /** Splitting whole cents into a fee and the rest and rounding both gains a cent exactly on a half-cent fee. */
  lemma RoundedParts(total: real, fee: real)
    requires WholeCents(total)
    ensures RoundedCents(total - fee) + RoundedCents(fee) ==
            (total * 100.0).Floor + if CentFraction(fee) == 0.5 then 1 else 0
  {
    var t, n := (total * 100.0).Floor, (fee * 100.0).Floor;
    var r := CentFraction(fee);
    assert fee * 100.0 == n as real + r && 0.0 <= r < 1.0;
    assert (total - fee) * 100.0 == (t - n) as real - r;
    if r < 0.5 {
      assert (n as real + r + 0.5).Floor == n;
      assert ((t - n) as real - r + 0.5).Floor == t - n;
    } else {
      assert (n as real + r + 0.5).Floor == n + 1;
      assert ((t - n) as real - r + 0.5).Floor == if r == 0.5 then t - n else t - n - 1;
    }
  }

  lemma FeeWithinTotal(p: Policy, total: real)
    requires total > 0.0 && (p.feeType.Percentage? ==> p.feeAmount <= 100.0)
    ensures FeeOf(p, total) <= total
  {
    if p.feeType.Percentage? {
      var share := p.feeAmount / 100.0;
      assert share <= 1.0;
      NonNegativeProduct(total, 1.0 - share);
      assert total * (1.0 - share) == total - total * share;
    }
  }

  /**
   With a percentage of at most 100, refund and fee add up to the total, except that a cancellation between the two
   windows whose fee falls on a half cent gives away exactly one cent.
   */
  lemma RefundAndFeeAddUp(raw: Option<RawPolicy>, hours: real, total: real)
    requires total > 0.0 && WholeCents(total)
    requires PolicyOf(raw).feeType.Percentage? ==> PolicyOf(raw).feeAmount <= 100.0
    ensures var r := Evaluate(raw, hours, total);
            var halfCent := CentFraction(FeeOf(PolicyOf(raw), total)) == 0.5;
            r.amount + r.fee == if BetweenWindows(PolicyOf(raw), hours) && halfCent then total + CENT else total
  {
    var p := PolicyOf(raw);
    var fee := FeeOf(p, total);
    RoundWhole(total);
    FeeWithinTotal(p, total);
    RoundedParts(total, fee);
    var parts := RoundedCents(total - fee) + RoundedCents(fee);
    assert Round2(total - fee) + Round2(fee) == parts as real / 100.0;
    assert (total * 100.0).Floor as real / 100.0 == total;
  }

  /** Half of a single cent is both refunded and kept as a whole one. */
  lemma OneCentTwice()
    ensures var raw := Some(ToRaw(Policy(24.0, Percentage, 50.0, 0.0)));
            Evaluate(raw, 1.0, CENT) == Refund(PartialRefund, CENT, CENT)
  {
    var p := Policy(24.0, Percentage, 50.0, 0.0);
    assert "fixed" != "percentage" by { assert |"fixed"| != |"percentage"|; }
    assert PolicyOf(Some(ToRaw(p))) == p;
    assert FeeOf(p, CENT) == 0.005;
    assert RoundedCents(0.005) == 1 by { assert 0.005 * 100.0 + 0.5 == 1.0; }
  }

  /**
   Above 100 percent the sum has no such bound: a partial refund gives nothing back and charges at least the total.
   */
  lemma NothingBackAboveHundred(raw: Option<RawPolicy>, hours: real, total: real)
    requires total > 0.0 && WholeCents(total)
    requires PolicyOf(raw).feeType.Percentage? && PolicyOf(raw).feeAmount > 100.0
    ensures var r := Evaluate(raw, hours, total);
            BetweenWindows(PolicyOf(raw), hours) ==> r.amount == 0.0 && r.fee >= total
  {
    var p := PolicyOf(raw);
    var share := p.feeAmount / 100.0;
    assert share >= 1.0;
    NonNegativeProduct(total, share - 1.0);
    assert total * (share - 1.0) == total * share - total;
    RoundMonotone(total, FeeOf(p, total));
    RoundWhole(total);
    RoundWhole(0.0);
  }

  // ---------------------------------------------------------------------------
  // What is charged
  // ---------------------------------------------------------------------------

  /** A flat fee, but no more than what was paid. */
  function FlatFee(amount: real, total: real): real {
    if amount > total then total else amount
  }

  /** So many hundredths of what was paid. */
  function ShareOf(total: real, percent: real): real {
    total * (percent / 100.0)
  }

  /** The fee that a stored policy asks for, from its keys; without a policy there is none. */
  function AskedFee(raw: Option<RawPolicy>, total: real): real {
    match raw
    case None => 0.0
    case Some(RawPolicy(_, NoType, _, _, percent, flat)) => LegacyFee(percent, flat, total)
    case Some(RawPolicy(_, _, Undefined, _, percent, flat)) => LegacyFee(percent, flat, total)
    case Some(RawPolicy(_, Named(name), Number(amount), _, _, _)) =>
      if name == "fixed" then FlatFee(amount, total) else ShareOf(total, amount)
    case Some(RawPolicy(_, NullType, Number(amount), _, _, _)) => ShareOf(total, amount)
    case Some(RawPolicy(_, _, Null, _, _, _)) => 0.0
  }

  /** Under the legacy names: a positive flat fee comes before a percentage. */
  function LegacyFee(percent: Field, flat: Field, total: real): real {
    match (flat, percent)
    case (Number(amount), Number(p)) => if amount > 0.0 then FlatFee(amount, total) else ShareOf(total, p)
    case (Number(amount), _) => if amount > 0.0 then FlatFee(amount, total) else 0.0
    case (_, Number(p)) => ShareOf(total, p)
    case _ => 0.0
  }

  /** How many hours ahead a cancellation is free. */
  function FreeHours(raw: Option<RawPolicy>): real {
    match raw
    case Some(RawPolicy(Number(hours), _, _, _, _, _)) => hours
    case _ => 24.0
  }

  /** From how many hours ahead nothing is refunded, if that is positive. */
  function NoRefundHours(raw: Option<RawPolicy>): real {
    match raw
    case Some(RawPolicy(_, _, _, Number(hours), _, _)) => hours
    case _ => 0.0
  }

  lemma PolicyReads(raw: Option<RawPolicy>, total: real)
    requires total > 0.0
    ensures PolicyOf(raw).freeHours == FreeHours(raw) && PolicyOf(raw).noRefundHours == NoRefundHours(raw)
    ensures FeeOf(PolicyOf(raw), total) == AskedFee(raw, total)
  {
    assert total * (0.0 / 100.0) == 0.0;
  }

  /** A whole number of cents next to an amount; from the middle between two the upper one. */
  predicate NearestCents(rounded: real, n: real) {
    WholeCents(rounded) && n - 0.005 < rounded <= n + 0.005
  }

  lemma RoundsToNearest(n: real)
    ensures NearestCents(Round2(n), n)
  {
    var c := RoundedCents(n);
    assert Round2(n) * 100.0 == c as real;
    assert (c as real).Floor == c;
    assert c as real <= n * 100.0 + 0.5 < c as real + 1.0;
  }

  /**
   What a cancellation costs, from the stored policy and the clock: nothing in time, everything in the window without
   refund, and in between the fee the policy asks for, with the rest refunded, each to the nearest cent.
   */
  lemma RefundFollows(raw: Option<RawPolicy>, hours: real, total: real)
    requires total > 0.0 && WholeCents(total)
    ensures var r, fee := Evaluate(raw, hours, total), AskedFee(raw, total);
            if hours >= FreeHours(raw) then r == Refund(FullRefund, total, 0.0)
            else if 0.0 < NoRefundHours(raw) && hours <= NoRefundHours(raw) then r == Refund(NoRefund, 0.0, total)
            else
              && r.kind == PartialRefund && NearestCents(r.fee, fee)
              && NearestCents(r.amount, if fee > total then 0.0 else total - fee)
  {
    PolicyReads(raw, total);
    RoundWhole(total);
    RoundsToNearest(AskedFee(raw, total));
    RoundsToNearest(Max(total - AskedFee(raw, total), 0.0));
  }

  /** Where nothing was paid, nothing is refunded or kept, whatever the policy says. */
  lemma NothingPaid(raw: Option<RawPolicy>, hours: real, total: real)
    requires total <= 0.0
    ensures Evaluate(raw, hours, total) == Refund(FullRefund, 0.0, 0.0)
  {
  }
}
