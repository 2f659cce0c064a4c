/**
 Contract signing: apps/api/src/contracts/contracts.service.ts, and signContract of
 apps/api/src/client-portal/client-portal.service.ts.
 */
module Contracts {
  import opened Tables

  datatype Status = Draft | Sent | PartiallySigned | Signed | Amended | Void

  /** An entry of the template's signatureRequirements object; the keys of an object are distinct. */
  datatype Requirement = Requirement(role: string, least: int)

  /** A contract row and the roles of its signature rows, in order of signing. */
  datatype Contract = Contract(status: Status, signatures: seq<string>)

  predicate DistinctRoles(reqs: seq<Requirement>) {
    forall i, j :: 0 <= i < j < |reqs| ==> reqs[i].role != reqs[j].role
  }

  predicate Met(req: Requirement, signatures: seq<string>) {
    multiset(signatures)[req.role] >= req.least
  }

  /** Every role has met its quota; a template without requirements asks for nothing. */
  predicate AllMet(reqs: Option<seq<Requirement>>, signatures: seq<string>) {
    reqs.Some? ==> forall i :: 0 <= i < |reqs.value| ==> Met(reqs.value[i], signatures)
  }

  // ---------------------------------------------------------------------------
  // What each operation does
  // ---------------------------------------------------------------------------

  /** again says whether the client who signs in the portal has signed this contract before. */
  datatype Op = Send | Sign(role: string) | PortalSign(again: bool) | VoidIt | Amend

  const CLIENT := "CLIENT"

  predicate Accepts(c: Contract, op: Op) {
    match op
    case Send => c.status == Draft
    case Sign(_) => c.status == Sent || c.status == PartiallySigned
    case PortalSign(again) => (c.status == Sent || c.status == PartiallySigned) && !again
    case VoidIt => c.status != Void
    case Amend => c.status == Signed
  }

  function SignedBy(reqs: Option<seq<Requirement>>, c: Contract, role: string): Contract {
    var signatures := c.signatures + [role];
    Contract(if AllMet(reqs, signatures) then Signed else PartiallySigned, signatures)
  }

  /** An operation that is not accepted raises an error and changes nothing. */
  function Step(reqs: Option<seq<Requirement>>, c: Contract, op: Op): Contract {
    if !Accepts(c, op) then c
    else
      match op
      case Send => c.(status := Sent)
      case Sign(role) => SignedBy(reqs, c, role)
      case PortalSign(_) => Contract(Signed, c.signatures + [CLIENT])
      case VoidIt => c.(status := Void)
      case Amend => c.(status := Amended)
  }

  function Run(reqs: Option<seq<Requirement>>, c: Contract, ops: seq<Op>): Contract
    decreases |ops|
  {
    if ops == [] then c else Run(reqs, Step(reqs, c, ops[0]), ops[1..])
  }

  const NEW_CONTRACT: Contract := Contract(Draft, [])

  // ---------------------------------------------------------------------------
  // The service
  // ---------------------------------------------------------------------------

  class ContractsService {
    const requirements: Option<seq<Requirement>>
    var status: Status
    var signatures: seq<string>

    constructor (requirements: Option<seq<Requirement>>)
      ensures this.requirements == requirements && Value() == NEW_CONTRACT
    {
      this.requirements, status, signatures := requirements, Draft, [];
    }

    function Value(): Contract
      reads this
    {
      Contract(status, signatures)
    }

    method SendContract() returns (ok: bool)
      modifies this
      ensures ok == Accepts(old(Value()), Send) && Value() == Step(requirements, old(Value()), Send)
    {
      ok := status == Draft;
      if ok {
        status := Sent;
      }
    }

    /** The two loops that decide whether all quotas are met. */
    method CheckRequirements() returns (allMet: bool)
      ensures allMet == AllMet(requirements, signatures)
    {
      allMet := true;
      if requirements.Some? {
        var countByRole: map<string, int> := map[];
        for i := 0 to |signatures|
          invariant forall role :: role in countByRole <==> role in multiset(signatures[..i])
          invariant forall role :: role in countByRole ==> countByRole[role] == multiset(signatures[..i])[role]
        {
          var role := signatures[i];
          assert signatures[..i + 1] == signatures[..i] + [role];
          countByRole := countByRole[role := (if role in countByRole then countByRole[role] else 0) + 1];
        }
        assert signatures[..|signatures|] == signatures;
        var entries := requirements.value;
        for i := 0 to |entries|
          invariant allMet
          invariant forall j :: 0 <= j < i ==> Met(entries[j], signatures)
        {
          var count := if entries[i].role in countByRole then countByRole[entries[i].role] else 0;
          assert count == multiset(signatures)[entries[i].role];
          if count < entries[i].least {
            allMet := false;
            assert !Met(entries[i], signatures);
            break;
          }
        }
      }
    }

    method SignContract(role: string) returns (ok: bool)
      modifies this
      ensures ok == Accepts(old(Value()), Sign(role)) && Value() == Step(requirements, old(Value()), Sign(role))
    {
      ok := status == Sent || status == PartiallySigned;
      if !ok {
        return;
      }
      signatures := signatures + [role];
      var allMet := CheckRequirements();
      status := if allMet then Signed else PartiallySigned;
    }

    /**
     signContract of the client portal: it asks whether every signature row is signed, and each one is from the start.
     */
    method PortalSignContract(again: bool) returns (ok: bool)
      modifies this
      ensures ok == Accepts(old(Value()), PortalSign(again))
              && Value() == Step(requirements, old(Value()), PortalSign(again))
    {
      ok := (status == Sent || status == PartiallySigned) && !again;
      if ok {
        signatures := signatures + [CLIENT];
        status := Signed;
      }
    }

    method VoidContract() returns (ok: bool)
      modifies this
      ensures ok == Accepts(old(Value()), VoidIt) && Value() == Step(requirements, old(Value()), VoidIt)
    {
      ok := status != Void;
      if ok {
        status := Void;
      }
    }

    method AmendContract() returns (ok: bool)
      modifies this
      ensures ok == Accepts(old(Value()), Amend) && Value() == Step(requirements, old(Value()), Amend)
    {
      ok := status == Signed;
      if ok {
        status := Amended;
      }
    }
  }

  // ---------------------------------------------------------------------------
  // Status over runs
  // ---------------------------------------------------------------------------

  /** What a status says about the signatures collected so far. */
  ghost predicate Honest(reqs: Option<seq<Requirement>>, c: Contract) {
    match c.status
    case Draft => c.signatures == []
    case Sent => c.signatures == []
    case PartiallySigned => c.signatures != [] && !AllMet(reqs, c.signatures)
    case Signed => c.signatures != [] && AllMet(reqs, c.signatures)
    case Amended => c.signatures != [] && AllMet(reqs, c.signatures)
    case Void => true
  }

  ghost predicate HonestThroughout(reqs: Option<seq<Requirement>>, c: Contract, ops: seq<Op>)
    decreases |ops|
  {
    Honest(reqs, c) && (ops != [] ==> HonestThroughout(reqs, Step(reqs, c, ops[0]), ops[1..]))
  }

  /** A signature accepted in the portal is the last one that was missing. */
  predicate PortalCompletes(reqs: Option<seq<Requirement>>, c: Contract, op: Op) {
    op.PortalSign? && Accepts(c, op) ==> AllMet(reqs, c.signatures + [CLIENT])
  }

  predicate EachPortalCompletes(reqs: Option<seq<Requirement>>, c: Contract, ops: seq<Op>)
    decreases |ops|
  {
    ops != [] ==> PortalCompletes(reqs, c, ops[0]) && EachPortalCompletes(reqs, Step(reqs, c, ops[0]), ops[1..])
  }

  lemma StepIsHonestIff(reqs: Option<seq<Requirement>>, c: Contract, op: Op)
    requires Honest(reqs, c)
    ensures Honest(reqs, Step(reqs, c, op)) <==> PortalCompletes(reqs, c, op)
  {
  }

  /**
   In every state of a run SIGNED means every quota is met and PARTIALLY_SIGNED that some role is still short, exactly
   when each signature given in the portal is the last one missing: the portal never looks at the quotas.
   */
  lemma {:induction false} StatusIsHonestIff(reqs: Option<seq<Requirement>>, c: Contract, ops: seq<Op>)
    requires Honest(reqs, c)
    ensures HonestThroughout(reqs, c, ops) <==> EachPortalCompletes(reqs, c, ops)
    decreases |ops|
  {
    if ops == [] {
    } else {
      StepIsHonestIff(reqs, c, ops[0]);
      if PortalCompletes(reqs, c, ops[0]) {
        StatusIsHonestIff(reqs, Step(reqs, c, ops[0]), ops[1..]);
      }
    }
  }

  lemma {:induction false} HonestAtTheEnd(reqs: Option<seq<Requirement>>, c: Contract, ops: seq<Op>)
    requires HonestThroughout(reqs, c, ops)
    ensures Honest(reqs, Run(reqs, c, ops))
    decreases |ops|
  {
    if ops == [] {
    } else {
      HonestAtTheEnd(reqs, Step(reqs, c, ops[0]), ops[1..]);
    }
  }

  /**
   A template that asks for a client and a vendor: sent and signed by the client in the portal, the contract counts as
   signed.
   */
  lemma PortalSignsEarly()
    ensures var reqs := Some([Requirement(CLIENT, 1), Requirement("VENDOR", 1)]);
            var c := Run(reqs, NEW_CONTRACT, [Send, PortalSign(false)]);
            c.status == Signed && !AllMet(reqs, c.signatures)
  {
    var reqs := Some([Requirement(CLIENT, 1), Requirement("VENDOR", 1)]);
    var ops := [Send, PortalSign(false)];
    var sent := Step(reqs, NEW_CONTRACT, Send);
    assert ops[1..] == [PortalSign(false)] && ops[1..][1..] == [];
    assert Run(reqs, NEW_CONTRACT, ops) == Run(reqs, sent, ops[1..]) == Step(reqs, sent, PortalSign(false));
    assert CLIENT != "VENDOR" by { assert |CLIENT| == 6 && CLIENT[0] == 'C'; }
    assert !Met(reqs.value[1], [CLIENT]);
  }

  /** Once SIGNED, AMENDED or VOID, a contract never takes another signature, whatever is tried. */
  lemma {:induction false} NoLateSignature(reqs: Option<seq<Requirement>>, c: Contract, ops: seq<Op>)
    requires c.status == Signed || c.status == Amended || c.status == Void
    ensures Run(reqs, c, ops).signatures == c.signatures
    decreases |ops|
  {
    if ops == [] {
    } else {
      NoLateSignature(reqs, Step(reqs, c, ops[0]), ops[1..]);
    }
  }

  /** The status after an accepted signature depends only on which roles have signed how often, not on the order. */
  lemma OrderDoesNotMatter(reqs: Option<seq<Requirement>>, a: Contract, b: Contract, r: string, s: string)
    requires multiset(a.signatures + [r]) == multiset(b.signatures + [s])
    ensures SignedBy(reqs, a, r).status == SignedBy(reqs, b, s).status
  {
    assert forall i :: reqs.Some? && 0 <= i < |reqs.value| ==>
             (Met(reqs.value[i], a.signatures + [r]) <==> Met(reqs.value[i], b.signatures + [s]));
  }

  // ---------------------------------------------------------------------------
  // The deficit
  // ---------------------------------------------------------------------------

  function Shortfall(req: Requirement, signatures: seq<string>): nat {
    if Met(req, signatures) then 0 else req.least - multiset(signatures)[req.role]
  }

  /** The signatures still missing, over the first n requirements. */
  function Deficit(reqs: seq<Requirement>, n: nat, signatures: seq<string>): nat
    requires n <= |reqs|
  {
    if n == 0 then 0 else Deficit(reqs, n - 1, signatures) + Shortfall(reqs[n - 1], signatures)
  }

  function Missing(reqs: Option<seq<Requirement>>, signatures: seq<string>): nat {
    if reqs.None? then 0 else Deficit(reqs.value, |reqs.value|, signatures)
  }

  lemma {:induction false} NoDeficitIffMet(reqs: seq<Requirement>, n: nat, signatures: seq<string>)
    requires n <= |reqs|
    ensures Deficit(reqs, n, signatures) == 0 <==> forall i :: 0 <= i < n ==> Met(reqs[i], signatures)
  {
    if n == 0 {
    } else {
      NoDeficitIffMet(reqs, n - 1, signatures);
    }
  }

  predicate IsShort(reqs: seq<Requirement>, n: nat, signatures: seq<string>, role: string)
    requires n <= |reqs|
  {
    exists i :: 0 <= i < n && reqs[i].role == role && !Met(reqs[i], signatures)
  }

  /** A signature fills one gap if its role was short and changes nothing otherwise. */
  lemma {:induction false} SignatureFillsOne(reqs: seq<Requirement>, n: nat, signatures: seq<string>, role: string)
    requires n <= |reqs| && DistinctRoles(reqs)
    ensures Deficit(reqs, n, signatures + [role]) ==
            Deficit(reqs, n, signatures) - if IsShort(reqs, n, signatures, role) then 1 else 0
  {
    if n == 0 {
    } else {
      SignatureFillsOne(reqs, n - 1, signatures, role);
      var last := reqs[n - 1];
      assert multiset(signatures + [role])[last.role] ==
             multiset(signatures)[last.role] + if last.role == role then 1 else 0;
      if last.role == role {
        assert !IsShort(reqs, n - 1, signatures, role);
        assert IsShort(reqs, n, signatures, role) <==> !Met(last, signatures);
      } else {
        assert IsShort(reqs, n, signatures, role) ==> IsShort(reqs, n - 1, signatures, role);
        assert IsShort(reqs, n - 1, signatures, role) ==> IsShort(reqs, n, signatures, role);
      }
    }
  }

  /** Over every run, what is missing never grows, and falls by at most one per signature. */
  lemma {:induction false} MissingNeverGrows(reqs: Option<seq<Requirement>>, c: Contract, ops: seq<Op>)
    requires reqs.Some? ==> DistinctRoles(reqs.value)
    ensures var d := Run(reqs, c, ops);
            && |c.signatures| <= |d.signatures|
            && Missing(reqs, d.signatures) <= Missing(reqs, c.signatures)
               <= Missing(reqs, d.signatures) + (|d.signatures| - |c.signatures|)
    decreases |ops|
  {
    if ops == [] {
    } else {
      if (ops[0].Sign? || ops[0].PortalSign?) && reqs.Some? {
        SignatureFillsOne(reqs.value, |reqs.value|, c.signatures, if ops[0].Sign? then ops[0].role else CLIENT);
      }
      MissingNeverGrows(reqs, Step(reqs, c, ops[0]), ops[1..]);
    }
  }

  /** A contract that a run brings from unsigned to SIGNED has taken at least as many signatures as were missing. */
  lemma SigningTakesEnough(reqs: Option<seq<Requirement>>, c: Contract, ops: seq<Op>)
    requires reqs.Some? ==> DistinctRoles(reqs.value)
    requires Honest(reqs, c) && EachPortalCompletes(reqs, c, ops) && Run(reqs, c, ops).status == Signed
    ensures |Run(reqs, c, ops).signatures| >= |c.signatures| + Missing(reqs, c.signatures)
  {
    var d := Run(reqs, c, ops);
    StatusIsHonestIff(reqs, c, ops);
    HonestAtTheEnd(reqs, c, ops);
    MissingNeverGrows(reqs, c, ops);
    if reqs.Some? {
      NoDeficitIffMet(reqs.value, |reqs.value|, d.signatures);
    }
  }

  // ---------------------------------------------------------------------------
  // Statuses one by one
  // ---------------------------------------------------------------------------

  /** The contract is out for signature. */
  predicate OutForSignature(c: Contract) {
    c.status in {Sent, PartiallySigned}
  }

  /**
   Where each operation takes a contract: out of DRAFT it is only sent or voided, out of SIGNED only amended or voided,
   and a signature signs it exactly when nothing is missing any more, or at once when the client gives it in the portal.
   */
  lemma StatusFollows(reqs: Option<seq<Requirement>>, c: Contract, op: Op)
    ensures Step(reqs, c, op).status ==
              match op
              case Send => if c.status == Draft then Sent else c.status
              case Sign(role) =>
                if !OutForSignature(c) then c.status
                else if Missing(reqs, c.signatures + [role]) == 0 then Signed else PartiallySigned
              case PortalSign(again) => if OutForSignature(c) && !again then Signed else c.status
              case VoidIt => Void
              case Amend => if c.status == Signed then Amended else c.status
    ensures Step(reqs, c, op).signatures ==
              match op
              case Sign(role) => if OutForSignature(c) then c.signatures + [role] else c.signatures
              case PortalSign(again) =>
                if OutForSignature(c) && !again then c.signatures + ["CLIENT"] else c.signatures
              case _ => c.signatures
  {
    if op.Sign? && reqs.Some? {
      NoDeficitIffMet(reqs.value, |reqs.value|, c.signatures + [op.role]);
    }
  }

  /** A voided contract stays as it is, whatever is tried. */
  lemma {:induction false} VoidIsFinal(reqs: Option<seq<Requirement>>, c: Contract, ops: seq<Op>)
    requires c.status == Void
    ensures Run(reqs, c, ops) == c
    decreases |ops|
  {
    if ops == [] {
    } else {
      VoidIsFinal(reqs, Step(reqs, c, ops[0]), ops[1..]);
    }
  }

  /** Voiding works at any time, keeps the signatures, and is for good. */
  lemma VoidedForGood(reqs: Option<seq<Requirement>>, c: Contract, ops: seq<Op>)
    ensures Run(reqs, Step(reqs, c, VoidIt), ops) == Contract(Void, c.signatures)
  {
    VoidIsFinal(reqs, Step(reqs, c, VoidIt), ops);
  }

  /** An amended contract stays as it is until it is voided. */
  lemma {:induction false} AmendedUntilVoid(reqs: Option<seq<Requirement>>, c: Contract, ops: seq<Op>)
    requires c.status == Amended
    ensures Run(reqs, c, ops) == Contract(if VoidIt in ops then Void else Amended, c.signatures)
    decreases |ops|
  {
    if ops == [] {
    } else {
      assert ops == [ops[0]] + ops[1..];
      if ops[0] == VoidIt {
        VoidIsFinal(reqs, Step(reqs, c, VoidIt), ops[1..]);
      } else {
        AmendedUntilVoid(reqs, Step(reqs, c, ops[0]), ops[1..]);
      }
    }
  }
}
