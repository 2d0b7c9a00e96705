/**
 * The calculator's input schemas (lib/types.ts): the address step, the roof
 * step and the consumption step, and their merge. A schema check either
 * accepts the input unchanged or reports one issue, with its Swedish message,
 * for every check that fails, in the order of the schema's keys.
 */
module Validation {
  import opened Wrappers
  import opened PostalCodes
  import Calculations

  datatype Field = Address | PostalCode | City | RoofAreaSqm | RoofAngle | RoofOrientation | AnnualConsumptionKwh

  datatype Issue = Issue(field: Field, message: string)

  datatype CalculatorInput = CalculatorInput(
    address: string,
    postalCode: string,
    city: string,
    roofAreaSqm: real,
    roofAngle: real,
    roofOrientation: string,
    annualConsumptionKwh: real)

  /** The roof-orientation enum, exactly as written (case-sensitive). */
  const RoofOrientations: set<string> := {"S", "SV", "SÖ", "V", "Ö", "NV", "NÖ", "N"}

  const AddressFields: set<Field> := {Address, PostalCode, City}
  const RoofFields: set<Field> := {RoofAreaSqm, RoofAngle, RoofOrientation}
  const ConsumptionFields: set<Field> := {AnnualConsumptionKwh}
  const AllFields: set<Field> := AddressFields + RoofFields + ConsumptionFields

  /** Positions of the characters outside the Basic Multilingual Plane. */
  ghost function NonBmpPositions(s: string): set<int> {
    set i | 0 <= i < |s| && s[i] as int >= 0x10000
  }

  /** Shifting every element of a set of integers by one keeps its size. */
  lemma {:induction false} ShiftedCardinality(a: set<int>)
    ensures |set j | j in a :: j + 1| == |a|
  {
    if x :| x in a {
      var rest := a - {x};
      ShiftedCardinality(rest);
      var img, imgRest := set j | j in a :: j + 1, set j | j in rest :: j + 1;
      forall y | y in img
        ensures y in imgRest + {x + 1}
      {
        var j :| j in a && y == j + 1;
        if j != x { assert j in rest; }
      }
      assert img == imgRest + {x + 1};
      assert x + 1 !in imgRest;
    } else {
      assert forall y :: y !in a;
      assert a == {};
    }
  }

  lemma NonBmpPositionsTail(s: string)
    requires s != []
    ensures NonBmpPositions(s) == (if s[0] as int >= 0x10000 then {0} else {})
      + set j | j in NonBmpPositions(s[1..]) :: j + 1
  {
    var tail := NonBmpPositions(s[1..]);
    forall i | i in NonBmpPositions(s) && i > 0
      ensures i in set j | j in tail :: j + 1
    {
      assert i - 1 in tail;
    }
  }

  /**
   * A JavaScript string's `length`: UTF-16 code units, so a character
   * outside the Basic Multilingual Plane counts twice.
   */
  function Utf16Length(s: string): (n: nat)
    ensures |s| <= n <= 2 * |s|
    ensures n == |s| + |NonBmpPositions(s)|
    ensures (forall i :: 0 <= i < |s| ==> s[i] as int < 0x10000) ==> n == |s|
  {
    if s == [] then 0
    else
      NonBmpPositionsTail(s);
      ShiftedCardinality(NonBmpPositions(s[1..]));
      (if s[0] as int < 0x10000 then 1 else 2) + Utf16Length(s[1..])
  }

  /** What each field must satisfy to be accepted. */
  predicate FieldAccepted(input: CalculatorInput, field: Field)
    ensures field == Address ==>
      (FieldAccepted(input, field) <==> |input.address| + |NonBmpPositions(input.address)| >= 3)
    ensures field == City ==>
      (FieldAccepted(input, field) <==> |input.city| + |NonBmpPositions(input.city)| >= 2)
    ensures field == RoofOrientation ==>
      (FieldAccepted(input, field) <==> input.roofOrientation in Calculations.OrientationTable)
  {
    match field
    case Address => Utf16Length(input.address) >= 3
    case PostalCode => IsPostalCode(input.postalCode)
    case City => Utf16Length(input.city) >= 2
    case RoofAreaSqm => 10.0 <= input.roofAreaSqm <= 500.0
    case RoofAngle => 0.0 <= input.roofAngle <= 90.0
    case RoofOrientation => input.roofOrientation in RoofOrientations
    case AnnualConsumptionKwh => 1000.0 <= input.annualConsumptionKwh <= 50000.0
  }

  /** The fields among `fields` that the input fails. */
  function RejectedFields(input: CalculatorInput, fields: set<Field>): set<Field> {
    set f | f in fields && !FieldAccepted(input, f)
  }

  function IssueFields(issues: seq<Issue>): set<Field> {
    set i | i in issues :: i.field
  }

  /** One check: no issue when it passes, one issue with its message when it fails. */
  function Check(ok: bool, field: Field, message: string): (issues: seq<Issue>)
    ensures IssueFields(issues) == if ok then {} else {field}
  {
    if ok then [] else [Issue(field, message)]
  }

  /** `z.string().min(n, message)`. */
  function MinLengthIssues(field: Field, s: string, min: nat, message: string): seq<Issue> {
    Check(Utf16Length(s) >= min, field, message)
  }

  /** `z.number().min(lo, loMessage).max(hi, hiMessage)`: both checks run, each may add an issue. */
  function RangeIssues(field: Field, x: real, lo: real, loMessage: string, hi: real, hiMessage: string): (issues: seq<Issue>)
    ensures IssueFields(issues) == if lo <= x <= hi then {} else {field}
  {
    var low, high := Check(x >= lo, field, loMessage), Check(x <= hi, field, hiMessage);
    IssueFieldsAppend(low, high);
    low + high
  }

  /** The issues the schema reports for one field, with the messages of lib/types.ts. */
  function FieldIssues(input: CalculatorInput, field: Field): (issues: seq<Issue>)
    ensures IssueFields(issues) == if FieldAccepted(input, field) then {} else {field}
  {
    match field
    case Address => MinLengthIssues(Address, input.address, 3, "Ange en giltig adress")
    case PostalCode => Check(IsPostalCode(input.postalCode), PostalCode, "Ange ett giltigt postnummer (XXX XX)")
    case City => MinLengthIssues(City, input.city, 2, "Ange stad")
    case RoofAreaSqm => RangeIssues(RoofAreaSqm, input.roofAreaSqm, 10.0, "Minst 10 m²", 500.0, "Max 500 m²")
    case RoofAngle => RangeIssues(RoofAngle, input.roofAngle, 0.0, "0–90°", 90.0, "0–90°")
    case RoofOrientation => Check(input.roofOrientation in RoofOrientations, RoofOrientation, "Välj takriktning")
    case AnnualConsumptionKwh =>
      RangeIssues(AnnualConsumptionKwh, input.annualConsumptionKwh, 1000.0, "Minst 1000 kWh", 50000.0, "Max 50 000 kWh")
  }

  lemma IssueFieldsAppend(a: seq<Issue>, b: seq<Issue>)
    ensures IssueFields(a + b) == IssueFields(a) + IssueFields(b)
  {
    assert forall i :: i in a + b <==> i in a || i in b;
  }

  lemma RejectedFieldsUnion(input: CalculatorInput, a: set<Field>, b: set<Field>)
    ensures RejectedFields(input, a + b) == RejectedFields(input, a) + RejectedFields(input, b)
  {
  }

  lemma RejectedFieldsSingle(input: CalculatorInput, f: Field)
    ensures RejectedFields(input, {f}) == if FieldAccepted(input, f) then {} else {f}
  {
  }

  lemma IssueFieldsEmpty(issues: seq<Issue>)
    ensures issues == [] <==> IssueFields(issues) == {}
  {
    if issues != [] {
      assert issues[0].field in IssueFields(issues);
    }
  }

  /** The issues of three fields, in order, name exactly those of the three that fail. */
  function ThreeFieldIssues(input: CalculatorInput, f1: Field, f2: Field, f3: Field): (issues: seq<Issue>)
    ensures IssueFields(issues) == RejectedFields(input, {f1, f2, f3})
  {
    var a, b, c := FieldIssues(input, f1), FieldIssues(input, f2), FieldIssues(input, f3);
    IssueFieldsAppend(a, b);
    IssueFieldsAppend(a + b, c);
    RejectedFieldsSingle(input, f1);
    RejectedFieldsSingle(input, f2);
    RejectedFieldsSingle(input, f3);
    RejectedFieldsUnion(input, {f1}, {f2});
    RejectedFieldsUnion(input, {f1, f2}, {f3});
    assert {f1} + {f2} == {f1, f2} && {f1, f2} + {f3} == {f1, f2, f3};
    a + b + c
  }

  /** `calculatorAddressSchema`. */
  function AddressStepIssues(input: CalculatorInput): (issues: seq<Issue>)
    ensures IssueFields(issues) == RejectedFields(input, AddressFields)
  {
    ThreeFieldIssues(input, Address, PostalCode, City)
  }

  /** `calculatorRoofSchema`. */
  function RoofStepIssues(input: CalculatorInput): (issues: seq<Issue>)
    ensures IssueFields(issues) == RejectedFields(input, RoofFields)
  {
    ThreeFieldIssues(input, RoofAreaSqm, RoofAngle, RoofOrientation)
  }

  /** `calculatorConsumptionSchema`. */
  function ConsumptionStepIssues(input: CalculatorInput): (issues: seq<Issue>)
    ensures IssueFields(issues) == RejectedFields(input, ConsumptionFields)
  {
    FieldIssues(input, AnnualConsumptionKwh)
  }

  /**
   * `calculatorSchema.safeParse(input)`, the merge of the three step schemas:
   * success with the input itself, or every issue of every step.
   */
  function ParseCalculator(input: CalculatorInput): (r: Result<CalculatorInput, seq<Issue>>)
    ensures r.Success? <==> RejectedFields(input, AllFields) == {}
    ensures r.Success? ==> r.value == input
    ensures r.Failure? ==> r.error != [] && IssueFields(r.error) == RejectedFields(input, AllFields)
  {
    var a, b, c := AddressStepIssues(input), RoofStepIssues(input), ConsumptionStepIssues(input);
    IssueFieldsAppend(a, b);
    IssueFieldsAppend(a + b, c);
    RejectedFieldsUnion(input, AddressFields, RoofFields);
    RejectedFieldsUnion(input, AddressFields + RoofFields, ConsumptionFields);
    var issues := a + b + c;
    IssueFieldsEmpty(issues);
    if issues == [] then Success(input) else Failure(issues)
  }

  /** The address step accepts exactly: address ≥ 3 characters, a postal code of the shape DDD DD, city ≥ 2 characters. */
  lemma AddressStepAcceptsIff(input: CalculatorInput)
    ensures AddressStepIssues(input) == [] <==>
      Utf16Length(input.address) >= 3 && IsPostalCode(input.postalCode) && Utf16Length(input.city) >= 2
  {
    if AddressStepIssues(input) != [] {
      assert AddressStepIssues(input)[0] in AddressStepIssues(input);
    }
    assert !FieldAccepted(input, Address) ==> Address in RejectedFields(input, AddressFields);
    assert !FieldAccepted(input, PostalCode) ==> PostalCode in RejectedFields(input, AddressFields);
    assert !FieldAccepted(input, City) ==> City in RejectedFields(input, AddressFields);
  }

  /** The roof step accepts exactly: area in [10, 500] m², angle in [0, 90]°, one of the eight orientation codes. */
  lemma RoofStepAcceptsIff(input: CalculatorInput)
    ensures RoofStepIssues(input) == [] <==>
      10.0 <= input.roofAreaSqm <= 500.0 && 0.0 <= input.roofAngle <= 90.0 && input.roofOrientation in RoofOrientations
  {
    if RoofStepIssues(input) != [] {
      assert RoofStepIssues(input)[0] in RoofStepIssues(input);
    }
    assert !FieldAccepted(input, RoofAreaSqm) ==> RoofAreaSqm in RejectedFields(input, RoofFields);
    assert !FieldAccepted(input, RoofAngle) ==> RoofAngle in RejectedFields(input, RoofFields);
    assert !FieldAccepted(input, RoofOrientation) ==> RoofOrientation in RejectedFields(input, RoofFields);
  }

  /** The consumption step accepts exactly: 1000 to 50 000 kWh per year. */
  lemma ConsumptionStepAcceptsIff(input: CalculatorInput)
    ensures ConsumptionStepIssues(input) == [] <==> 1000.0 <= input.annualConsumptionKwh <= 50000.0
  {
    if ConsumptionStepIssues(input) != [] {
      assert ConsumptionStepIssues(input)[0] in ConsumptionStepIssues(input);
    }
    assert !FieldAccepted(input, AnnualConsumptionKwh) ==> AnnualConsumptionKwh in RejectedFields(input, ConsumptionFields);
  }

  /** The accepted orientation codes are exactly the keys of the engine's factor table. */
  lemma AcceptedOrientationsAreTableKeys()
    ensures RoofOrientations == Calculations.OrientationTable.Keys
  {
  }

  /** An accepted orientation reaches its table entry, never the 0.9 fallback. */
  lemma AcceptedOrientationHasTableFactor(code: string)
    requires code in RoofOrientations
    ensures Calculations.OrientationFactor(code) == Calculations.OrientationTable[code]
    ensures Calculations.OrientationFactor(code) != Calculations.FallbackOrientationFactor
  {
    assert Calculations.ToUpperCase("S") == "S";
    assert Calculations.ToUpperCase("SV") == "SV";
    assert Calculations.ToUpperCase("SÖ") == "SÖ";
    assert Calculations.ToUpperCase("V") == "V";
    assert Calculations.ToUpperCase("Ö") == "Ö";
    assert Calculations.ToUpperCase("NV") == "NV";
    assert Calculations.ToUpperCase("NÖ") == "NÖ";
    assert Calculations.ToUpperCase("N") == "N";
  }
}
