/**
 * validateParameters: checks the seven parsed form values, collects one
 * message per failing field in a fixed order, alerts them when any check
 * failed, and returns nothing.
 */
module Validation {
  import opened Js
  import opened Wrappers

  /** The form values as the submit handler parses them. */
  datatype Raw = Raw(gender: string, age: Parsed<int>, heightFeet: Parsed<int>, heightInches: Parsed<int>,
                     currentWeight: Parsed<real>, goalWeight: Parsed<real>, activityLevel: Parsed<real>)

  /** The checked fields, in the order their checks run. */
  datatype Field = Gender | Age | HeightFeet | HeightInches | CurrentWeight | GoalWeight | ActivityLevel

  /** What validateParameters leaves behind: the alert it raised, if any, and its return value. */
  datatype Report = Report(failing: seq<Field>, alert: Option<string>, returned: Value)

  const ValidActivityLevels: seq<real> := [1.0, 1.2, 1.375, 1.465, 1.55, 1.725, 1.9]

  /** Position of a field's check in validateParameters. */
  function Rank(f: Field): (r: nat)
    ensures r < 7
  {
    match f
    case Gender => 0
    case Age => 1
    case HeightFeet => 2
    case HeightInches => 3
    case CurrentWeight => 4
    case GoalWeight => 5
    case ActivityLevel => 6
  }

  /** The message appended when a field's check fails. */
  function Message(f: Field): string {
    match f
    case Gender => "Please enter a valid gender: male or female\n"
    case Age => "Please enter a valid age between 10 and 110.\n"
    case HeightFeet => "Please enter a valid height in feet (3 to 9).\n"
    case HeightInches => "Please enter a valid height in inches (0 to 11).\n"
    case CurrentWeight => "Please enter a valid current weight between 75lbs and 650lbs.\n"
    case GoalWeight => "Please enter a valid goal weight between 75lbs and 650lbs.\n"
    case ActivityLevel => "Please enter a valid activity level.\n"
  }

  /** `isNaN(x) || x < lo || x > hi`. */
  predicate OutOfRange(x: Parsed<real>, lo: real, hi: real) {
    x.NaN? || Less(x, lo) || Greater(x, hi)
  }

  /**
   * The value the inches check hands to `isNaN`. The parenthesis in
   * `isNaN(h || h < 0 || h > 11)` closes after the whole disjunction, so
   * `isNaN` receives `(h || h < 0) || h > 11` rather than `h`: the number
   * itself when it is non-zero, and otherwise (0 or NaN) `false`.
   */
  function InchesCheckArgument(h: Parsed<int>): (v: Value)
    ensures h.Num? && h.value != 0 ==> v == Number(AsReal(h))
    ensures h.NaN? || h.value == 0 ==> v == Boolean(false)
  {
    var x := AsReal(h);
    Or(Or(Number(x), Boolean(Less(x, 0.0))), Boolean(Greater(x, 11.0)))
  }

  /**
   * The inches check as written. It is dead: `isNaN` sees either a
   * non-zero number or `false`, which it reads as 0, so it fails for no
   * input, NaN and out-of-range values included.
   */
  predicate InchesCheckFails(h: Parsed<int>)
    ensures !InchesCheckFails(h)
  {
    IsNaN(InchesCheckArgument(h))
  }

  /**
   * The condition under which each field's check appends its message. Every
   * check but the inches one fails exactly outside its field's domain; the
   * inches check fails for no input, in or out of its domain.
   */
  predicate Fails(raw: Raw, f: Field)
    ensures f != HeightInches ==> (Fails(raw, f) <==> !InDomain(raw, f))
    ensures f == HeightInches ==> !Fails(raw, f)
  {
    match f
    case Gender => raw.gender != "male" && raw.gender != "female"
    case Age => OutOfRange(AsReal(raw.age), 10.0, 110.0)
    case HeightFeet => OutOfRange(AsReal(raw.heightFeet), 3.0, 9.0)
    case HeightInches => InchesCheckFails(raw.heightInches)
    case CurrentWeight => OutOfRange(raw.currentWeight, 75.0, 650.0)
    case GoalWeight => OutOfRange(raw.goalWeight, 75.0, 650.0)
    case ActivityLevel => raw.activityLevel.NaN? || raw.activityLevel.value !in ValidActivityLevels
  }

  /**
   * The domain each field is documented to lie in: the two gender strings,
   * closed ranges for the numbers, and exact equality with one of the seven
   * activity levels.
   */
  predicate InDomain(raw: Raw, f: Field) {
    match f
    case Gender => raw.gender == "male" || raw.gender == "female"
    case Age => raw.age.Num? && 10 <= raw.age.value <= 110
    case HeightFeet => raw.heightFeet.Num? && 3 <= raw.heightFeet.value <= 9
    case HeightInches => raw.heightInches.Num? && 0 <= raw.heightInches.value <= 11
    case CurrentWeight => raw.currentWeight.Num? && 75.0 <= raw.currentWeight.value <= 650.0
    case GoalWeight => raw.goalWeight.Num? && 75.0 <= raw.goalWeight.value <= 650.0
    case ActivityLevel =>
      raw.activityLevel.Num? &&
      var v := raw.activityLevel.value;
      v == 1.0 || v == 1.2 || v == 1.375 || v == 1.465 || v == 1.55 || v == 1.725 || v == 1.9
  }

  /** The fields in the order validateParameters checks them. */
  const CheckOrder: seq<Field> := [Gender, Age, HeightFeet, HeightInches, CurrentWeight, GoalWeight, ActivityLevel]

  /**
   * Runs the checks of `fields` one after another, none stopping the
   * others, and keeps the fields whose check failed, in the order given.
   */
  function RunChecks(raw: Raw, fields: seq<Field>): (r: seq<Field>)
    requires forall i, j :: 0 <= i < j < |fields| ==> Rank(fields[i]) < Rank(fields[j])
    ensures forall f :: f in r <==> f in fields && Fails(raw, f)
    ensures forall i, j :: 0 <= i < j < |r| ==> Rank(r[i]) < Rank(r[j])
  {
    Keep(fields, f => Fails(raw, f))
  }

  /** The fields of `fields` that `failed` picks out, in the order given. */
  function Keep(fields: seq<Field>, failed: Field -> bool): (r: seq<Field>)
    requires forall i, j :: 0 <= i < j < |fields| ==> Rank(fields[i]) < Rank(fields[j])
    ensures forall f :: f in r <==> f in fields && failed(f)
    ensures forall i, j :: 0 <= i < j < |r| ==> Rank(r[i]) < Rank(r[j])
    ensures forall f :: f in r ==> Rank(fields[0]) <= Rank(f)
  {
    if fields == [] then []
    else
      var rest := Keep(fields[1..], failed);
      if failed(fields[0]) then [fields[0]] + rest else rest
  }

  /**
   * The failing fields: each failure is listed once, in check order. Since
   * the inches check never fails, these are the fields outside their domain
   * other than inches.
   */
  function FailingFields(raw: Raw): (r: seq<Field>)
    ensures forall f :: f in r <==> f != HeightInches && !InDomain(raw, f)
    ensures forall i, j :: 0 <= i < j < |r| ==> Rank(r[i]) < Rank(r[j])
  {
    var r := RunChecks(raw, CheckOrder);
    forall f ensures f in r <==> f != HeightInches && !InDomain(raw, f) {
      assert |CheckOrder| == 7;
      assert CheckOrder[Rank(f)] == f;
      assert f in r <==> Fails(raw, f);
    }
    r
  }

  /** The alert text: the messages of the given fields, one after another. */
  function ErrorMessage(fields: seq<Field>): (s: string)
    ensures |fields| > 0 ==> |s| > 0 && s[|s| - 1] == '\n'
    ensures |fields| == 0 ==> s == ""
  {
    if fields == [] then "" else Message(fields[0]) + ErrorMessage(fields[1..])
  }

  /**
   * validateParameters: alerts the concatenated messages exactly when some
   * field lies outside its domain (inches aside), and returns undefined in
   * every case, valid or not.
   */
  function ValidateParameters(raw: Raw): (r: Report)
    ensures forall f :: f in r.failing <==> f != HeightInches && !InDomain(raw, f)
    ensures forall i, j :: 0 <= i < j < |r.failing| ==> Rank(r.failing[i]) < Rank(r.failing[j])
    ensures r.alert.Some? <==> r.failing != []
    ensures r.alert.Some? ==> r.alert.value == ErrorMessage(r.failing)
    ensures r.returned == Undefined
  {
    var failing := FailingFields(raw);
    Report(failing, if |failing| > 0 then Some(ErrorMessage(failing)) else None, Undefined)
  }

  /** A value a hair away from a listed activity level is still rejected. */
  lemma ActivityLevelIsExact(raw: Raw)
    requires raw.activityLevel == Num(1.201)
    ensures ActivityLevel in ValidateParameters(raw).failing
  {
    assert !InDomain(raw, ActivityLevel);
    assert ActivityLevel in FailingFields(raw);
  }
}
