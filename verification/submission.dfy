/**
 * The submit handler's control flow: validate, stop if the validator's
 * result loosely equals `false`, otherwise compute the weight data. Closing
 * the modal, reading and parsing the form, charting, the table and saving
 * to local storage are outside this model.
 */
module Submission {
  import opened Js
  import opened Wrappers
  import opened Metabolism
  import opened Validation
  import opened Weekly
  import opened Projection

  /**
   * What one submission does: stops after validation, or computes the
   * weight data from numeric inputs, or computes it from inputs of which
   * some parsed to NaN (whose NaN-valued records are not modelled).
   */
  datatype Outcome =
    | Halted(alert: Option<string>)
    | Projected(alert: Option<string>, data: WeightData)
    | ProjectedFromNaN(alert: Option<string>)

  /** Every numeric field parsed to a number. */
  predicate AllNumeric(raw: Raw) {
    raw.age.Num? && raw.heightFeet.Num? && raw.heightInches.Num? &&
    raw.currentWeight.Num? && raw.goalWeight.Num? && raw.activityLevel.Num?
  }

  /**
   * The guard `validateParameters(...) == false`. validateParameters
   * returns undefined, and undefined is loosely equal only to undefined (or
   * null), so the guard never stops a submission.
   */
  predicate GuardStops(raw: Raw)
    ensures !GuardStops(raw)
  {
    LooseEquals(ValidateParameters(raw).returned, Boolean(false))
  }

  /**
   * The submit handler. Whatever the validator alerts, the computation goes
   * ahead: invalid but numeric inputs (an age of 5, a weight of 700, a
   * gender other than the two strings) are projected like valid ones.
   */
  method Submit(raw: Raw) returns (r: Outcome)
    ensures r.alert == ValidateParameters(raw).alert
    ensures !r.Halted?
    ensures r.Projected? <==> AllNumeric(raw)
    ensures r.Projected? ==>
      var cur := raw.currentWeight.value;
      var goal := raw.goalWeight.value;
      var b := Body(raw.gender, raw.age.value, HeightCm(raw.heightFeet.value, raw.heightInches.value),
                    raw.activityLevel.value);
      IsProjection(if cur >= goal then Deficit else Surplus, b, cur, goal, r.data.weeks) &&
      r.data.goal == GoalStatsAt(b, goal) &&
      (r.data.weeks == [] <==> cur.Floor == goal.Floor)
  {
    var report := ValidateParameters(raw);
    var stops := GuardStops(raw);
    if !stops && AllNumeric(raw) {
      var data := CalculateWeightData(raw.gender, raw.age.value, raw.heightFeet.value, raw.heightInches.value,
                                      raw.currentWeight.value, raw.goalWeight.value, raw.activityLevel.value);
      r := Projected(report.alert, data);
    } else {
      r := if stops then Halted(report.alert) else ProjectedFromNaN(report.alert);
    }
  }
}
