/**
 * One week of the projection loop shared by calculateDeficitData and
 * calculateSurplusData, and the declarative description of the records the
 * loop produces, with the facts that follow from it: week numbering, the
 * direction and size of each weekly change, the exit at the first whole-pound
 * crossing, and bounds on the number of weeks.
 */
module Weekly {
  import opened Js
  import opened Metabolism

  /** Losing weight (calculateDeficitData) or gaining it (calculateSurplusData). */
  datatype Mode = Deficit | Surplus

  /** The inputs that stay fixed while the loop runs. */
  datatype Body = Body(gender: string, age: int, heightCm: real, activityLevel: real)

  /** The goal statistics that head the result. */
  datatype GoalStats = GoalStats(goalBMR: real, goalTDEE: real)

  /**
   * One week of the result. calculateDeficitData stores the weight as the
   * string that `toFixed(2)` returns, which later arithmetic coerces back to
   * the same number; here it is that number.
   */
  datatype WeekRecord = WeekRecord(week: int, weight: real, recommendedCalories: int)

  /** The array the calculator returns: goal statistics first, then the weeks in order. */
  datatype WeightData = WeightData(goal: GoalStats, weeks: seq<WeekRecord>)

  const DailyCalorieOffset: real := 1000.0
  const DaysPerWeek: real := 7.0
  const CaloriesPerPound: real := 3500.0

  /** Total daily energy expenditure at weight `pounds`. */
  function Tdee(b: Body, pounds: real): real {
    Bmr(b.gender, pounds, b.heightCm, b.age) * b.activityLevel
  }

  /** The goal statistics: BMR and TDEE at the goal weight. */
  function GoalStatsAt(b: Body, goalWeight: real): GoalStats {
    var bmr := Bmr(b.gender, goalWeight, b.heightCm, b.age);
    GoalStats(bmr, bmr * b.activityLevel)
  }

  /**
   * The recommended daily calories: the current TDEE shifted by 1000 kcal
   * and rounded down to a whole calorie.
   */
  function Target(mode: Mode, tdee: real): (r: int)
    ensures mode == Deficit ==> tdee - 1001.0 < r as real <= tdee - 1000.0
    ensures mode == Surplus ==> tdee + 999.0 < r as real <= tdee + 1000.0
  {
    match mode
    case Deficit => (tdee - DailyCalorieOffset).Floor
    case Surplus => (tdee + DailyCalorieOffset).Floor
  }

  /**
   * The daily calorie gap between the current TDEE and the target. Because
   * the target is rounded down, a deficit is never less than 1000 and a
   * surplus never more than 1000.
   */
  function DailyOffset(mode: Mode, tdee: real): (r: real)
    ensures mode == Deficit ==> 1000.0 <= r < 1001.0
    ensures mode == Surplus ==> 999.0 < r <= 1000.0
  {
    match mode
    case Deficit => tdee - Target(mode, tdee) as real
    case Surplus => Target(mode, tdee) as real - tdee
  }

  /**
   * The weight after one week: the weekly offset, rounded to hundredths,
   * converted at 3500 kcal per pound, applied, and the weight rounded to
   * hundredths again. Whatever the TDEE, this moves the weight by between
   * 1.99 and 2.01 pounds in the mode's direction.
   */
  function NextWeight(mode: Mode, pounds: real, tdee: real): (r: real)
    ensures IsHundredths(r)
    ensures mode == Deficit ==> pounds - 2.01 < r < pounds - 1.99
    ensures mode == Surplus ==> pounds + 1.99 < r < pounds + 2.01
  {
    var change := ToFixed2(DailyOffset(mode, tdee) * DaysPerWeek) / CaloriesPerPound;
    match mode
    case Deficit => ToFixed2(pounds - change)
    case Surplus => ToFixed2(pounds + change)
  }

  /**
   * The loop guard: whole pounds still on the far side of the goal. A
   * deficit continues while the weight is at least one pound above the
   * goal's whole pound, a surplus while it is below the goal's whole pound.
   */
  predicate Continues(mode: Mode, pounds: real, goalWeight: real)
    ensures mode == Deficit ==> (Continues(mode, pounds, goalWeight) <==> pounds >= goalWeight.Floor as real + 1.0)
    ensures mode == Surplus ==> (Continues(mode, pounds, goalWeight) <==> pounds < goalWeight.Floor as real)
  {
    match mode
    case Deficit => pounds.Floor > goalWeight.Floor
    case Surplus => pounds.Floor < goalWeight.Floor
  }

  /** Whole pounds still to go in the mode's direction: the loop's termination measure. */
  function Gap(mode: Mode, pounds: real, goalWeight: real): (r: int)
    ensures r > 0 <==> Continues(mode, pounds, goalWeight)
  {
    match mode
    case Deficit => pounds.Floor - goalWeight.Floor
    case Surplus => goalWeight.Floor - pounds.Floor
  }

  /**
   * The record of week `week`, computed from the weight the week starts at:
   * the week's number, a weight 1.99 to 2.01 pounds further in the mode's
   * direction, and calories within one of the TDEE shifted by 1000.
   */
  function Step(mode: Mode, b: Body, pounds: real, week: int): (r: WeekRecord)
    ensures r.week == week
    ensures IsHundredths(r.weight)
    ensures mode == Deficit ==>
      pounds - 2.01 < r.weight < pounds - 1.99 &&
      Tdee(b, pounds) - 1001.0 < r.recommendedCalories as real <= Tdee(b, pounds) - 1000.0
    ensures mode == Surplus ==>
      pounds + 1.99 < r.weight < pounds + 2.01 &&
      Tdee(b, pounds) + 999.0 < r.recommendedCalories as real <= Tdee(b, pounds) + 1000.0
  {
    var tdee := Tdee(b, pounds);
    WeekRecord(week, NextWeight(mode, pounds, tdee), Target(mode, tdee))
  }

  /** The weight before week `i + 1`: the starting weight, then each week's result. */
  function Before(currentWeight: real, weeks: seq<WeekRecord>, i: nat): real
    requires i <= |weeks|
  {
    if i == 0 then currentWeight else weeks[i - 1].weight
  }

  /**
   * Every record in `weeks` is what the loop body computes: the guard held
   * before it, and it is the step from the weight before it, numbered from
   * 1. The trigger is the weight before a week: one on `weeks[i]` would
   * chain from each record to the one before it.
   */
  predicate StepsFrom(mode: Mode, b: Body, currentWeight: real, goalWeight: real, weeks: seq<WeekRecord>) {
    forall i {:trigger Before(currentWeight, weeks, i)} :: 0 <= i < |weeks| ==>
      Continues(mode, Before(currentWeight, weeks, i), goalWeight) &&
      weeks[i] == Step(mode, b, Before(currentWeight, weeks, i), i + 1)
  }

  /** `weeks` is what the loop produces from `currentWeight`: every step, and the guard fails after the last. */
  predicate IsProjection(mode: Mode, b: Body, currentWeight: real, goalWeight: real, weeks: seq<WeekRecord>) {
    StepsFrom(mode, b, currentWeight, goalWeight, weeks) &&
    !Continues(mode, Before(currentWeight, weeks, |weeks|), goalWeight)
  }

  /** One more turn of the loop body keeps the records a run of steps. */
  lemma StepsExtend(mode: Mode, b: Body, currentWeight: real, goalWeight: real, weeks: seq<WeekRecord>)
    requires StepsFrom(mode, b, currentWeight, goalWeight, weeks)
    requires Continues(mode, Before(currentWeight, weeks, |weeks|), goalWeight)
    ensures var next := weeks + [Step(mode, b, Before(currentWeight, weeks, |weeks|), |weeks| + 1)];
      StepsFrom(mode, b, currentWeight, goalWeight, next) &&
      Before(currentWeight, next, |next|) == next[|weeks|].weight
  {
    var next := weeks + [Step(mode, b, Before(currentWeight, weeks, |weeks|), |weeks| + 1)];
    forall i | 0 <= i < |next|
      ensures Continues(mode, Before(currentWeight, next, i), goalWeight)
      ensures next[i] == Step(mode, b, Before(currentWeight, next, i), i + 1)
    {
      assert Before(currentWeight, next, i) == Before(currentWeight, weeks, i);
    }
  }

  /**
   * Between the weight before week `i + 1` and the weight before week
   * `j + 1` the weight moves by 1.99 to 2.01 pounds per week, down in a
   * deficit and up in a surplus.
   */
  lemma {:induction false} Drift(mode: Mode, b: Body, currentWeight: real, goalWeight: real,
                                 weeks: seq<WeekRecord>, i: nat, j: nat)
    requires IsProjection(mode, b, currentWeight, goalWeight, weeks)
    requires i <= j <= |weeks|
    ensures mode == Deficit ==>
      Before(currentWeight, weeks, i) - 2.01 * (j - i) as real <= Before(currentWeight, weeks, j) <=
      Before(currentWeight, weeks, i) - 1.99 * (j - i) as real
    ensures mode == Surplus ==>
      Before(currentWeight, weeks, i) + 1.99 * (j - i) as real <= Before(currentWeight, weeks, j) <=
      Before(currentWeight, weeks, i) + 2.01 * (j - i) as real
    decreases j - i
  {
    if i < j {
      Drift(mode, b, currentWeight, goalWeight, weeks, i, j - 1);
      var w := Before(currentWeight, weeks, j - 1);
      assert weeks[j - 1] == Step(mode, b, w, j);
      assert Before(currentWeight, weeks, j) == NextWeight(mode, w, Tdee(b, w));
    }
  }

  /**
   * Every recorded weight is already a whole number of hundredths, so
   * `toFixed(2)` of it gives it back: the string the deficit routine stores
   * and the number the surplus routine parses from it denote the same value.
   */
  lemma RecordedWeightsRounded(mode: Mode, b: Body, currentWeight: real, goalWeight: real, weeks: seq<WeekRecord>)
    requires StepsFrom(mode, b, currentWeight, goalWeight, weeks)
    ensures forall i :: 0 <= i < |weeks| ==> ToFixed2(weeks[i].weight) == weeks[i].weight
  {
    forall i | 0 <= i < |weeks|
      ensures ToFixed2(weeks[i].weight) == weeks[i].weight
    {
      assert weeks[i] == Step(mode, b, Before(currentWeight, weeks, i), i + 1);
      ToFixed2Keeps(weeks[i].weight);
    }
  }

  /** Recorded weights strictly decrease in a deficit and strictly increase in a surplus. */
  lemma Monotone(mode: Mode, b: Body, currentWeight: real, goalWeight: real, weeks: seq<WeekRecord>)
    requires IsProjection(mode, b, currentWeight, goalWeight, weeks)
    ensures forall i, j :: 0 <= i < j < |weeks| ==>
      (mode == Deficit ==> weeks[j].weight < weeks[i].weight) &&
      (mode == Surplus ==> weeks[i].weight < weeks[j].weight)
  {
    forall i, j | 0 <= i < j < |weeks|
      ensures mode == Deficit ==> weeks[j].weight < weeks[i].weight
      ensures mode == Surplus ==> weeks[i].weight < weeks[j].weight
    {
      Drift(mode, b, currentWeight, goalWeight, weeks, i + 1, j + 1);
    }
  }

  /**
   * The loop stops at the first crossing: a recorded weight is still on the
   * far side of the goal exactly when it is not the last one.
   */
  lemma ExitsAtFirstCrossing(mode: Mode, b: Body, currentWeight: real, goalWeight: real, weeks: seq<WeekRecord>)
    requires IsProjection(mode, b, currentWeight, goalWeight, weeks)
    ensures forall i :: 0 <= i < |weeks| ==>
      (Continues(mode, weeks[i].weight, goalWeight) <==> i < |weeks| - 1)
  {
    forall i | 0 <= i < |weeks|
      ensures Continues(mode, weeks[i].weight, goalWeight) <==> i < |weeks| - 1
    {
      assert weeks[i].weight == Before(currentWeight, weeks, i + 1);
    }
  }

  /**
   * The last weight may pass the goal, but by less than one weekly step:
   * a deficit ends at most 1.01 pounds under the goal's whole pound, a
   * surplus less than 2.01 pounds over it.
   */
  lemma Overshoot(mode: Mode, b: Body, currentWeight: real, goalWeight: real, weeks: seq<WeekRecord>)
    requires IsProjection(mode, b, currentWeight, goalWeight, weeks)
    requires |weeks| > 0
    ensures mode == Deficit ==>
      weeks[|weeks| - 1].weight.Floor <= goalWeight.Floor &&
      goalWeight.Floor as real - 1.01 < weeks[|weeks| - 1].weight
    ensures mode == Surplus ==>
      goalWeight.Floor <= weeks[|weeks| - 1].weight.Floor &&
      weeks[|weeks| - 1].weight < goalWeight.Floor as real + 2.01
  {
    var n := |weeks|;
    var w := Before(currentWeight, weeks, n - 1);
    assert Continues(mode, w, goalWeight);
    assert weeks[n - 1] == Step(mode, b, w, n);
    assert Before(currentWeight, weeks, n) == weeks[n - 1].weight;
  }

  /**
   * The number of weeks: none exactly when the starting weight is not on the
   * far side of the goal, and otherwise roughly the whole-pound gap divided
   * by two, since each week moves between 1.99 and 2.01 pounds.
   */
  lemma WeekCount(mode: Mode, b: Body, currentWeight: real, goalWeight: real, weeks: seq<WeekRecord>)
    requires IsProjection(mode, b, currentWeight, goalWeight, weeks)
    ensures |weeks| == 0 <==> Gap(mode, currentWeight, goalWeight) <= 0
    ensures |weeks| > 0 ==> 199 * (|weeks| - 1) < 100 * Gap(mode, currentWeight, goalWeight)
    ensures 100 * (Gap(mode, currentWeight, goalWeight) - 1) < 201 * |weeks|
  {
    var n := |weeks|;
    Drift(mode, b, currentWeight, goalWeight, weeks, 0, n);
    if n > 0 {
      Drift(mode, b, currentWeight, goalWeight, weeks, 0, n - 1);
      assert Continues(mode, Before(currentWeight, weeks, n - 1), goalWeight);
    }
  }

  /** The description determines the records: two runs from the same inputs agree. */
  lemma Deterministic(mode: Mode, b: Body, currentWeight: real, goalWeight: real,
                      weeks1: seq<WeekRecord>, weeks2: seq<WeekRecord>)
    requires IsProjection(mode, b, currentWeight, goalWeight, weeks1)
    requires IsProjection(mode, b, currentWeight, goalWeight, weeks2)
    ensures weeks1 == weeks2
  {
    var m := if |weeks1| <= |weeks2| then |weeks1| else |weeks2|;
    SamePrefix(mode, b, currentWeight, goalWeight, weeks1, weeks2, m);
    assert Before(currentWeight, weeks1, m) == Before(currentWeight, weeks2, m);
    assert weeks1 == weeks1[..m];
    assert weeks2 == weeks2[..m];
  }

  lemma {:induction false} SamePrefix(mode: Mode, b: Body, currentWeight: real, goalWeight: real,
                                      weeks1: seq<WeekRecord>, weeks2: seq<WeekRecord>, k: nat)
    requires IsProjection(mode, b, currentWeight, goalWeight, weeks1)
    requires IsProjection(mode, b, currentWeight, goalWeight, weeks2)
    requires k <= |weeks1| && k <= |weeks2|
    ensures weeks1[..k] == weeks2[..k]
  {
    if k > 0 {
      SamePrefix(mode, b, currentWeight, goalWeight, weeks1, weeks2, k - 1);
      assert Before(currentWeight, weeks1, k - 1) == Before(currentWeight, weeks2, k - 1);
      assert weeks1[k - 1] == weeks2[k - 1];
      assert weeks1[..k] == weeks1[..k - 1] + [weeks1[k - 1]];
      assert weeks2[..k] == weeks2[..k - 1] + [weeks2[k - 1]];
    }
  }
}
