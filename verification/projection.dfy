/**
 * The weekly projection loops and the routine that picks between them:
 * calculateWeightData, calculateDeficitData and calculateSurplusData.
 */
module Projection {
  import opened Metabolism
  import opened Weekly

  /**
   * The loop the two calculate routines share: while the whole-pound guard
   * holds, recompute the TDEE at the current weight, record the target
   * calories and the next weight, and count the week. Over exact reals it
   * always stops, because each week moves the weight at least 1.99 pounds
   * toward the goal. With doubles the step vanishes for huge weights (at
   * 1e17 pounds adjacent doubles are 16 apart). The daily offset also
   * vanishes once the TDEE reaches 2^63 in magnitude (adjacent doubles are
   * 2048 apart, so subtracting 1000 changes nothing). In both cases the
   * loop spins.
   */
  method RunWeeks(mode: Mode, b: Body, currentWeight: real, goalWeight: real) returns (weeks: seq<WeekRecord>)
    ensures IsProjection(mode, b, currentWeight, goalWeight, weeks)
  {
    var pounds := currentWeight;
    var weekCounter := 0;
    weeks := [];
    while Continues(mode, pounds, goalWeight)
      invariant weekCounter == |weeks|
      invariant pounds == Before(currentWeight, weeks, |weeks|)
      invariant StepsFrom(mode, b, currentWeight, goalWeight, weeks)
      decreases Gap(mode, pounds, goalWeight)
    {
      StepsExtend(mode, b, currentWeight, goalWeight, weeks);
      var tdee := Tdee(b, pounds);
      var calories := Target(mode, tdee);
      pounds := NextWeight(mode, pounds, tdee);
      weekCounter := weekCounter + 1;
      weeks := weeks + [WeekRecord(weekCounter, pounds, calories)];
    }
  }

  /**
   * calculateDeficitData: the goal statistics, then one record per week
   * while the whole-pound weight stays above the goal's.
   */
  method CalculateDeficitData(gender: string, age: int, heightCm: real, currentWeight: real,
                              goalWeight: real, activityLevel: real) returns (data: WeightData)
    ensures data.goal.goalBMR == Bmr(gender, goalWeight, heightCm, age)
    ensures data.goal.goalTDEE == data.goal.goalBMR * activityLevel
    ensures IsProjection(Deficit, Body(gender, age, heightCm, activityLevel), currentWeight, goalWeight, data.weeks)
    ensures forall i :: 0 <= i < |data.weeks| ==> data.weeks[i].week == i + 1
    ensures forall i, j :: 0 <= i < j < |data.weeks| ==> data.weeks[j].weight < data.weeks[i].weight
    ensures data.weeks == [] <==> currentWeight.Floor <= goalWeight.Floor
    ensures 0 < |data.weeks| ==> data.weeks[|data.weeks| - 1].weight.Floor <= goalWeight.Floor
    ensures 0 < |data.weeks| ==> 199 * (|data.weeks| - 1) < 100 * (currentWeight.Floor - goalWeight.Floor)
  {
    var b := Body(gender, age, heightCm, activityLevel);
    var weeks := RunWeeks(Deficit, b, currentWeight, goalWeight);
    Facts(Deficit, b, currentWeight, goalWeight, weeks);
    data := WeightData(GoalStatsAt(b, goalWeight), weeks);
  }

  /**
   * calculateSurplusData: the goal statistics, then one record per week
   * while the whole-pound weight stays below the goal's.
   */
  method CalculateSurplusData(gender: string, age: int, heightCm: real, currentWeight: real,
                              goalWeight: real, activityLevel: real) returns (data: WeightData)
    ensures data.goal.goalBMR == Bmr(gender, goalWeight, heightCm, age)
    ensures data.goal.goalTDEE == data.goal.goalBMR * activityLevel
    ensures IsProjection(Surplus, Body(gender, age, heightCm, activityLevel), currentWeight, goalWeight, data.weeks)
    ensures forall i :: 0 <= i < |data.weeks| ==> data.weeks[i].week == i + 1
    ensures forall i, j :: 0 <= i < j < |data.weeks| ==> data.weeks[i].weight < data.weeks[j].weight
    ensures data.weeks == [] <==> currentWeight.Floor >= goalWeight.Floor
    ensures 0 < |data.weeks| ==> data.weeks[|data.weeks| - 1].weight.Floor >= goalWeight.Floor
    ensures 0 < |data.weeks| ==> 199 * (|data.weeks| - 1) < 100 * (goalWeight.Floor - currentWeight.Floor)
  {
    var b := Body(gender, age, heightCm, activityLevel);
    var weeks := RunWeeks(Surplus, b, currentWeight, goalWeight);
    Facts(Surplus, b, currentWeight, goalWeight, weeks);
    data := WeightData(GoalStatsAt(b, goalWeight), weeks);
  }

  /** The facts about a projection that the two routines report. */
  lemma Facts(mode: Mode, b: Body, currentWeight: real, goalWeight: real, weeks: seq<WeekRecord>)
    requires IsProjection(mode, b, currentWeight, goalWeight, weeks)
    ensures forall i :: 0 <= i < |weeks| ==> weeks[i].week == i + 1
    ensures forall i, j :: 0 <= i < j < |weeks| ==>
      (mode == Deficit ==> weeks[j].weight < weeks[i].weight) &&
      (mode == Surplus ==> weeks[i].weight < weeks[j].weight)
    ensures |weeks| == 0 <==> Gap(mode, currentWeight, goalWeight) <= 0
    ensures 0 < |weeks| ==> !Continues(mode, weeks[|weeks| - 1].weight, goalWeight)
    ensures 0 < |weeks| ==> 199 * (|weeks| - 1) < 100 * Gap(mode, currentWeight, goalWeight)
  {
    forall i | 0 <= i < |weeks|
      ensures weeks[i].week == i + 1
    {
      assert weeks[i] == Step(mode, b, Before(currentWeight, weeks, i), i + 1);
    }
    Monotone(mode, b, currentWeight, goalWeight, weeks);
    WeekCount(mode, b, currentWeight, goalWeight, weeks);
    if 0 < |weeks| {
      assert Before(currentWeight, weeks, |weeks|) == weeks[|weeks| - 1].weight;
    }
  }

  /**
   * calculateWeightData: converts the height to centimetres and runs the
   * deficit routine when the current weight is at least the goal, the
   * surplus routine otherwise. Either way no week is recorded exactly when
   * the two weights share a whole pound.
   */
  method CalculateWeightData(gender: string, age: int, heightFeet: int, heightInches: int,
                             currentWeight: real, goalWeight: real, activityLevel: real) returns (data: WeightData)
    ensures var b := Body(gender, age, HeightCm(heightFeet, heightInches), activityLevel);
      data.goal == GoalStatsAt(b, goalWeight) &&
      (currentWeight >= goalWeight ==> IsProjection(Deficit, b, currentWeight, goalWeight, data.weeks)) &&
      (currentWeight < goalWeight ==> IsProjection(Surplus, b, currentWeight, goalWeight, data.weeks))
    ensures data.weeks == [] <==> currentWeight.Floor == goalWeight.Floor
    ensures currentWeight >= goalWeight ==>
      forall i, j :: 0 <= i < j < |data.weeks| ==> data.weeks[j].weight < data.weeks[i].weight
    ensures currentWeight < goalWeight ==>
      forall i, j :: 0 <= i < j < |data.weeks| ==> data.weeks[i].weight < data.weeks[j].weight
  {
    var heightCm := HeightCm(heightFeet, heightInches);
    if currentWeight >= goalWeight {
      data := CalculateDeficitData(gender, age, heightCm, currentWeight, goalWeight, activityLevel);
    } else {
      data := CalculateSurplusData(gender, age, heightCm, currentWeight, goalWeight, activityLevel);
    }
  }
}
