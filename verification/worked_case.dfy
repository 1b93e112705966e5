/**
 * A worked case: a 30-year-old male, 5 ft 10 in, activity level 1.55,
 * going from 200 to 180 pounds.
 */
module WorkedCase {
  import opened Js
  import opened Metabolism
  import opened Weekly

  const Case: Body := Body("male", 30, HeightCm(5, 10), 1.55)

  /**
   * The first week targets floor(TDEE(200) - 1000) = 1903 kcal/day and ends
   * at 198.00 pounds. The week-count bounds of WeekCount confine the run to
   * 10 or 11 weeks; the exact count is not derived here.
   */
  lemma WorkedDeficit(weeks: seq<WeekRecord>)
    requires IsProjection(Deficit, Case, 200.0, 180.0, weeks)
    ensures 10 <= |weeks| <= 11
    ensures weeks[0] == WeekRecord(1, 198.0, 1903)
  {
    WeekCount(Deficit, Case, 200.0, 180.0, weeks);
    assert weeks[0] == Step(Deficit, Case, Before(200.0, weeks, 0), 1);
    assert Tdee(Case, 200.0) == 2903.8227;
    assert Target(Deficit, 2903.8227) == 1903;
    assert DailyOffset(Deficit, 2903.8227) == 1000.8227;
    assert ToFixed2(1000.8227 * 7.0) == 7005.76;
    assert ToFixed2(200.0 - 7005.76 / 3500.0) == 198.0;
  }

  const TieCase: Body := Body("female", 20, HeightCm(5, 8), 1.725)

  /**
   * A weight typed with four decimals can land the first week on an exact
   * hundredth tie: 200.9962 - 7004.20 / 3500 = 198.995, which rounds up to
   * 199.00. A double just below the tie would round down to 198.99 instead.
   */
  lemma WorkedTie(weeks: seq<WeekRecord>)
    requires IsProjection(Deficit, TieCase, 200.9962, 180.0, weeks)
    ensures 10 <= |weeks| <= 11
    ensures weeks[0] == WeekRecord(1, 199.0, 1984)
  {
    WeekCount(Deficit, TieCase, 200.9962, 180.0, weeks);
    assert weeks[0] == Step(Deficit, TieCase, Before(200.9962, weeks, 0), 1);
    assert Tdee(TieCase, 200.9962) == 2984.5996290444;
    assert Target(Deficit, 2984.5996290444) == 1984;
    assert DailyOffset(Deficit, 2984.5996290444) == 1000.5996290444;
    assert ToFixed2(1000.5996290444 * 7.0) == 7004.2;
    assert ToFixed2(200.9962 - 7004.2 / 3500.0) == 199.0;
  }
}
