/**
 * The Mifflin-St Jeor estimate of basal metabolic rate (BMR), with weight in
 * pounds, height in centimetres and age in years, and the imperial height
 * conversion done before it.
 */
module Metabolism {

  const KgPerPound: real := 0.453592
  const CmPerFoot: real := 30.48
  const CmPerInch: real := 2.54

  /** Height in centimetres from a feet-and-inches reading: total inches at 2.54 cm each. */
  function HeightCm(feet: int, inches: int): (cm: real)
    ensures cm == (12 * feet + inches) as real * 2.54
  {
    feet as real * CmPerFoot + inches as real * CmPerInch
  }

  /** The sex constant of the formula: -161 for exactly "female", +5 otherwise. */
  function SexConstant(gender: string): real {
    if gender == "female" then -161.0 else 5.0
  }

  /**
   * BMR in kcal/day: affine in weight, height and age, with 4.53592 kcal
   * per pound (10 per kg), 6.25 per cm, -5 per year, plus the sex constant.
   * Only the exact string "female" selects the female constant (-161);
   * every other gender string gets the male one (+5).
   */
  function Bmr(gender: string, pounds: real, heightCm: real, age: int): (r: real)
    ensures r == 4.53592 * pounds + 6.25 * heightCm - 5.0 * age as real + SexConstant(gender)
  {
    var kg := pounds * KgPerPound;
    if gender == "female" then
      10.0 * kg + 6.25 * heightCm - 5.0 * age as real - 161.0
    else
      10.0 * kg + 6.25 * heightCm - 5.0 * age as real + 5.0
  }

  /** Twelve inches make a foot, and height grows with either reading. */
  lemma HeightCmUnits(feet: int, inches: int)
    ensures HeightCm(feet, inches + 12) == HeightCm(feet + 1, inches)
    ensures HeightCm(feet, inches) < HeightCm(feet + 1, inches)
    ensures HeightCm(feet, inches) < HeightCm(feet, inches + 1)
  {
  }

  /**
   * For equal weight, height and age the male estimate exceeds the female
   * one by exactly 166 kcal/day, and any gender other than "female" is
   * treated as male.
   */
  lemma BmrGenderOffset(gender: string, pounds: real, heightCm: real, age: int)
    ensures Bmr("male", pounds, heightCm, age) - Bmr("female", pounds, heightCm, age) == 166.0
    ensures gender != "female" ==> Bmr(gender, pounds, heightCm, age) == Bmr("male", pounds, heightCm, age)
  {
  }

  /**
   * BMR rises by 4.53592 kcal/day per pound, so it strictly increases with
   * weight; it falls by 5 kcal/day per year of age and rises by 6.25 per cm.
   */
  lemma BmrSlopes(gender: string, pounds: real, heightCm: real, age: int, d: real)
    ensures Bmr(gender, pounds + d, heightCm, age) - Bmr(gender, pounds, heightCm, age) == 4.53592 * d
    ensures d > 0.0 ==> Bmr(gender, pounds, heightCm, age) < Bmr(gender, pounds + d, heightCm, age)
    ensures Bmr(gender, pounds, heightCm + d, age) - Bmr(gender, pounds, heightCm, age) == 6.25 * d
    ensures Bmr(gender, pounds, heightCm, age + 1) - Bmr(gender, pounds, heightCm, age) == -5.0
  {
  }
}
