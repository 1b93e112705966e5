# Calorie calculator: validation, Mifflin-St Jeor BMR and weekly weight projection

This project models the computational core of a small browser calorie
calculator (`script/CalorieCalculator.js`) in Dafny and proves properties of
the model.

The calculator reads seven form values: gender, age, height in feet and
inches, current weight, goal weight and activity level. `validateParameters`
checks them and alerts one message per failing field. `calculateWeightData`
converts the height to centimetres and picks a routine. When the current
weight is at least the goal, it runs `calculateDeficitData`; otherwise it
runs `calculateSurplusData`. Both routines compute the goal BMR and TDEE with
the Mifflin-St Jeor formula (`calculateBMR`). They then simulate the weight
week by week. Each week the target calories are the current TDEE minus (or
plus) 1000 kcal, rounded down. The weight moves by the resulting weekly
offset at 3500 kcal per pound and is rounded to hundredths. The loop runs
while the whole-pound weight is still on the far side of the goal's whole
pound.

Modules, one per concern:

- `Js` (js.dfy): parsed numbers with NaN, truthiness, the operand-returning
  `||`, `isNaN`, loose `==`, and `toFixed(2)` on exact reals.
- `Metabolism` (metabolism.dfy): `calculateBMR` and the feet/inches to
  centimetre conversion.
- `Weekly` (weekly.dfy): one week of the loop, the declarative description
  `IsProjection` of what the loop records, and the lemmas about it.
- `Projection` (projection.dfy): the loop itself (`RunWeeks`) and the three
  calculate routines.
- `Validation` (validation.dfy): `validateParameters`.
- `Submission` (submission.dfy): the submit handler's guard.
- `WorkedCase` (worked_case.dfy): one concrete run.

Numbers are exact Dafny reals. `Math.floor` is `.Floor`. `x.toFixed(2)` read
back as a number is `Js.ToFixed2`: the nearest multiple of 0.01, with ties
away from zero.

What the proofs establish about the projection:

- Because the target is rounded down, the daily offset lies in [1000, 1001)
  in a deficit and in (999, 1000] in a surplus.
- So every week moves the weight by more than 1.99 and less than 2.01
  pounds, whatever the BMR or activity level.
- This yields the loop's termination measure: the whole-pound gap drops by
  at least one each week.
- With n weeks and whole-pound gap D: n is 0 exactly when D <= 0.
  Otherwise 199(n-1) < 100D and 100(D-1) < 201n.
- Recorded weights are strictly monotone, and weeks are numbered 1..n.
- The loop stops at the first week whose weight has crossed the goal's
  whole pound. The last weight may overshoot, but by less than one step.

Behaviour of the code that the model keeps as written:

- The inches check `isNaN(heightInches || heightInches < 0 || heightInches > 11)`
  never fails, not even for NaN. A non-zero number makes `isNaN` see that
  number. For 0 or NaN it sees `false`, which it reads as 0
  (`Validation.InchesCheckFails`). A range check of 0..11 was evidently
  meant, but the code rejects nothing.
- `validateParameters` returns `undefined`, and `undefined == false` is
  false. So the handler's guard never stops a submission, and invalid
  numeric input is projected like valid input (`Submission.GuardStops`,
  `Submission.Submit`). A design where the validator gates the projection
  is not what the code does; the model follows the code.
- Any gender string other than exactly `"female"` gets the male constant in
  the BMR.
- The loop guards are `floor(weight) > floor(goal)` (deficit) and
  `floor(weight) < floor(goal)` (surplus). So recorded weights strictly
  decrease (or increase), and the run ends at the first crossing, not at
  equality.
- `calculateDeficitData` stores each weight as the string `toFixed(2)`
  returns. Later arithmetic coerces it back to the same number, so the model
  stores the number. Every recorded weight is already a whole number of
  hundredths, which `toFixed(2)` gives back unchanged
  (`Weekly.RecordedWeightsRounded`).

## Model

| member | source | states |
|---|---|---|
| `Js.ToFixed2` | script/CalorieCalculator.js:282-283 | `toFixed(2)` read back as a number is a whole number of hundredths within half a hundredth of its argument, ties away from zero |
| `Js.ToFixed2Keeps` | script/CalorieCalculator.js:283 | `toFixed(2)` of a value that is already a whole number of hundredths gives that value back |
| `Js.LooseEquals` | script/CalorieCalculator.js:90 | loose `==`: undefined equals only undefined, NaN equals nothing, booleans compare by value, a number equals a boolean iff it is 1 for true or 0 for false |
| `Js.Or` | script/CalorieCalculator.js:141 | JavaScript's `or` yields one of its two operands, and the result is truthy iff either operand is |
| `Metabolism.HeightCm` | script/CalorieCalculator.js:185 | the height in centimetres is the total number of inches (12 per foot) times 2.54 |
| `Metabolism.Bmr` | script/CalorieCalculator.js:198-203 | BMR is affine: 4.53592 kcal per pound (10 per kg at 0.453592 kg/lb), 6.25 per cm, -5 per year, plus -161 for exactly "female" and +5 for any other gender |
| `Metabolism.HeightCmUnits` | script/CalorieCalculator.js:185 | the feet/inches conversion agrees that 12 inches make a foot and grows with either reading |
| `Metabolism.BmrGenderOffset` | script/CalorieCalculator.js:198-203 | for equal weight, height and age the male BMR exceeds the female one by exactly 166; any gender other than "female" gets the male formula |
| `Metabolism.BmrSlopes` | script/CalorieCalculator.js:198-203 | BMR rises 4.53592 kcal per pound, so it strictly increases with weight; 6.25 per cm of height; falls 5 per year of age |
| `Weekly.Target` | script/CalorieCalculator.js:276-277 | the recommended calories are the whole number in (TDEE-1001, TDEE-1000] for a deficit, and in (TDEE+999, TDEE+1000] for a surplus (lines 230-231) |
| `Weekly.DailyOffset` | script/CalorieCalculator.js:279 | the daily deficit lies in [1000, 1001); the daily surplus (line 233) lies in (999, 1000] |
| `Weekly.NextWeight` | script/CalorieCalculator.js:280-283 | the next weight is a whole number of hundredths, between 1.99 and 2.01 pounds below the current one in a deficit and above it in a surplus (lines 234-237) |
| `Weekly.Continues` | script/CalorieCalculator.js:273 | the deficit guard holds iff the weight is at least the goal's whole pound plus one; the surplus guard (line 226) iff the weight is below the goal's whole pound |
| `Weekly.Step` | script/CalorieCalculator.js:275-294 | one week's record carries its week number, a weight in hundredths 1.99 to 2.01 lb further in the mode's direction, and calories in (TDEE-1001, TDEE-1000] for a deficit or (TDEE+999, TDEE+1000] for a surplus (lines 229-248) |
| `Weekly.Gap` | script/CalorieCalculator.js:273 | the whole-pound gap to the goal is positive exactly when the loop guard holds |
| `Weekly.StepsExtend` | script/CalorieCalculator.js:275-294 | one turn of the loop body appends the next week's record and keeps every record the step from the weight before it |
| `Weekly.Drift` | script/CalorieCalculator.js:271-295 | over k weeks the weight moves between 1.99k and 2.01k pounds, downward in a deficit and upward in a surplus |
| `Weekly.RecordedWeightsRounded` | script/CalorieCalculator.js:282-283 | every recorded weight is unchanged by `toFixed(2)`, so the stored string (deficit) and the parsed number (surplus, lines 236-237) denote the same value |
| `Weekly.Monotone` | script/CalorieCalculator.js:282-283 | recorded weights strictly decrease in a deficit and strictly increase in a surplus |
| `Weekly.ExitsAtFirstCrossing` | script/CalorieCalculator.js:273 | a recorded weight is still on the far side of the goal's whole pound iff it is not the last record |
| `Weekly.Overshoot` | script/CalorieCalculator.js:226 | the last weight has crossed the goal's whole pound, by less than 1.01 pounds below it in a deficit and less than 2.01 above it in a surplus |
| `Weekly.WeekCount` | script/CalorieCalculator.js:271-295 | no week is recorded iff the whole-pound gap is not positive; otherwise 199(n-1) < 100·gap and 100(gap-1) < 201n |
| `Weekly.Deterministic` | script/CalorieCalculator.js:256-298 | the loop's description determines the records: two runs from the same inputs agree |
| `Projection.RunWeeks` | script/CalorieCalculator.js:271-295 | the while loop terminates and its records satisfy the loop description: guard before each week, step from the previous weight, week numbers 1..n, guard false after the last |
| `Projection.CalculateDeficitData` | script/CalorieCalculator.js:256-298 | goal BMR and TDEE head the result; weeks are numbered 1..n, weights strictly decrease, no weeks iff floor(current) <= floor(goal), the last weight's floor is at most the goal's, and n is bounded by the whole-pound gap over 1.99, plus one |
| `Projection.CalculateSurplusData` | script/CalorieCalculator.js:209-252 | goal BMR and TDEE head the result; weeks are numbered 1..n, weights strictly increase, no weeks iff floor(current) >= floor(goal), the last weight's floor is at least the goal's, and n is bounded as for the deficit |
| `Projection.CalculateWeightData` | script/CalorieCalculator.js:183-188 | height is `Metabolism.HeightCm` of the feet and inches (feet·30.48 + inches·2.54); the deficit loop runs iff current >= goal, else the surplus loop; no week is recorded iff the two weights share a whole pound; weights move toward the goal |
| `Validation.InchesCheckArgument` | script/CalorieCalculator.js:141 | `isNaN` receives the whole disjunction rather than `h`: the number itself when it is non-zero, and `false` when it is 0 or NaN |
| `Validation.InchesCheckFails` | script/CalorieCalculator.js:141-145 | the mis-parenthesised inches check fails for no input, NaN or out of range included |
| `Validation.Fails` | script/CalorieCalculator.js:120-167 | each check except inches fails exactly when its field is outside its domain: the two gender strings, age 10..110, feet 3..9, weights 75..650, one of the seven activity levels; the inches check never fails |
| `Validation.RunChecks` | script/CalorieCalculator.js:116-167 | running the checks in turn keeps exactly the failing fields, in check order, each once |
| `Validation.FailingFields` | script/CalorieCalculator.js:116-167 | the failing fields are exactly the fields other than inches outside their domain, in the order gender, age, feet, inches, current, goal, activity |
| `Validation.ErrorMessage` | script/CalorieCalculator.js:122-165 | the alert text is empty for no failures and otherwise ends with the last message's newline |
| `Validation.ValidateParameters` | script/CalorieCalculator.js:114-173 | one message per out-of-domain field in check order; an alert with their concatenation iff there is at least one; the return value is undefined in every case |
| `Validation.ActivityLevelIsExact` | script/CalorieCalculator.js:162-163 | an activity level a hair away from a listed one (1.201) is rejected |
| `Submission.GuardStops` | script/CalorieCalculator.js:90-93 | `validateParameters(...) == false` is false for every input, so the handler never returns early |
| `Submission.Submit` | script/CalorieCalculator.js:73-106 | the alert is the validator's; the handler never halts; with all numeric fields it projects, valid or not, from the parsed values |
| `WorkedCase.WorkedDeficit` | script/CalorieCalculator.js:275-283 | male, 30, 5 ft 10 in, activity 1.55, 200 to 180 lb: week 1 targets 1903 kcal and ends at 198.00 lb; the bounds of `Weekly.WeekCount` confine the run to 10 or 11 weeks |
| `WorkedCase.WorkedTie` | script/CalorieCalculator.js:275-283 | female, 20, 5 ft 8 in, activity 1.725, 200.9962 to 180 lb: week 1 targets 1984 kcal and its weight, exactly 198.995 before rounding, is recorded as 199.00; the run has 10 or 11 weeks |

## Left out

- `window.onload` and `SaveDetails` (local storage save and restore) are outside the model. They are persistence glue with no effect on the computation.
- The submit handler's DOM reads, the modal, and `parseInt`/`parseFloat` on the field text are outside the model. Parsed values are the model's inputs, each a number or NaN (`Js.Parsed`).
- `alert` is modelled as the alert text the validator would show. `console.log` calls are left out as debugging output.
- `addChart` and `displayDataDetails` (Chart.js chart and DOM table) are outside the model. They only render the returned data.
- Numbers are exact reals, not IEEE-754 doubles. `parseFloat` yielding Infinity or -Infinity is not represented. The multiplications and subtractions differ from the real-number model in the last binary digit. `toFixed(2)` and `Math.floor` round to whole hundredths and whole numbers, so they can turn that last-digit difference into 0.01 lb or 1 kcal.
  - When this happens: at an exact hundredth tie, which weights typed with three or more decimals produce, or at an exact-integer TDEE minus 1000.
  - What changes: every later recorded weight differs by 0.01 lb, a week's calories by 1 kcal, and the week count can differ by one.
  - Example, with every field in range: female, 20, 5 ft 8 in, activity 1.725, 200.9962 to 180 lb. In exact reals week 1 lands on 198.995, which `toFixed` rounds up to 199.00 (`WorkedCase.WorkedTie`). Then 11 weeks are recorded, ending at 179.00. The double just below the tie rounds to 198.99, giving 10 weeks that end at 180.99.
  - Out-of-range inputs can take the doubles much further from the model (next line).
- Projection.RunWeeks: termination (and the bounds of `Weekly.NextWeight` and `Weekly.WeekCount`) hold for exact reals only. The validator alerts every input below, but the guard does not stop them. With doubles the loop can leave the model in three ways:
  - Huge weights: the loop does not terminate once the 2 lb step falls below half the spacing of doubles. An example is a current weight of 1e17 lb, where adjacent doubles are 16 apart.
  - Huge TDEE, even with ordinary weights: from |TDEE| >= 2^56 (about 7.2e16), adjacent doubles are 16 or more apart. `currentTDEE - 1000` and its floor then round to a multiple of that spacing. The daily offset becomes 992, 1008 or 1024 instead of 1000, and the weekly step becomes 1.984, 2.016 or 2.048 lb, outside the 1.99 to 2.01 band. From |TDEE| >= 2^63 (about 9.2e18), adjacent doubles are 2048 apart. `currentTDEE - 1000` rounds back to `currentTDEE`, the daily offset is 0, the weight never moves, and the loop never ends. An age of 2e18, a height of about 5e16 feet or an activity level of about 1e16 each gives such a TDEE for a 200 to 180 lb goal.
  - Infinite goal: a goal of -Infinity never terminates.
- Submission.Submit: when a numeric field is NaN, the model returns `ProjectedFromNaN` without modelling NaN arithmetic. In the source, a NaN current or goal weight makes `current >= goal` false, so the surplus routine runs. Its guard compares with NaN and is false, so the result is the goal header and no weeks. The header is NaN when the goal weight is NaN. If both weights are numbers and age, feet or inches is NaN, both goal BMR and goal TDEE are NaN. If only the activity level is NaN, the goal BMR is a number and only the goal TDEE is NaN. If the guard then holds, the loop records exactly one week with NaN weight and calories, then exits. Otherwise it records none.
- The deficit routine stores weights as strings. The model stores the number the string denotes, which is what later arithmetic and comparisons use.
