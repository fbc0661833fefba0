# Health tracker panel — a Dafny model

A browser page tracks one day of health metrics: water cups, steps and sleep
hours. It derives an "overall healthy" flag and reports on each metric. It
also computes body mass index and estimated daily calories, and builds a
weekly report from a seven-day sample. Beside this it keeps a small amount of
panel state: a list of healthy tips, a background colour that cycles through
a palette of five, and a reset action.

This project models that logic without the page. Every rule is a pure
function over immutable data. The weekly report is an imperative method whose
loops are checked against recursive definitions.

- `health.dfy`, module `Health`: the health record, the healthy rule
  (water ≥ 8, steps ≥ 10000, sleep ≥ 7) and the metric update. The update
  turns a failed parse into 0.
- `metrics.dfy`, module `Metrics`: the water, steps and sleep reports; BMI
  with its invalid-input result and four half-open bands; the Mifflin-St Jeor
  calorie estimate with `Math.round`.
- `weekly.dfy`, module `Weekly`: the weekly report over a sample passed in as
  a parameter. It gives the steps total and rounded mean, the count of days
  with enough sleep, and each day's goal triple.
- `panel.dfy`, module `Panel`: the tips list, seen as child nodes (items and
  whitespace text), the background cycle, the reset action and a `Step`
  function that runs one panel command.

Two facts about the code shape the model:

- A metric keeps whatever `parseInt` returns, so it can be negative; only a
  failed parse becomes 0. The model uses `int`, not `nat`.
- Reset does not set the background cycle index back to 0 (see Findings).

`Panel.StepAsWritten` runs the commands as the code does. `Panel.Step` runs
them with the two corrections listed under Findings.

## Model

| member | source | states |
|---|---|---|
| Health.UpdateHealthStatus | script.js:40-49 | a failed parse stores 0 and a parsed number is stored as it is; the flag is true exactly when water ≥ 8, steps ≥ 10000 and sleep ≥ 7 |
| Health.InitialRecordConsistent | script.js:14-19 | the starting record 6/8500/7 already has the correct flag, which is false |
| Health.HealthyIffAllThresholds | script.js:45-49 | any consistent record is healthy if and only if all three thresholds are met |
| Health.OneFieldBelowGoalIsUnhealthy | script.js:40-49 | entering any one metric below its threshold makes the update unhealthy, whatever the other two inputs are |
| Health.HealthyIsMonotone | script.js:45-49 | raising any of the three metrics never turns a healthy day unhealthy |
| Health.UnparsedInputIsUnhealthy | script.js:40-49 | if any input fails to parse, the record is unhealthy |
| Health.ThresholdBoundaries | script.js:45-49 | boundary values 7/8/9, 9999/10000/10001 and 6/7/8 land on the correct side |
| Metrics.TrackWater | script.js:78-84 | "hydrated" if and only if cups ≥ 8, otherwise "drink more water"; the outcome carries the cup count |
| Metrics.CheckSteps | script.js:87-93 | "goal achieved" if and only if steps ≥ 10000, otherwise "keep walking"; the outcome carries the step count |
| Metrics.EvaluateSleep | script.js:118-126 | each integer gets exactly one outcome: good if and only if 7 ≤ h ≤ 9, not enough if and only if h < 7, too much if and only if h > 9 |
| Metrics.SleepBandsAreOrdered | script.js:118-126 | more hours never give a lower sleep outcome |
| Metrics.HealthyIffFormattersAgree | script.js:139-155 | on the stored record, healthy if and only if water and steps report success and sleep is not "not enough rest" |
| Metrics.HealthyWithTooMuchSleep | script.js:118-126 | a day can be healthy and still get "too much sleep" (10 hours) |
| Metrics.Categorize | script.js:104-112 | the category of a BMI value lies in its half-open band |
| Metrics.BandsPartitionTheLine | script.js:104-112 | a value is in a category's band if and only if that category is the one chosen, so the bands do not overlap |
| Metrics.CategorizeIsMonotone | script.js:104-112 | a larger BMI never gives a lower category |
| Metrics.BandBoundariesGoUp | script.js:104-112 | 18.5, 25 and 30 fall into the higher band |
| Metrics.CalculateBmi | script.js:96-115 | invalid if and only if weight ≤ 0 or height ≤ 0; otherwise the value is positive, times height² gives back the weight, and the category is its band |
| Metrics.HeavierNeverLowerCategory | script.js:101-112 | at a fixed height, a heavier weight never gives a lower category |
| Metrics.BmiExamples | script.js:96-112 | 70 kg at 1.75 m and 50 kg at 1.60 m are normal weight; 45 kg at 1.60 m is underweight; zero weight or zero height is invalid |
| Metrics.RoundHalfUp | script.js:135 | the result is the integer within one half of x, and a tie goes up |
| Metrics.RoundHalfUpIsUnique | script.js:135 | only one integer meets that rounding condition |
| Metrics.CalculateCalories | script.js:129-136 | the kcal figure is base calories times the activity factor, rounded to the nearest integer |
| Metrics.CaloriesGrowWithWeight | script.js:129-136 | with a positive activity factor, a heavier weight never gives a lower kcal estimate |
| Metrics.CaloriesExample | script.js:157-161 | 68 kg, 1.7 m, age 30, male, factor 1.5 gives base 1597.5 and 2396 kcal |
| Weekly.GoalsOfDay | script.js:208-214 | day i's triple uses only water[i] ≥ 8, steps[i] ≥ 10000 and sleep[i] ≥ 7 |
| Weekly.RoundedAverage | script.js:194 | the average is the integer nearest to total/7 |
| Weekly.BuildReport | script.js:177-217 | the water list is the sample's; the while loop's total is the sum of the steps; the count is the number of days with sleep ≥ 7, at most 7; there are seven triples, each from its own day |
| Weekly.CountAtMostLength | script.js:199-203 | the good-sleep count never exceeds the number of days |
| Weekly.SumBounds | script.js:188-193 | if every entry is in [lo, hi], the sum is between n·lo and n·hi |
| Weekly.DayGoalsMatchHealthyRule | script.js:208-214 | a day meets all three goals if and only if its values pass the healthy rule |
| Weekly.GeneratedNeverMeetsStepsGoal | script.js:172-214 | with steps drawn from [4000, 9999], no day meets the steps goal, so no day is healthy |
| Weekly.GeneratedTotalStepsBounds | script.js:172-193 | a generated week totals between 28000 and 69993 steps |
| Weekly.UniformWeekExample | script.js:186-194 | seven days of 5000 steps give a total of 35000 and a mean of 5000 |
| Panel.AddTip | script.js:259-264 | adding puts exactly one pool item at the end, keeps every earlier node, and shows the chosen tip last |
| Panel.RemoveLastChild | script.js:267-271 | as written: does nothing on an empty list, otherwise drops only the last child node |
| Panel.RemoveLastTip | script.js:267-271 | as intended: no change when no tip is shown, otherwise the shown tips lose exactly their last entry and exactly one node goes, so every whitespace node stays |
| Panel.RemoveUndoesAdd | script.js:259-271 | removing right after adding gives back the earlier list, in both versions |
| Panel.ResetListShowsSeedTips | script.js:304-308 | the reset markup shows exactly the three seed tips |
| Panel.RemoveLastChildAfterResetShowsNoChange | script.js:267-308 | after a reset, the as-written removal drops only whitespace, so all three tips remain |
| Panel.RemoveLastTipAfterResetDropsLastSeed | script.js:267-308 | after a reset, the intended removal takes away the third seed tip |
| Panel.NextBackground | script.js:283-286 | the next index is in [0, 5) and is one more than the old index, modulo 5 |
| Panel.AdvanceIsModular | script.js:281-286 | n clicks from index i land on (i + n) mod 5 |
| Panel.CycleReturnsAfterFive | script.js:281-286 | the index always stays in [0, 5) and first returns to its start after exactly five clicks |
| Panel.ResetAsWritten | script.js:289-318 | as written: a confirmed reset restores the metrics 6/8500/7, the seed tips and colour 0, but keeps the old cycle index; an unconfirmed one changes nothing |
| Panel.Reset | script.js:289-318 | as intended: a confirmed reset also sets the index to 0 and leaves a valid panel; an unconfirmed one changes nothing |
| Panel.Step | script.js:38-322 | as intended (removal of the last item, reset of the index): an update stores the parsed record; adding is `AddTip`, one item after every existing node; removal is `RemoveLastTip`; a colour change moves to the next index and shows its palette entry; reset is `Reset`; each leaves the rest of the state alone |
| Panel.StepAsWritten | script.js:38-322 | as written: removal is `RemoveLastChild` and changes nothing else, reset is `ResetAsWritten`, and every other command behaves as in `Panel.Step` |
| Panel.RemoveLastChildKeepsPools | script.js:267-271 | the as-written removal never adds a tip that was not in the fixed lists |
| Panel.StepAsWrittenPreservesValid | script.js:259-318 | as written: every command keeps the flag consistent, the index inside the palette and every tip from the fixed lists; the shown colour may drift from the index (see Findings) |
| Panel.RemoveLastTipKeepsPools | script.js:267-271 | removing never adds a tip that was not in the fixed lists |
| Panel.StepPreservesValid | script.js:259-318 | as intended: every command keeps the flag consistent, the index inside the palette, the shown colour equal to that index's entry, and every tip from the fixed lists |
| Panel.ResetForgetsHistory | script.js:289-318 | as intended: a confirmed reset gives the same default state from any state, and that state is valid and not healthy |
| Panel.UpdateIsIdempotent | script.js:38-49 | updating twice with the same inputs gives the same state as updating once |
| Panel.ResetAsWrittenSkipsColours | script.js:281-315 | as written: after two clicks and a reset, the next click shows palette colour 3, not colour 1 |
| Panel.ResetThenChangeShowsSecondColour | script.js:281-315 | as intended: the first click after any reset shows palette colour 1 |

## Left out

- Page output: DOM lookups, `innerHTML`/`textContent` writes and the HTML or emoji message text are not modelled. Each report is an outcome datatype that carries the reported value.
- Progress bars (`updateProgressBars`, script.js:22-35): display-only percentages.
- The motivational text (script.js:248-251) and the highlight toggle (script.js:254-256): presentation only.
- The `toFixed(2)` BMI display: formatting only.
- Randomness: `Math.random` for the weekly sample and the tip choice. The sample and the choice index are parameters. `Weekly.Generated` states the ranges the generator draws from.
- `parseInt`/`parseFloat` string handling: inputs arrive already parsed. `Health.ParsedInt` marks a failed parse, and `|| 0` turns that into 0. BMI and calorie inputs are reals, with 0 standing for a failed parse.
- The confirmation and alert dialogs: the confirmation answer is a `bool` parameter of the reset.
- The reset's other effects: clearing the three output areas, setting the weight and height inputs to 68 and 1.7, and restoring the motivational text.
- The page markup is not part of this model. So the tips list and background colour at first load, and the input values read by the first update (script.js:67), are unknown. `Panel.Defaults` is the state a confirmed reset produces.
- Metrics.CalculateBmi: uses exact real arithmetic, not IEEE doubles. A double quotient within rounding error of 18.5, 25 or 30 could fall into the other band.
- Metrics.CalculateCalories: the default arguments (male, activity 1.2) are not modelled; the only call (script.js:160) passes all five.
- Metrics.CalculateCalories: uses exact real arithmetic, not IEEE doubles. The rounding is modelled exactly as `floor(x + 1/2)`.
- Weekly.RoundedAverage: rounds the exact quotient total/7. A quotient of an integer by 7 is never exactly halfway, so the double rounding agrees unless the total is far beyond what seven days of steps produce.

## Findings

| source | as written | input that shows it | evidently intended | confidence | as-written member | corrected member |
|---|---|---|---|---|---|---|
| script.js:267-271 | removes `lastChild`, and after the reset's markup that is a whitespace text node | confirm a reset, then press "remove": only trailing whitespace goes, and all three seed tips stay on screen | remove the last list item (`lastElementChild`) | high — follows from DOM child-node rules; not executed | Panel.RemoveLastChild (shown by Panel.RemoveLastChildAfterResetShowsNoChange) | Panel.RemoveLastTip (proved by Panel.RemoveLastTipAfterResetDropsLastSeed and Panel.StepPreservesValid) |
| script.js:281-315 | reset paints palette colour 0 but does not set `bgIndex` back to 0 | click "change background" twice, confirm a reset, click once more: colour 3 appears instead of colour 1 | reset also sets the cycle index to 0 | medium — reset repaints the first colour, so the index is evidently meant to follow; not executed | Panel.ResetAsWritten (shown by Panel.ResetAsWrittenSkipsColours) | Panel.Reset (proved by Panel.ResetThenChangeShowsSecondColour and Panel.ResetForgetsHistory) |
