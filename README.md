# MineZero emissions calculator, modelled in Dafny

MineZero is a browser calculator for the carbon emissions of coal mining.
The user picks a mining activity ("surface-mining" or "underground-mining")
and enters a quantity for each of its sub-processes. The page then computes:

- the total emissions, as the sum of quantity times emission factor;
- a per-process breakdown, labelled by the transform `roomAndPillar` → `ROOM AND PILLAR`;
- the number of trees and of solar units needed to offset the total, by ceiling division;
- the emissions left after each offset, which may be negative;
- the cost of the emissions at 10 rupees per kg CO2.

A separate HTTP endpoint, `/api/calculate`, sums three posted fields without
any factor.

The project has six modules:

- `Wrappers`: `Option`, for absent values and for NaN.
- `ProcessLabel`: the label transform (`replace(/([A-Z])/g, ' $1').toUpperCase()`), with lemmas.
  - Each capital gets a space in front of it.
  - The label has no lower-case letter.
  - The label's length is the key's length plus the number of capitals.
  - With its spaces removed, the label is the key upper-cased.
  - Lemmas give the labels of the six keys of the table.
- `EmissionFactors`: the factor table, the form values and the `reduce` of `onSubmit`.
  - The quantity read for a key is `parseFloat(data[key] || 0)`, so a missing key and NaN both read as 0.
  - The `reduce` is modelled as a left fold. `WeightedSum` is its reference definition.
  - The breakdown is modelled as a `seq` comprehension.
  - Lemmas: the fold equals the weighted sum; the breakdown adds up to the total; keys outside the activity are ignored; an empty form gives zeros; the results are non-negative.
- `CarbonOffsets`: the offset constants, `Math.ceil`, the unit counts, the residuals and the cost.
  - A unit count is the least integer whose units cover the total.
  - A residual lies in (−rate, 0].
  - A lemma works through the example total of 10.6.
- `EmissionCalculator`: the result object as the function `Calculate`, and the page state as the class `Calculator`.
  - The class fields are the selected activity, the form values, the result, the carbon trends and the result panel's open flag.
  - Its methods are the constructor, `EnterQuantity`, `HandleActivityChange` and `OnSubmit`.
  - `Valid()` says the trends are always those of the result.
- `CalculateApi`: the request handler as a pure function `Handler` from a request to a `Response` value.
  - `parseFloat` is a parameter `parse: string -> Option<real>`. `None` stands for NaN, and NaN propagates through the sum.

Modelling decisions:

- Quantities and factors are exact `real`s: 0.1 is exactly one tenth.
- Integers are unbounded.
- The factor table is a map from activity to a `seq` of (key, factor) pairs, so the order of the sub-processes is explicit.
- The class holds the table as a constant field `factors`. The predicate `ReadsSourceTable()` says it equals `EmissionFactorTable`. The constructor establishes it, and since it speaks only of a `const` field it holds for the object's whole life. It is kept apart from `Valid()` so that a method's proof does not unfold the literal table.
- A submission without an activity returns `NoActivitySelected`, the case where the page shows its notice. A non-empty selection that is not a table key returns `UnknownActivity`. In both cases nothing changes.
- A successful submission calls `onToggle`, which flips the result panel. So a second successful submission closes the panel the first one opened. The model keeps this.
- The residuals after the offsets are not clamped at zero.
- The code does not check that the total is non-negative before computing the offsets, so the model has no precondition there. The non-negative case is a lemma.
- Empty activity vs. unknown activity: the code rejects the two cases differently (line 44 vs. line 55). The model follows the code.

## Model

| member | source | states |
|---|---|---|
| ProcessLabel.ToUpperChar | src/pages/emissions.js:74 | upper-cases an ASCII lower-case letter (code minus 32) and leaves every other character as it is; the result is never lower-case |
| ProcessLabel.LabelConcat | src/pages/emissions.js:74 | the label of `a + b` is the label of `a` followed by the label of `b` (the transform works per character) |
| ProcessLabel.LabelLength | src/pages/emissions.js:74 | the label is as long as the key plus one for every capital letter |
| ProcessLabel.LabelHasNoLowercase | src/pages/emissions.js:74 | no character of a label is a lower-case letter |
| ProcessLabel.LabelAt | src/pages/emissions.js:74 | the key's character at index i lands at i plus the number of capitals before it; a capital is preceded there by a space, any other character appears upper-cased |
| ProcessLabel.LabelSpaces | src/pages/emissions.js:74 | the label has as many spaces as the key plus one per capital: the only characters added are spaces |
| ProcessLabel.LabelWithoutSpaces | src/pages/emissions.js:74 | removing all spaces from the label gives the key, spaces removed, upper-cased |
| ProcessLabel.LabelOfLowerWord | src/pages/emissions.js:74 | a key with no capital is shown upper-cased and nothing else |
| ProcessLabel.LabelOfCapitalWord | src/pages/emissions.js:74 | a word whose only capital is its first letter is shown as a space and the word upper-cased |
| ProcessLabel.LabelOfCamelCase | src/pages/emissions.js:74 | a three-word camel-case key is shown as its three words upper-cased, separated by single spaces |
| ProcessLabel.SurfaceMiningLabels | src/pages/emissions.js:14-18 | `blasting`, `excavation`, `transportation` are shown as `BLASTING`, `EXCAVATION`, `TRANSPORTATION` |
| ProcessLabel.LongwallLabel | src/pages/emissions.js:21 | `longwall` is shown as `LONGWALL` |
| ProcessLabel.RoomAndPillarLabel | src/pages/emissions.js:20 | `roomAndPillar` is shown as `ROOM AND PILLAR` |
| ProcessLabel.SubLevelCavingLabel | src/pages/emissions.js:22 | `subLevelCaving` is shown as `SUB LEVEL CAVING` |
| EmissionFactors.LabelsAreBreakdownNames | src/pages/emissions.js:101-107 | the labels of the quantity inputs are, in order, the names of the result's breakdown rows, whatever the form holds |
| EmissionFactors.TotalFromIsWeightedSum | src/pages/emissions.js:57-60 | the reduce from any accumulator equals the accumulator plus the weighted sum of the remaining sub-processes |
| EmissionFactors.TotalIsWeightedSum | src/pages/emissions.js:57-60 | `totalEmissions` is the sum over the activity's sub-processes of quantity times factor |
| EmissionFactors.BreakdownRows | src/pages/emissions.js:73-76 | the breakdown has one row per sub-process, in table order, named by the key's label and valued at quantity times factor |
| EmissionFactors.BreakdownSumIsTotal | src/pages/emissions.js:57-76 | the values of the breakdown add up to `totalEmissions` |
| EmissionFactors.OnlyActivityKeysMatter | src/pages/emissions.js:57-60 | two forms that agree on the quantities of the activity's keys give the same total and the same breakdown |
| EmissionFactors.OtherKeysIgnored | src/pages/emissions.js:57-60 | dropping every form value whose key is not a sub-process of the activity changes neither total nor breakdown |
| EmissionFactors.EmptyFormGivesZero | src/pages/emissions.js:58 | a form with no number in it (nothing entered, or only NaN) gives total 0 and every breakdown value 0 |
| EmissionFactors.NonNegativeTotal | src/pages/emissions.js:57-60 | with non-negative factors and quantities the total and every breakdown value are non-negative |
| EmissionFactors.LookupTable | src/pages/emissions.js:13-24 | the table has exactly the keys `surface-mining` and `underground-mining`, each with its three sub-processes |
| EmissionFactors.TableWellFormed | src/pages/emissions.js:13-24 | every factor of the table is non-negative and no activity lists a sub-process twice |
| CarbonOffsets.Ceil | src/pages/emissions.js:62-63 | `Math.ceil`: an integer not below x and less than x + 1 |
| CarbonOffsets.UnitsRequired | src/pages/emissions.js:62-63 | `Math.ceil(total / rate)`: n units cover the total and n − 1 do not |
| CarbonOffsets.EmissionsAfterOffset | src/pages/emissions.js:65-66 | the residual `total − units × rate` lies in (−rate, 0] and is not clamped |
| CarbonOffsets.UnitsRequiredIsLeast | src/pages/emissions.js:62-63 | n units cover the total if and only if n is at least the required number |
| CarbonOffsets.NoEmissionsNoUnits | src/pages/emissions.js:62-66 | a total of 0 needs 0 units and leaves a residual of 0 |
| CarbonOffsets.UnitsNonNegative | src/pages/emissions.js:62-63 | a non-negative total needs a non-negative number of units, a positive total at least one |
| CarbonOffsets.UnitsMonotonic | src/pages/emissions.js:62-63 | a larger total never needs fewer units |
| CarbonOffsets.OffsetsOfNonNegativeTotal | src/pages/emissions.js:62-68 | for a total ≥ 0, counts and cost are ≥ 0, each count is 0 exactly when the total is 0, and each residual lies in (−rate, 0] for the tree rate 0.1 and the solar rate 0.12 |
| CarbonOffsets.OffsetsOfTenPointSix | src/pages/emissions.js:26-31 | for a total of 10.6: 106 trees with residual 0, 89 solar units with residual −0.08, cost 106 |
| EmissionCalculator.Calculate | src/pages/emissions.js:57-82 | the result's total is the weighted sum and its breakdown sums to it; it has one row per sub-process; the counts satisfy the ceiling bounds for the tree and solar rates; the residuals are total minus count times rate; the cost is the total times 10 |
| EmissionCalculator.CalculateRows | src/pages/emissions.js:73-76 | row i of the result's chart data is named by the label of the i-th key and valued at its quantity times its factor |
| EmissionCalculator.CalculateNonNegative | src/pages/emissions.js:57-68 | with non-negative factors and quantities every field except the residuals is non-negative, and the residuals lie in (−rate, 0] |
| EmissionCalculator.CalculateEmptyForm | src/pages/emissions.js:57-76 | a form with no number gives a result that is zero in every numeric field |
| EmissionCalculator.SurfaceMiningScenario | src/pages/emissions.js:57-68 | surface mining with blasting 10, excavation 5, transportation 2 gives total 10.6, breakdown 5, 5, 0.6, 106 trees, 89 solar units, residuals 0 and −0.08, cost 106 |
| EmissionCalculator.Calculator.constructor | src/pages/emissions.js:34-40 | starts with no activity, an empty form, no result, no trends and the result panel closed, reading the source's factor table |
| EmissionCalculator.Calculator.EnterQuantity | src/pages/emissions.js:109-113 | typing into a registered input sets that one form value and changes nothing else |
| EmissionCalculator.Calculator.HandleActivityChange | src/pages/emissions.js:93-97 | selects the activity and clears the form; result, trends and panel are unchanged |
| EmissionCalculator.Calculator.OnSubmit | src/pages/emissions.js:43-91 | with no activity: returns early and changes nothing; with an activity outside the table: changes nothing; otherwise sets result to Calculate of the activity's sub-processes and the form, sets the trends to that result's total and residuals, and toggles the panel; selection and form stay as they were |
| EmissionCalculator.SurfaceMiningSession | src/pages/emissions.js:34-113 | on a fresh page, choosing surface mining, typing blasting 10, excavation 5, transportation 2 and submitting shows the calculation for that form (total 10.6, 106 trees, 89 solar units) with the result panel open |
| CalculateApi.Handler | src/pages/api/calculate.js:1-10 | a POST answers 200 with a total body; any other method answers 405 with the message `Method not allowed` |
| CalculateApi.PostTotalIsUnweightedSum | src/pages/api/calculate.js:3-6 | a POST's total is excavation + transportation + equipment, with no factor applied, and is a number exactly when all three parse |
| CalculateApi.MissingFieldGivesNaN | src/pages/api/calculate.js:3-6 | a POST whose body lacks one of the three fields answers 200 with a NaN total, not an error |
| CalculateApi.OtherMethodsIgnoreBody | src/pages/api/calculate.js:7-8 | a non-POST answer is 405 and does not depend on the body or on parsing |
| CalculateApi.HandlerExamples | src/pages/api/calculate.js:1-10 | POST "1","2","3" answers 200 with total 6; POST "a","2","3" answers 200 with NaN; GET answers 405 |

## Left out

- Rendering is not modelled, because it is UI and library code: the JSX, the Chakra layout, the recharts charts, the toast, the router, the CSV export and the `toFixed` formatting.
- The calendar date (`date`, `setDate`) is not modelled. Nothing in the calculation reads it.
- Floating point is not modelled; the model uses exact reals. In JavaScript `10.6 / 0.1` is 105.99999999999999 and the tree residual is about −1.8e−15; in the model they are 106 and 0. The counts themselves can also differ by one: in doubles `1.08 / 0.12` is 9.000000000000002, so `Math.ceil` gives 10 solar panels where the model gives 9. `CarbonOffsets.UnitsRequiredIsLeast` is a statement about exact reals, not about the page as it runs.
- Infinity is not modelled: the model's numbers are reals or NaN.
- `parseFloat` is not modelled as string parsing. It is a parameter of `Handler`, and the form values are already numbers or NaN.
- JSON serialisation is not modelled. `JSON.stringify` writes a NaN total as `null`; the model keeps it as `TotalBody(None)`.
- A `null` or `undefined` request body is not modelled: destructuring it throws before any response (the framework then answers 500). A primitive body, such as raw text, reads as three missing fields, which the model covers as the empty body (`CalculateApi.MissingFieldGivesNaN`).
- The form library's validation is not modelled. The activity select is registered as required (line 159), and `handleSubmit` may refuse a submission before `onSubmit` runs. `OnSubmit` models the callback itself.
- Lookups of property names inherited by every JavaScript object (such as `toString`) are not modelled. `Lookup` sees only the table's own keys, and the select offers only those keys.
- ProcessLabel.ToUpperChar: upper-cases ASCII letters only. JavaScript's `toUpperCase` also maps other letters, some to two characters. Every table key is ASCII.
- src/components/EmissionsForm.js, src/components/Chart.js, src/components/DataVisualization.js, src/app/page.js, src/app/layout.js and src/pages/_app.js are not part of this model. They hold form state with a network `fetch`, chart configuration and static markup.
