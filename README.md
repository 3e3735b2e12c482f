# BMI calculator — Dafny model

A model of the calculation behind the BMI form in `bmi_calc/script.js`, in
one module `BmiCalc` (`bmi.dfy`). The submit handler reads a weight and a
height with their units, rejects empty, non-numeric or non-positive fields,
converts to kilograms and metres (with a rule that reads a "metres" height
above 3 as centimetres and flags it), computes `kg / (m * m)`, rounds it to
one decimal with `Math.round(x * 10) / 10`, classifies the rounded value on
a four-rung ladder, and advises gaining, losing or keeping weight against
the healthy range `18.5 * m²` to `24.9 * m²`.

Everything is a pure function over exact `real`s:

- Form fields are `Option<real>`: `None` stands for an empty or non-numeric
  field, `Some(x)` for what `Number(...)` would give.
- Units are the `string`s the `<select>` elements deliver, so every
  unrecognised unit takes the same fallback as in the code.
- `Math.round(y)` is `Floor(y + 0.5)`: halves round toward +infinity, as
  JavaScript does (not away from zero; the two agree on the non-negative
  values that reach it).
- The recommendation text is the datatype `Advice` carrying the numbers the
  message interpolates; the handler's output is `Report`.

Rounded values lie on the 0.1 grid, so the advice test `rounded > 24.9`
(script.js line 126) is the same as `rounded >= 25`, the category boundary at
line 55. A BMI that rounds to exactly 25.0 is Overweight and is advised to
lose weight (`ExampleBoundaryTwentyFive`); there is no value whose category
and advice disagree (`AdviceMatchesCategory`).

## Model

| member | source | states |
|---|---|---|
| `BmiCalc.RoundTenth` | bmi_calc/script.js:76-78 | `formatKg` (and the same rounding at line 110) yields a multiple of 0.1 within 0.05 of its input: `v - 0.05 < r <= v + 0.05` |
| `BmiCalc.RoundTenthFixesGrid` | bmi_calc/script.js:76-78 | a value that is already a multiple of 0.1 is returned unchanged |
| `BmiCalc.RoundTenthIdempotent` | bmi_calc/script.js:76-78 | rounding an already rounded value changes nothing |
| `BmiCalc.RoundTenthMonotone` | bmi_calc/script.js:76-78 | rounding preserves `<=` |
| `BmiCalc.RoundTenthNonNegative` | bmi_calc/script.js:76-78 | a non-negative value never rounds to a negative one |
| `BmiCalc.RoundTenthBelowThresholds` | bmi_calc/script.js:110-126 | a BMI that rounds below 18.5 was below 18.45; one that rounds above 24.9 was at least 24.95 |
| `BmiCalc.ToKg` | bmi_calc/script.js:13-17 | `"lb"` is converted so that dividing by 0.45359237 gives the input back; `"kg"` and every other unit leave the number unchanged; the result is positive exactly when the input is (on exact reals; see Left out for underflow) |
| `BmiCalc.ToMeters` | bmi_calc/script.js:20-45 | the auto-conversion flag is set exactly for unit `"m"` with a value above 3; flagged and `"cm"` results times 100 give the input; `"in"` results divided by 0.0254 give the input; `"m"` up to 3 and unknown units are unchanged; a positive input gives a positive height in every branch (on exact reals; see Left out for underflow) |
| `BmiCalc.AutoConversionIsCentimetres` | bmi_calc/script.js:23-36 | above 3, a height under `"m"` converts to the same metres as under `"cm"`, and only the `"m"` result is flagged |
| `BmiCalc.BodyMassIndex` | bmi_calc/script.js:109 | the index times the squared height is the weight, and the index is positive exactly when the weight is |
| `BmiCalc.BmiBelow` | bmi_calc/script.js:109 | the index is below a threshold `t` exactly when the weight is below `t` times the squared height |
| `BmiCalc.GetCategory` | bmi_calc/script.js:47-74 | every value lies in exactly one band: Underweight below 18.5, Normal in [18.5, 25), Overweight in [25, 30), Obese from 30. The `name`, `color` and `info` fields of each rung are kept as the display constants `Category.Name`, `Category.Color` and `Category.Info`; no contract or `Report` field uses them |
| `BmiCalc.GetCategoryMonotone` | bmi_calc/script.js:47-74 | a larger index never gets a lower category in the order Underweight < Normal < Overweight < Obese |
| `BmiCalc.Recommend` | bmi_calc/script.js:115-137 | the advice carries the rounded healthy range `MinHealthyKg` = `18.5 * m²` and `MaxHealthyKg` = `24.9 * m²` (lines 115-116, modelled by those two helpers), `0 <= min <= max`, and the rounded kilograms to gain (`minHealthy - kg`) or to lose (`kg - maxHealthy`) |
| `BmiCalc.GridThresholds` | bmi_calc/script.js:110-126 | on the 0.1 grid, `> 24.9` holds exactly when `>= 25` does |
| `BmiCalc.AdviceMatchesCategory` | bmi_calc/script.js:109-137 | for the rounded BMI, Gain is taken exactly for Underweight, Lose exactly for Overweight and Obese, Within exactly for Normal; a gain has `minHealthy - kg > 0`, a loss `kg - maxHealthy > 0`, and the rounded amount is never negative |
| `BmiCalc.Calculate` | bmi_calc/script.js:88-137 | a missing or non-positive weight fails with InvalidWeight, otherwise a missing or non-positive height fails with InvalidHeight, and otherwise the result is a report: a non-negative BMI on the 0.1 grid, its category, advice that agrees with that category, and the auto-conversion flag set exactly for `"m"` above 3; the reported BMI is `RoundTenth` of `BodyMassIndex` of the converted weight and height, and the advice is `Recommend` applied to that rounded BMI and the converted inputs |
| `BmiCalc.ComputedHeightGateUnreachable` | bmi_calc/script.js:100-107 | on exact reals, the converted-height alert is never reached: inputs that pass the first two gates convert to a positive height (with doubles it is reachable only through underflow, see Left out) |
| `BmiCalc.CalculateIsCloseToExact` | bmi_calc/script.js:100-110 | for positive inputs the reported BMI is within 0.05 of the exact `kg / (m * m)` of the converted inputs |
| `BmiCalc.ExampleNormal` | bmi_calc/script.js:100-137 | 70 kg at 1.75 m gives 22.9, Normal, range 56.7–76.3 kg, within range |
| `BmiCalc.ExampleUnderweightAutoConverted` | bmi_calc/script.js:23-31 | 45 kg at 170 under `"m"` is read as 1.70 m: 15.6, Underweight, range 53.5–72.0 kg, gain 8.5 kg, flagged |
| `BmiCalc.ExampleObese` | bmi_calc/script.js:126-131 | 100 kg at 1.70 m gives 34.6, Obese, lose 28.0 kg |
| `BmiCalc.ExamplePoundsAndInches` | bmi_calc/script.js:13-45 | 154 lb at 69 in gives 22.7, Normal, range 56.8–76.5 kg |
| `BmiCalc.ExampleBoundaryTwentyFive` | bmi_calc/script.js:120-131 | a BMI of exactly 25.0 is Overweight and advised to lose 0.1 kg |

## Left out

- DOM work: element lookups, `textContent` and `style` writes, the
  auto-conversion note element, `hidden`, `scrollIntoView`, `focus` and
  `alert` (lines 2-10, 89-105, 139-156). The model keeps only the values
  they display: the `Report` fields and the `InputError` that selects the
  alert.
- The reset handler (lines 160-173): deferred UI restoration with no logic.
- String parsing: `trim`, `Number(...)` and `isNaN` on the raw field text
  (lines 85-98). A field that is empty or not a number is `None`.
- IEEE-754 doubles: rounding residue of `0.45359237`, `0.0254` and the
  divisions, `Math.round` on doubles, and fields such as `1e400` that parse
  to `Infinity`. All arithmetic is on exact reals.
- Underflow to zero: with doubles a tiny positive field such as `5e-324`
  passes the gates at lines 88-98 but becomes 0 after `/ 100` (`"cm"`, line
  34), `* 0.0254` (`"in"`, line 39) or `* 0.45359237` (`"lb"`, line 15). The
  converted-height alert at lines 103-107 is reachable only through this, and
  a zero weight can reach the BMI. On exact reals neither happens, so
  `ComputedHeightGateUnreachable` and the sign clauses of `ToKg` and
  `ToMeters` hold for the model and not for such doubles.
- The English message text (lines 122-136) and number-to-string formatting:
  `Advice` carries the interpolated numbers instead. The category names,
  colour tokens and info sentences are kept as constants on `Category`.
