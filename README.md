# Laboratorio Pizza: the two calculators, modelled in Dafny

Laboratorio Pizza is a browser app for pizza makers. Apart from its rendering it holds two small, deterministic calculators. This project models both and proves properties of them.

- **Mix Farine** (`App.tsx`), modelled in `MixCalculator`.
  - The user enters two or three flours, each with a strength W and a mass in grams.
  - The app blends them into the mass-weighted average strength, rounded with `Math.round`, and shows the total mass.
  - It classifies the blend into one of five categories: Debole, Media, Forte, Molto Forte, Speciale. Each category has a hydration range and a fermentation recommendation. A gauge shows the strength on a 0-450 scale.
  - The table of entries is state. `MixState` is a class whose methods do what `handleInputChange`, `handleReset` and the 2/3 toggle do.
  - The blend loop is a method, `MixCalculation`, proved against the specification function `Blend`. The lemmas are about `Blend`.
- **Calcolatore Pizza** (`components/PizzaCalculator.tsx`), modelled in `PizzaCalculator`.
  - From the number and weight of the dough balls, the hydration, the salt and fat per litre of water and the percentage of old dough ("pasta di riporto"), it splits the dough mass into flour, water and salt.
  - It uses the baker's-percentage denominator `1 + h + s + f + pdr`.
  - It estimates fresh and dry yeast from the leavening hours and the room temperature.
  - It suggests a flour strength from the total leavening time.
  - The whole computation is the pure function `Compute`.

Shared pieces:
- `Wrappers` holds `Option`.
- `JsMath` holds `Math.round`, rounding to hundredths, `Math.max` and `Math.min`, all over exact reals. `Math.round(x)` is `Floor(x + 1/2)`.

Modelling decisions:
- `parseFloat` is the parameter `parse: string -> Option<real>` of the blend calculation. `None` stands for NaN. The table keeps the raw text the user typed, as the source does.
- `Math.pow(1.096, tempRoom)` is the parameter `growth: real -> real`. The model assumes only that `growth(tempRoom) > 0`.
- The pizza inputs are taken after `Number(...)`: an empty field is 0.
  - `numBalls`, `ballWeight` and `hydration` go through `Number(x) || 0`, so they are `Option<real>`. A missing value counts as 0.
- Nothing clamps the inputs, so negative values are possible. The flour denominator can then be 0, and in that case the source's division yields Infinity or NaN. The model returns `amounts == None` for that case.

Facts about the code that the model keeps as written:
- Salt is rounded to a whole gram, like flour and water (`components/PizzaCalculator.tsx:92-94`).
- The strength suggestion uses the thresholds 12, 18 and 36 hours. Exactly 18 hours and exactly 36 hours both give "Molto Forte" (`components/PizzaCalculator.tsx:85-89`).
- The yeast time divisor is `max(hoursTotal - 0.8·hoursFridge, 1)`, and the yeast base constant is always 2250 (`components/PizzaCalculator.tsx:79`).
- Old dough enters only the flour denominator, as `pdrPercent/100` (`components/PizzaCalculator.tsx:72`, `:76`).
- The pan toggle `isTeglia` and the old-dough vigour `pdrType` are read neither by the memo nor in its dependency list, so they change no output (`components/PizzaCalculator.tsx:64-101`).
- No input is clamped to a range before the calculation (`components/PizzaCalculator.tsx:65-79`).

## Model

| member | source | states |
|---|---|---|
| JsMath.Round | App.tsx:48 | `Math.round` returns the integer r with r − ½ ≤ x < r + ½: the nearest integer, with halves rounded up |
| JsMath.RoundCents | components/PizzaCalculator.tsx:95-96 | `Math.round(x·100)/100` lies in (x − 0.005, x + 0.005] and is a whole number of hundredths |
| JsMath.Max | components/PizzaCalculator.tsx:79 | `Math.max` is at least both arguments and equals one of them |
| JsMath.Min | App.tsx:104 | `Math.min` is at most both arguments and equals one of them |
| JsMath.RoundBetween | components/PizzaCalculator.tsx:92-94 | a value between two integers rounds to a value between them |
| MixCalculator.InitialFlours | App.tsx:13-17 | the table starts with three rows, ids 1, 2, 3, with empty W and grams |
| MixCalculator.SetField | App.tsx:20-21 | the copied table has the same length; only the chosen field of the chosen row takes the new value; that row keeps its id and its other field; every other row is unchanged |
| MixCalculator.MixState.constructor | App.tsx:12-17 | the screen opens in two-flour mode with the initial rows |
| MixCalculator.MixState.SetMode | App.tsx:267-268 | the 2/3 toggle sets the mode and leaves the rows alone |
| MixCalculator.MixState.HandleInputChange | App.tsx:19-23 | typing replaces the rows with `SetField` of the old rows; the mode is unchanged; the table keeps three rows |
| MixCalculator.MixState.HandleReset | App.tsx:25-31 | reset restores the three empty rows with ids 1, 2, 3 and keeps the mode |
| MixCalculator.MixState.Result | App.tsx:34-50 | for any state the screen can reach, the blend shown is `Blend` of the first `mode` rows, so the loop bound always fits the table |
| MixCalculator.MixCalculation | App.tsx:34-50 | the loop over the first `mode` rows returns exactly `Blend` of those rows' parsed readings; rows from index `mode` on are never read |
| MixCalculator.ContributionsSnoc | App.tsx:42-45 | one more row adds strength×mass and mass to the two sums when both of its fields parse, and nothing otherwise |
| MixCalculator.BlendMeaning | App.tsx:48-49 | the total mass is the sum over the rows taking part; the strength is 0 when that total is 0 and otherwise the nearest integer to the weighted average |
| MixCalculator.SumPermutationInvariant | App.tsx:38-46 | any reordering of the rows leaves both running sums unchanged |
| MixCalculator.BlendPermutationInvariant | App.tsx:38-49 | any reordering of the rows leaves the resulting strength and total mass unchanged |
| MixCalculator.GramSumNonNegative | App.tsx:44 | with non-negative masses the total mass is non-negative |
| MixCalculator.WeightedSumAtLeast | App.tsx:43-44 | with non-negative masses and every strength ≥ lo, the weighted sum is ≥ lo × total mass |
| MixCalculator.WeightedSumAtMost | App.tsx:43-44 | with non-negative masses and every strength ≤ hi, the weighted sum is ≤ hi × total mass |
| MixCalculator.AverageWithinStrengths | App.tsx:42-48 | with non-negative masses and a positive total, the unrounded average lies between any lower and upper bound of the strengths, in particular between their minimum and maximum |
| MixCalculator.BlendWithinStrengths | App.tsx:42-48 | the same for the rows of a blend; with whole-number bounds the rounded result also lies between them |
| MixCalculator.ThirdRowIgnoredInTwoFlourMode | App.tsx:38 | in two-flour mode, editing the third row does not change the strength or the total mass |
| MixCalculator.ResetGivesEmptyBlend | App.tsx:25-54 | after a reset, if an empty field parses to NaN, the blend is strength 0 with total 0 and there is no analysis |
| MixCalculator.NoContributionsWhenUnparsed | App.tsx:42 | when no row has both its strength and its mass parsed, no row takes part |
| MixCalculator.UnparsedRowIgnored | App.tsx:42-45 | a row whose strength or mass does not parse, wherever it stands among the rows, changes neither the rows taking part nor the blend |
| MixCalculator.ContributionsFromParsedRows | App.tsx:39-45 | every row taking part carries the strength and mass that some row's two inputs parsed to |
| MixCalculator.Classify | App.tsx:63-103 | the category chosen is the one whose strength range holds W: below 180; 180-239; 240-299; 300-349; 350 and above |
| MixCalculator.ClassifyUnique | App.tsx:63-103 | the ranges do not overlap: a W in a category's range is classified into that category |
| MixCalculator.ClassifyMonotone | App.tsx:63-103 | a stronger blend never gets a weaker category |
| MixCalculator.ClassifyBoundaries | App.tsx:63-95 | 179 is Debole, 180 Media, 240 Forte, 300 Molto Forte and 350 Speciale; the lower bounds are inclusive |
| MixCalculator.HydrationRangesChain | App.tsx:69-102 | every hydration range has min < max, and each category's max is the next category's min |
| MixCalculator.Gauge | App.tsx:104 | the gauge value is at most 100; it is exactly 100 for W ≥ 450, W/4.5 below 450, and non-negative for non-negative W |
| MixCalculator.GaugeMonotone | App.tsx:104 | the gauge never decreases as W grows |
| MixCalculator.Analyze | App.tsx:53-107 | there is no analysis exactly when W = 0; otherwise the analysis holds the category whose range holds W, plus the gauge value |
| PizzaCalculator.TotalWeight | components/PizzaCalculator.tsx:65-66 | the dough mass is balls × weight, and 0 when either value is empty or non-numeric |
| PizzaCalculator.FactorsOf | components/PizzaCalculator.tsx:65-72 | a missing hydration gives water, salt and fat factors of 0; otherwise h is hydration/100; the salt factor is saltLit/1000 × h and the fat factor fatLit/1000 × h; the old-dough factor is pdrPercent/100 |
| PizzaCalculator.Split | components/PizzaCalculator.tsx:76-78 | the split fails exactly when the denominator is 0; water = flour × h; salt = water/1000 × salt per litre |
| PizzaCalculator.SaltIsFlourTimesSaltFactor | components/PizzaCalculator.tsx:70-78 | the salt mass equals flour × salt factor |
| PizzaCalculator.PartitionConservesMass | components/PizzaCalculator.tsx:69-78 | before rounding, flour + water + salt + flour·fFactor + flour·pdrFactor equals the dough mass exactly |
| PizzaCalculator.TimeDivisor | components/PizzaCalculator.tsx:79 | the time divisor is at least 1 and at least hoursTotal − 0.8·hoursFridge, and equals one of them, so the formula never divides by zero or by a negative time |
| PizzaCalculator.Yeast | components/PizzaCalculator.tsx:79 | yeast × (growth × divisor × 1000) = flour × 2250 |
| PizzaCalculator.YeastBounds | components/PizzaCalculator.tsx:79 | for non-negative flour, the yeast is non-negative and at most the amount for a one-hour divisor |
| PizzaCalculator.AdviceForHours | components/PizzaCalculator.tsx:85-89 | the suggestion is the one whose hour range holds hoursTotal: below 12 gives "W 180 - 220"; 12 up to but not including 18 gives "W 230 - 270"; 18 to 36 inclusive gives "W 300 - 340"; above 36 gives "W 360+" |
| PizzaCalculator.AdviceUnique | components/PizzaCalculator.tsx:85-89 | the hour ranges do not overlap |
| PizzaCalculator.AdviceMonotone | components/PizzaCalculator.tsx:85-89 | longer leavening never suggests a weaker flour |
| PizzaCalculator.AdviceBoundaries | components/PizzaCalculator.tsx:85-89 | 12 hours is Media; 18 and 36 hours are Molto Forte; just above 36 is Estrapolita |
| PizzaCalculator.Compute | components/PizzaCalculator.tsx:64-101 | flour, water and salt shown are the nearest whole grams to the exact split; yeast and dry yeast are the fresh yeast and a third of it, rounded to hundredths; strength and category come from the hours lookup; there are no amounts exactly when the denominator is 0 |
| PizzaCalculator.PanAndPdrTypeIgnored | components/PizzaCalculator.tsx:64-101 | toggling the pan mode or the old-dough vigour leaves every output unchanged |
| PizzaCalculator.DefaultRecipe | components/PizzaCalculator.tsx:53-94 | the opening state gives 155 g flour, 100 g water and 5 g salt, with "W 300 - 340" / "Molto Forte" |

## Left out

- `parseFloat` and `Number(...)` on text: string parsing is not modelled. It is the parameter `parse` in the blend, and the pizza inputs arrive already converted.
- `Math.pow(1.096, tempRoom)`: a floating-point power with a real exponent. It is the abstract positive parameter `growth`, so no concrete yeast quantity is proved.
- Floating point: all arithmetic is over exact reals. Representation error, overflow to Infinity and `parseFloat("Infinity")` are not modelled.
- A non-numeric value in the salt, fat, old-dough, hours or temperature fields is not modelled. The input setter stores only `''` or a parsed number, so `Number` of these fields is never NaN. The flour split returns `None` when its denominator is 0; this stands for the Infinity or NaN the source produces.
- The ready-at time (`new Date()`, `setHours`, `toLocaleString`): this needs a clock and locale formatting.
- Print, PDF, share, clipboard and alert handlers, and the share-text builder: browser I/O.
- The colour classes and the usage and characteristics texts of the blend analysis: display only. The model keeps which band is chosen, its category, fermentation text and hydration range, and the gauge.
- All JSX rendering, including `components/FlourInputGroup.tsx` and `components/Logo.tsx`: presentation with no logic.
- The navigation tab and the pan-mode toggle state are not modelled. The pan toggle is kept only as an input field that the computation does not read.
- `Compute`: states its outputs for one set of inputs. The automatic recomputation whenever an input changes (React's memoisation) is not modelled.
