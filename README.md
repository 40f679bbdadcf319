# Skate setup calculator — score deriver

A Dafny model of the core of the skate-setup calculator: the five option
catalogs (wheel size, wheel durometer, deck width, concave, bearing ABEC),
the five linear formulas that turn the current selection into speed,
acceleration, stability, manoeuverability and comfort scores, and the
component state that holds the five selected values and the five scores.

- `catalogs.dfy` (module `Catalogs`): the catalogs as ordered sequences of
  `CatalogOption(text, value)`, `LastValue` (the `.at(-1).value` the
  formulas read), and the numbering facts.
- `deriver.dfy` (module `Deriver`): `Selection`, `Scores`, the five score
  formulas as pure functions, `Derive` (all five at once), `ChartData` (the
  five chart bars), and the lemmas about ranges, monotonicity, the
  stability/manoeuverability trade-off, dependencies and the defaults.
- `calculator.dfy` (module `Calculator`): class `SetupCalculator` with the
  five selection fields and the five score fields. Each setter stores one
  field and recomputes exactly the scores whose effect lists that field.
  The object invariant `Valid()` says the shown scores equal `Derive` of
  the selection. So selective recomputation is proved to give the same
  result as recomputing everything.

Speed is computed with exact `real` arithmetic using the literals `1.1`
and `1.7`. Selections are constrained by `requires`: a setter only accepts
a value that one of its catalog's options carries. This is the only way
the radio groups can call it. The code has no error path for an
out-of-catalog value, and neither does the model.

## Model

| member | source | states |
|---|---|---|
| `Catalogs.LastValue` | src/App.js:91 | the last entry's value is a value on offer; in a strictly increasing catalog it is the largest; in a catalog numbered 1..n it is n |
| `Catalogs.DenseIsIncreasing` | src/App.js:24-75 | a catalog numbered 1..n in table order is strictly increasing and has no duplicate values |
| `Catalogs.InCatalogIffInRange` | src/App.js:24-75 | in a catalog numbered 1..n, a value is offered exactly when it lies in 1..n (both directions) |
| `Catalogs.CatalogsDenselyNumbered` | src/App.js:24-75 | all five catalogs are numbered 1..n, strictly increasing and free of duplicate values, and their last values are 13, 6, 10, 4 and 5 |
| `Deriver.ValidSelectionRanges` | src/App.js:24-75 | a selection made of catalog values has each field inside its catalog's range |
| `Deriver.RangesAreValid` | src/App.js:24-75 | conversely, every selection inside the catalog ranges is made of catalog values |
| `Deriver.ScoreRanges` | src/App.js:86-111 | for a valid selection speed lies in [3.8, 28.8], acceleration in [2, 26], stability in [3, 18], manoeuverability in [2, 17], comfort in [3, 27] |
| `Deriver.ScoresFitChartAxis` | src/App.js:77-83 | every bar of the chart dataset of a valid selection lies within the fixed axis domain [0, 31] declared at line 185 |
| `Deriver.ScoreBoundsReached` | src/App.js:86-111 | every bound of the score ranges (speed 3.8 and 28.8, acceleration 26 and 2, stability 3 and 18, manoeuverability 2 and 17, comfort 27 and 3) is reached by a selection proved valid |
| `Deriver.AccelerationDecreasing` | src/App.js:91 | acceleration is strictly lower for a larger wheel size, and only then |
| `Deriver.AccelerationExtremes` | src/App.js:91 | acceleration is always even; it is 26 exactly at wheel size 1 and 2 exactly at wheel size 13 |
| `Deriver.StabilityPlusManoeuverability` | src/App.js:96-102 | stability plus manoeuverability is always twice the widest deck value, 20 |
| `Deriver.ComfortMonotone` | src/App.js:107-111 | comfort is a multiple of 3 and does not increase when durometer and concave both do not decrease |
| `Deriver.AbecChangesOnlySpeed` | src/App.js:85-88 | changing only the ABEC rating leaves all scores but speed unchanged, and speed changes exactly when the rating does |
| `Deriver.WheelSizeChangesSpeedAndAcceleration` | src/App.js:85-93 | changing only the wheel size leaves stability, manoeuverability and comfort unchanged |
| `Deriver.WheelDuroChangesSpeedAndComfort` | src/App.js:85-113 | changing only the durometer leaves acceleration, stability and manoeuverability unchanged |
| `Deriver.DeckWidthChangesStabilityAndManoeuverability` | src/App.js:95-104 | changing only the deck width leaves speed, acceleration and comfort unchanged |
| `Deriver.ConcaveChangesStabilityManoeuverabilityAndComfort` | src/App.js:95-113 | changing only the concave leaves speed and acceleration unchanged |
| `Deriver.DefaultScores` | src/App.js:19-23 | the default selection is valid and derives speed 14.0, acceleration 16, stability 9, manoeuverability 11, comfort 15 |
| `Calculator.SetupCalculator.constructor` | src/App.js:19-23 | starts from the default selection with the scores its effects compute, and the invariant holds |
| `Calculator.SetupCalculator.Chart` | src/App.js:77-83 | the chart dataset is built from the current scores, which equal those derived from the selection, and every bar fits the axis |
| `Calculator.SetupCalculator.SetWheelSize` | src/App.js:124 | stores only the wheel size, recomputes speed and acceleration, keeps the invariant; reselecting the current value leaves every score unchanged |
| `Calculator.SetupCalculator.SetWheelDuro` | src/App.js:135 | stores only the durometer, recomputes speed and comfort, keeps the invariant; reselecting leaves every score unchanged |
| `Calculator.SetupCalculator.SetDeckWidth` | src/App.js:146 | stores only the deck width, recomputes stability and manoeuverability, keeps the invariant; reselecting leaves every score unchanged |
| `Calculator.SetupCalculator.SetConcave` | src/App.js:157 | stores only the concave, recomputes stability, manoeuverability and comfort, keeps the invariant; reselecting leaves every score unchanged |
| `Calculator.SetupCalculator.SetAbec` | src/App.js:168 | stores only the ABEC rating, recomputes speed, keeps the invariant; reselecting leaves every score unchanged |

## Left out

- The JSX rendering, the radio-group controls, the bar chart and its axes, the CSS imports and the layout props (src/App.js:1-11, 115-189): user interface and foreign library code. Only the chart's dataset and its axis domain [0, 31] are modelled.
- React's scheduling of state updates and effects: the first render, where every score is still 0 before the effects run (src/App.js:14-18), is not modelled; the constructor ends in the state after the effects. Each setter, with the effects it triggers, is one synchronous step.
- The catalog arrays are rebuilt on every render, so the effects that list them re-run each render. They recompute the same values, so this adds nothing observable and is not modelled.
- Deriver.DefaultScores, Calculator.SetupCalculator.constructor: speed is exact, so they state the default speed as 14.0, while the IEEE-754 double value of `6 * 1.1 + 4 + 2 * 1.7` is 14.000000000000002; floating-point rounding of the speed formula is not modelled, and the speed bounds in Deriver.ScoreRanges are likewise exact.
- Option labels are carried as opaque strings and nothing is proved about them.
- Input validation: the code has none, so out-of-catalog values are excluded by `requires` rather than reported as an error.
