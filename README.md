# Destiny Matcher compatibility evaluator, in Dafny

Destiny Matcher is a single-page app. The user picks two zodiac signs. The
app reads the pair's score from one static matrix per compatibility category
and adds up the scores. It maps the total to a score band (stars, a label and
a pool of prediction texts), draws one text from that pool and shows a
percentage against a fixed maximum of 35. It can also build a share text.

This project models that evaluator and the small piece of page state around
it:

- `types.dfy` (module `Types`): the records of `types.ts` (`ZodiacSign`,
  `PredictionResult`, `CategoryScore`, `ScoreRange`). It also holds the static
  tables (signs, matrices, category names, bands) as one value handed in from
  outside. A matrix row and a matrix cell are both optional, because the code
  guards against missing rows and undefined cells.
- `find.dfy` (module `Find`): `Array.prototype.find` as a first-match index.
- `scoring.dfy` (module `Scoring`): the `forEach` loop as a method, proved
  against a recursive breakdown function and an independent filter of the
  defined matrix indices.
- `bands.dfy` (module `Bands`): the band search and its fallback to the first
  band.
- `evaluator.dfy` (module `Evaluator`): the percentage, the random draw, the
  whole result (`Predict`) and the timer body (`Evaluate`).
- `lines.dfy` (module `Lines`), `share.dfy` (module `Share`): the share text,
  and how it reads line by line.
- `app.dfy` (module `Ui`): the component state as a class `App`. It holds the
  two selections, the result and the loading flag, with the select, calculate,
  reset and share handlers and the high/low style flags.

`Math.random()` is a parameter. The random number in [0, 1) is the fraction
`rollNum / rollDen` with `rollNum < rollDen`, and the index is
`floor(rollNum * len / rollDen)`, which is always a valid index.

The percentage `Math.round(total / 35 * 100)` is modelled exactly as
`(40 * total + 7) / 14` (floor division). `20 * total / 7` is never a
half-integer, so the floating-point error of the source cannot change the
rounding for totals of the size the tables produce.

The maximum is the literal 35 (App.tsx:125), in the model `MaxPossible`. It
is not recomputed from the number of categories, nor from the categories that
were actually scored, so a pair with a missing cell is still measured against
35.

## Model

| member | source | states |
|---|---|---|
| `Find.FindIndex` | App.tsx:119 | the index found is the first element satisfying the predicate; none is found only when no element satisfies it |
| `Scoring.ScoreCategories` | App.tsx:102-116 | after the loop over all matrices, the breakdown is the defined cells in matrix order, each labelled with its category and max 5, and `total` is the sum of the breakdown's scores |
| `Scoring.DefinedIndicesSpec` | App.tsx:105-107 | a matrix contributes exactly when row `mId` exists and cell `[mId][pId]` is defined (a zero cell counts); contributing indices are strictly increasing |
| `Scoring.BreakdownFollowsMatrices` | App.tsx:105-115 | entry j of the breakdown comes from the j-th contributing matrix i: category `CATEGORIES[i]`, that cell's score, max 5; one entry per contributing matrix and no others |
| `Bands.SelectedIndex` | App.tsx:119 | the chosen band is the first with `min <= total <= max`; if none matches it is band 0, so selection never fails on a non-empty list |
| `Bands.SelectRange` | App.tsx:119 | the chosen band is one of the bands |
| `Bands.SelectedIndexUnique` | App.tsx:119 | any index with the first-match-or-fallback property is the selected one |
| `Evaluator.Percentage` | App.tsx:125-126 | the percentage p satisfies p - 1/2 <= total / 35 * 100 < p + 1/2, which defines `Math.round` with halves rounding up |
| `Evaluator.PercentageExamples` | App.tsx:125-126 | 35 gives 100, 0 gives 0, 30 gives 86 |
| `Evaluator.PercentageBounds` | App.tsx:125-126 | totals in 0..35 give percentages in 0..100 |
| `Evaluator.DrawIndex` | App.tsx:122 | the drawn index is the floor of random * length, and is below the length of the predictions list |
| `Evaluator.PredictSpec` | App.tsx:99-136 | totalScore is the sum of the breakdown; the breakdown is the per-matrix filter; every entry has max 5; maxScore is 35 whatever was skipped; percentage is the rounded ratio; stars and label are copied from the selected band; the text is one of that band's predictions |
| `Evaluator.PredictOnlyTextVaries` | App.tsx:119-136 | two evaluations of the same pair differ at most in predictionText |
| `Evaluator.Evaluate` | App.tsx:99-136 | the timer body's loop, band pick, draw and percentage produce exactly `Predict` of the pair and the draw |
| `Share.NatToDecimal` | App.tsx:149 | a number renders as a non-empty string of decimal digits without a leading zero |
| `Share.IntToString` | App.tsx:149 | a rendered number holds no line break |
| `Share.IntRoundTrip` | App.tsx:149 | reading a rendered number back gives the number |
| `Share.SignName` | App.tsx:144-145 | the name found is that of the first sign with that id; undefined exactly when no sign has that id |
| `Share.ShareMessageLines` | App.tsx:147-151 | the share text's lines are, in order: header, blank, the two names, stars with totalScore/maxScore, blank, the quoted prediction, blank, hashtag footer |
| `Share.HeaderFirstLine` | App.tsx:147 | whatever the names and the prediction contain, the first line is the header |
| `Ui.App.constructor` | App.tsx:85-88 | the page starts with no selection, no result and no loading |
| `Ui.App.SelectMySign` | App.tsx:245 | choosing the first sign sets it and changes nothing else |
| `Ui.App.SelectPartnerSign` | App.tsx:269 | choosing the second sign sets it and changes nothing else |
| `Ui.App.StartCalculation` | App.tsx:91-95 | with either selection empty, nothing changes; otherwise loading is set, the result is cleared and the two ids are captured for the timer |
| `Ui.App.CompleteCalculation` | App.tsx:98-138 | the timer stores the evaluation of the captured ids and clears loading; selections are unchanged |
| `Ui.App.Reset` | App.tsx:485-489 | both selections become empty and the result null; loading is unchanged |
| `Ui.App.ShareText` | App.tsx:141-151 | there is no share text exactly when there is no result; otherwise the text opens with the header line |
| `Ui.App.HighAndLowExclusive` | App.tsx:178-179 | a result is never both high-score (stars >= 4) and low-score (stars <= 2) |

## Left out

- Rendering: JSX, SVG icons, CSS and animation strings and the radar chart (App.tsx:16-82, 181-501). These are presentation only.
- `SparkleEffect`'s random positions and sizes (App.tsx:40-47). These are cosmetic floating-point values.
- The 800 ms and 3 s timers (App.tsx:98, 170). Calculation is two steps, `StartCalculation` then `CompleteCalculation`; the length of the delay between them is not modelled. The selectors stay enabled while loading, so the model allows `SelectMySign` and `SelectPartnerSign` between the two steps, and `CompleteCalculation` still evaluates the pair captured at the start, as the source's timer closure does.
- `navigator.share`, `navigator.clipboard`, `window.location.href` and the copied-toast flag (App.tsx:153-174). These are browser APIs. The model stops at the share text; the clipboard variant's extra URL line is not modelled.
- The literal contents of the `constants` module (signs, matrices, category names, bands). This module is not part of this model; the tables are a parameter.
- `Number(...)` of the `<select>` strings (App.tsx:99-100, 144-145). Selections are `Option<int>`; only `Number("") == 0` is kept (`SelectionNumber`).
- JavaScript numbers are doubles. Scores and totals are unbounded integers, and the percentage is computed in exact arithmetic.
- Evaluator.Evaluate: requires every band to have at least one prediction. With an empty list the source's prediction would be `undefined`: the result card would show empty quotes and the share text would show the word `undefined`. The tables are built never to have an empty list.
- Evaluator.DrawIndex: computes `floor(random * length)` in exact arithmetic. The source multiplies two doubles and floors the rounded product, so for a random value just below a multiple of 1/length (for example 0.3333333333333333 with 3 predictions) the source picks the next index where the model picks the lower one. Every index stays reachable and valid; only which random value maps to which index can differ.
- Ui.App.ShareText: states the header line only. The full line layout is `Share.ShareMessageLines`, which needs names and text without line breaks.
- The enabled state of the calculate button (App.tsx:290) is the predicate `Ui.App.CanCalculate`. It has no contract of its own.
