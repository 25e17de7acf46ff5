# Software project cost estimation — request-handling model

The system estimates what a software project will cost from nine project attributes. A trained
regression model gives the estimate, and a web form shows it with a per-feature breakdown. This
project models the logic of the prediction endpoint and of the feature-detail page:

- **Parsing** the submitted form into nine numbers, in feature order (`Estimation.ParseInputs`).
- **Range validation.** Each feature has a closed range, and the first value in feature order
  that lies outside its range rejects the request (`Validation.FirstOutOfRange`,
  `Validation.Validate`). The rejection page names the feature, with `_` shown as a space, and
  gives both bounds (`Validation.RangeMessage`). `Validation.ParseRangeMessage` inverts it, and
  a round-trip lemma proves the page carries exactly that name and those bounds.
- **Clamping.** A negative prediction becomes 0 (`Breakdown.Clamp`).
- **The breakdown.** The model's feature importances are normalised by their sum
  (`Breakdown.Normalize`). Each feature gets `weight × prediction` as one row, in feature order.
  A total row follows and is then overwritten so that its cost is the clamped prediction
  (`Breakdown.BuildBreakdown`, specified by `Breakdown.BreakdownTable`).
- **Labels.** `replace('_', ' ')` (`Text.Spaced`), `str.title()` (`Text.Title`),
  and `str(int)` for the bounds (`Text.IntToDecimal`).
- **The detail page.** A lookup with a fixed fallback text, under a title-cased heading
  (`Details.DetailsFor`).
- **The endpoint itself** (`Estimation.Predict`), which composes all of the above.

The trained model is passed in as an `Estimator` value. Its prediction is a function from the
nine input values to a `real`. Its importances are a sequence of `real`. Arithmetic is over
`real`, so it is exact. The source already treats float drift as noise: it overwrites the
total row with the prediction for that reason.

The prediction in the total row, and the one shown at the top of the page, is the *clamped*
prediction, as in the code (main.py:193-194, 217). It is not the model's raw output.

The form's `inputs` dictionary is keyed by the nine distinct feature names, inserted in feature
order. It is modelled as a sequence of values aligned with `Estimation.Features`, and
`Estimation.SchemaWellFormed` proves the names distinct.

## Model

| member | source | states |
|---|---|---|
| `Estimation.SchemaWellFormed` | main.py:61-71 | there are nine distinct features; every feature has a range and every range has a key that is a feature; each range has min <= max |
| `Estimation.ParseInputs` | main.py:179 | Ok exactly when every feature field is present and numeric, and then value i is field i's number; otherwise the failure is that of the first field, in feature order, that is missing or not a number |
| `Validation.FirstOutOfRange` | main.py:182-185 | None exactly when every value lies in its closed range; otherwise the index of a value outside its range, with every earlier value inside its range |
| `Validation.Validate` | main.py:182-185 | the early-return validation loop finds exactly the first out-of-range feature (or none), as `FirstOutOfRange` specifies |
| `Validation.RangeMessage` | main.py:185 | the rejection message is the handler's f-string; reading it back gives exactly the feature name with `_` replaced by a space, and exactly its min and max |
| `Validation.ParseRangeMessageInverts` | main.py:185 | for any displayed name and any range, the message reads back as that name and that range: no name can be mistaken for a bound |
| `Estimation.LowerBoundsAccepted` | main.py:183-184 | a request with every value at its lower bound passes validation (the bounds are inclusive) |
| `Estimation.UpperBoundsAccepted` | main.py:183-184 | a request with every value at its upper bound passes validation (the bounds are inclusive) |
| `Estimation.FirstBadFeatureReported` | main.py:182-185 | with Team_Size and Database_Size both out of range, the earlier feature, Team_Size, is the one reported |
| `Estimation.ExampleRequestAccepted` | main.py:61-71 | the worked example request (Project_Size 2000, Project_Duration 12, …, Software_Tools 3) passes validation |
| `Breakdown.Clamp` | main.py:193-194 | the clamped prediction is never negative; a non-negative prediction is unchanged; a negative one becomes 0 |
| `Breakdown.Normalize` | main.py:200-201 | one weight per importance, each satisfying weight × sum = importance; it fails only where a division by a zero total would take place |
| `Breakdown.NormalizedSumIsOne` | main.py:200-201 | normalised importances total exactly 1 |
| `Breakdown.NormalizedAreWeights` | main.py:200-201 | non-negative importances normalise to weights in [0, 1] |
| `Breakdown.SumScaled` | main.py:200 | `Sum`, the left-to-right model of the builtin `sum`, scales by the factor that scales every term |
| `Breakdown.SumOfNonNegative` | main.py:200 | `Sum` of non-negative terms is non-negative and at least each term |
| `Breakdown.ReplaceLast` | main.py:217 | `table[-1] = row` keeps the length and every earlier row, and puts `row` last |
| `Breakdown.BreakdownTable` | main.py:204-217 | the finished table has one row per feature plus one; row i is feature i's title-cased label, its value and weight i × prediction; the last row is ("Total", "", prediction); its cost properties are `AllocationsTotalPrediction` and `AllocationsNonNegative` |
| `Breakdown.BuildBreakdown` | main.py:203-217 | the table is one row (label, value, weight × prediction) per feature in order, then ("Total", "", prediction); the overwritten total was the sum of the feature costs |
| `Breakdown.AllocationsTotalPrediction` | main.py:209-217 | with one importance per feature, the feature costs total the prediction, so in exact arithmetic the overwrite of line 217 keeps the total's value |
| `Breakdown.AllocationsNonNegative` | main.py:193-209 | non-negative importances and a clamped prediction give no row a negative cost |
| `Estimation.EstimateShape` | main.py:193-217 | an accepted request's table has nine feature rows and a total row carrying the clamped prediction; with one importance per feature the feature costs total it; with non-negative importances no cost is negative |
| `Estimation.Predict` | main.py:176-217 | a parse failure or an out-of-range value answers before any prediction, and the rejection names the first bad feature with its bounds; otherwise the answer is the clamped prediction, never negative, with a table of nine feature rows and a total row carrying that prediction, whose feature costs total it and are non-negative for non-negative importances |
| `Text.Spaced` | main.py:185 | `replace('_', ' ')` keeps the length, turns each underscore into a space, keeps every other character, and leaves no underscore |
| `Text.TitleScan` | main.py:210 | the scan of `str.title()` lowers a character that follows a cased one and raises every other one |
| `Text.Title` | main.py:210 | `str.title()` keeps the length and puts at each position the character the word rule gives |
| `Text.TitleIdempotent` | main.py:244 | title-casing a title-cased string changes nothing |
| `Text.Label` | main.py:210 | `replace('_', ' ').title()` gives a row or page label as long as the feature name, with no underscore, and already title-cased |
| `Text.NatToDecimal` | main.py:185 | `str(n)` for n >= 0 is a non-empty run of decimal digits with no leading zero |
| `Text.IntToDecimal` | main.py:185 | `str(n)` for an int starts with a minus sign exactly when n < 0, followed by a canonical digit run (no leading zero) that reads back as the magnitude of n |
| `Text.DecimalRoundTrip` | main.py:185 | reading back the digits of `str(n)` gives n |
| `Details.DetailsFor` | main.py:240-247 | the detail is the stored description when the key is present and the fixed "<strong>Error:</strong> No details available for this feature." text otherwise, never a failure; the heading is the title-cased label and the title is the heading followed by " Details" |

## Left out

- Loading the CSV dataset and the feature-description JSON, and the startup errors when they are missing (main.py:9-13, 28-29, 48-56): file I/O.
- Training, the train/test split, MSE and R² (main.py:31-46): library code with floating-point numerics. `model.predict` and `model.feature_importances_` are parameters (`Estimation.Estimator`).
- Flask routing, the form page, the HTML and CSS, and the hint conditionals (main.py:58, 73-173). The HTML table, the result page and the HTML around the detail page (main.py:219-234, 241-252) are left out too, and so is the `:,.2f` currency formatting. `Details.DetailsPage` keeps only the title, the heading and the detail.
- `float(...)` parsing of form fields (main.py:179): a field is given as already parsed (`Estimation.Field`). Python also accepts "nan" and "inf". A NaN fails every comparison, so the source rejects it. Reals have no NaN or infinity, so these inputs are not modelled.
- The text of the generic error page `Error: {e}` (main.py:235-236): `Estimation.Failure` names the kind of failure, not the exception's message.
- Breakdown.Normalize: a zero total with at least nine importances makes the model report a failure (`ZeroImportanceSum`). numpy's float64 division actually yields NaN (or ±inf) weights and a page with such costs, which reals cannot represent. With fewer importances than features, the loop's index error at main.py:209 is the failure whatever the total: `MissingImportance`, tested first.
- Text.Title: models `str.title()` on ASCII letters only. Other Unicode cased characters, and title-case mappings that change length, are not modelled.
- Details.DetailsFor: descriptions are strings. A JSON value of another type in the description file is not modelled.
- Process-wide model state and concurrent requests: each call of `Estimation.Predict` is independent and takes its model as a parameter.
