# Diabetes risk dashboard: the decision logic of `v3/script.js`, in Dafny

The dashboard loads a tabular diabetes dataset in the browser and summarises it as class counts and two exploratory histograms (age and BMI). It trains a logistic regression and a small neural network with TensorFlow.js. For one patient it then gives a risk estimate, a three-level risk label, six risk/protective factors and two what-if scenarios. This project models the deterministic code around the two networks and proves properties of it:

- `JsValues`: the JavaScript value semantics the code relies on. These are NaN and `undefined`, comparisons that are false on NaN, and `parseFloat`/`parseInt`, kept abstract as function values in `JsParse`. A CSV row is a `map<string, string>`.
- `Dataset`: the blank-row filter and the class counts of `processParsedData`.
- `Eda`: the two five-bin histograms of `computeEdaStats`, as specification functions.
- `Training`: the sample, the 8-column encoding, the labels and the 80/20 split of `trainModels`.
- `Prediction`: the `input` object of `handlePredict`, the NaN-to-0 copy of `predictRiskFromInput`, and the two what-if scenarios of `renderWhatIfScenarios`. A trained network is `TrainedModel(predict)`, an opaque function into [0, 1].
- `Explanation`: the risk level and the six risk factors of `displayResult`. Factor names and comments are enumerations; `Text()` gives each one's displayed string.
- `Dashboard`: class `App` holds the page's globals `csvData`, `models`, `classStats`, `logisticWeights` and `edaStats`. Its methods change them as the script does.

The model follows the code where the code and the design intent differ:

- **Empty upload.** An upload whose rows are all blank still replaces `csvData` with the empty list. `classStats` and `edaStats` keep describing the previous dataset (`App.ProcessParsedData`).
- **Unknown smoking category.** An unknown `smoking_history` category is not rejected. It becomes `undefined`, which the NaN-to-0 step leaves alone because it is not a number (see "Left out" for what the network then returns).
- **Training encoding.** At training time every column goes through `parseFloat`. So "Female", "Never" or "Yes" train as 0, unlike the category mapping used at prediction time.
- **HbA1c boundary.** An HbA1c of exactly 6.5 is "Borderline" with the 5.7–6.4 comment. The test is a strict `> 6.5`, although the high-range comment reads "≥ 6.5".
- **NaN age.** A NaN age fails every `<` test. It therefore gets the "Older age group" comment, yet its type is protective because `>= 45` is false too.

`Math.floor(n * 0.8)` is modelled as the floor of the exact product `n * 0.8`. For the sample sizes that occur (at most 5000), the double product is never below an integer that the exact product reaches, so the two floors agree.

## Model

| member | source | states |
|---|---|---|
| `Dataset.NonBlank` | v3/script.js:92 | the kept rows are exactly the input rows with at least one non-empty cell, and there are no more of them than input rows |
| `Dataset.NonBlankKeepsOrder` | v3/script.js:92 | filtering a concatenation is the concatenation of the filtered parts, so surviving rows keep their order |
| `Dataset.Positives` | v3/script.js:99 | the positive count is at most the row count; it is 0 when no row has `parseInt(diabetes) === 1` and the row count when all do |
| `Dataset.PositivesCountsIndices` | v3/script.js:99 | the running count equals the number of row positions whose label parses to the integer 1 |
| `Dataset.ClassStatsOf` | v3/script.js:99-101 | positives + negatives == total == number of rows, and positives is the number of positive rows |
| `Dashboard.App.ProcessParsedData` | v3/script.js:91-117 | `csvData` becomes the non-blank rows; if none remain the outcome is EmptyDataset and the statistics are left as they were, otherwise class and EDA statistics are those of the new `csvData`; models and weights untouched |
| `Eda.Column.Edges` | v3/script.js:215-229 | each histogram has four inner boundaries, hence five bins |
| `Eda.BinOfIsTheUniqueBin` | v3/script.js:234-247 | the if/else-if chain always yields a bin below 5, and a value lies in the left-closed, right-open interval of bin k exactly when k is the chain's bin |
| `Eda.EdgeOpensItsBin` | v3/script.js:215-247 | each inner boundary falls in the bin to its right and under that bin's label (30 under "30-39", 60 under "60+", 18.5 under "18.5-24.9", 35 under "35+") |
| `Eda.RowBin` | v3/script.js:232-248 | a row has a bin for a column exactly when its value parses, and then it is the one bin whose left-closed, right-open interval holds the value |
| `Eda.Histogram` | v3/script.js:215-249 | a histogram has one count per label |
| `Eda.AddRow` | v3/script.js:234-247 | counting one row adds one to its own bin and nothing to any other; a row without a bin changes nothing |
| `Eda.HistogramStep` | v3/script.js:231-249 | the histogram of a longer row prefix is the previous histogram with the new row counted |
| `Eda.HistogramTotal` | v3/script.js:231-249 | the five counts add up to the number of rows whose value parses, so every such row is counted exactly once |
| `Eda.UnparsedAgeSkipsOnlyAge` | v3/script.js:232-248 | a row whose age does not parse leaves the age histogram unchanged but still adds one to its BMI bin |
| `Eda.UnparsedBmiSkipsOnlyBmi` | v3/script.js:232-248 | a row whose BMI does not parse leaves the BMI histogram unchanged but still adds one to its age bin |
| `Dashboard.App.ComputeEdaStats` | v3/script.js:214-252 | after the counting loop `edaStats` holds the age and BMI histograms of `csvData` |
| `Training.SampleSize` | v3/script.js:345 | the sample size is the smaller of 5000 and the row count |
| `Training.Sample` | v3/script.js:346 | the sample is the leading rows, in order, of that size |
| `Training.SplitIndex` | v3/script.js:356 | the split index is the floor of 0.8 times the length, so it is at most the length |
| `Training.EncodeField` | v3/script.js:349-352 | a feature is the parsed value when the cell parses and 0 otherwise; never NaN |
| `Training.FeatureVector` | v3/script.js:348-353 | a feature vector has 8 entries, entry i encoding column `featureNames[i]` |
| `Training.Label` | v3/script.js:354 | the label is `parseInt(diabetes) || 0`: the parsed integer, or 0 when the cell does not parse |
| `Training.Features` | v3/script.js:348-353 | one feature vector per sampled row, row order kept |
| `Training.Labels` | v3/script.js:354 | one label per sampled row, row order kept |
| `Training.PrepareTraining` | v3/script.js:345-360 | train has `floor(0.8·len)` rows and test the remaining `len − floor(0.8·len)`; train row i is sample row i and test row j is sample row split+j, for features and labels alike |
| `Training.SplitIsPartition` | v3/script.js:356-360 | train ++ test is exactly the encoded sample, for features and for labels |
| `Training.UnparsedCategoryEncodesAsZero` | v3/script.js:349-352 | a column whose text `parseFloat` rejects (a category such as "Female" or "Never") trains as 0 |
| `Training.SplitSizes` | v3/script.js:356-360 | for five or more rows both halves are non-empty, and the test half holds at least a fifth of the rows |
| `Dashboard.App.TrainModels` | v3/script.js:333-449 | empty `csvData` is refused with NoDataset; otherwise the fit sees the prepared split; on success both models and the weights are replaced together, on any failure or refusal models and weights are unchanged |
| `Prediction.Input.With` | v3/script.js:715 | a spread copy with one field overridden changes that field and no other |
| `Prediction.InputArray` | v3/script.js:512 | the array given to the network has 8 entries in `featureNames` order |
| `Prediction.Flag` | v3/script.js:485-486 | a yes/no control is 1 exactly when it reads "Yes", else 0 |
| `Prediction.BuildInput` | v3/script.js:482-491 | gender is 0 exactly for "Female" and 1 otherwise; flags are 1 exactly for "Yes" and 0 otherwise; a known smoking category takes its code and an unknown one is `undefined`; BMI and HbA1c are NaN exactly when blank or unparseable and otherwise keep the parsed value; age and glucose are the `parseFloat` result, a number or NaN |
| `Prediction.ZeroNaN` | v3/script.js:507-509 | the result is never NaN, and anything that was not NaN (including `undefined`) is left as it was |
| `Prediction.SafeInput` | v3/script.js:505-510 | every field of the copy is the original with NaN replaced by 0 |
| `Prediction.SafeInputChangesOnlyNaN` | v3/script.js:505-510 | a field of the copy differs from the original exactly when the original was NaN, and it then becomes 0 |
| `Prediction.MissingPredictsAsZero` | v3/script.js:504-517 | a NaN field yields the same prediction as an explicit 0 in that field |
| `Prediction.SafeInputIdempotent` | v3/script.js:505-510 | sanitising an already sanitised input changes nothing |
| `Dashboard.App.PredictRiskFromInput` | v3/script.js:503-519 | with a trained network, the loop over `featureNames` yields the network's output on the NaN-to-0 copy of the input |
| `Prediction.ScenarioOf` | v3/script.js:717-734 | the delta is (base − scenario)·100, and the arrow is ↓ exactly when the scenario's risk is not above the base risk |
| `Prediction.WhatIfScenarios` | v3/script.js:711-735 | exactly two scenarios, BMI first and HbA1c second; each is the network's risk for the original input with only its own field overridden (BMI 25, HbA1c 6.0), compared with the base risk, so neither is chained on the other |
| `Prediction.ScenarioInputsOverrideOneField` | v3/script.js:714-727 | the BMI scenario input has BMI 25 and every other field of the original, and the HbA1c scenario input has HbA1c 6.0 and every other field of the original |
| `Prediction.BmiScenarioAtTargetIsNeutral` | v3/script.js:714-723 | when the BMI is already 25 and the base risk is the network's own prediction, the BMI scenario reports a change of 0 with ↓ |
| `Prediction.HbA1cScenarioAtTargetIsNeutral` | v3/script.js:726-735 | the same for an HbA1c already at 6.0 |
| `Dashboard.App.RenderWhatIfScenarios` | v3/script.js:705-745 | no scenarios exactly when no network is trained; otherwise the two scenarios, each re-predicted from the original input |
| `Dashboard.App.HandlePredict` | v3/script.js:470-500 | prediction is refused with ModelNotTrained exactly when no network is trained; otherwise it returns the network's risk for the form's input, its level, the six factors in display order and the two what-if scenarios |
| `Explanation.RiskLevelOf` | v3/script.js:523 | "high" iff p > 0.5, "moderate" iff 0.3 < p ≤ 0.5, "low" iff p ≤ 0.3 |
| `Explanation.RiskLevelMonotone` | v3/script.js:523 | a higher probability never gets a lower level |
| `Explanation.HbA1cFactor` | v3/script.js:536-567 | "Not provided" exactly when NaN; risk exactly when HbA1c ≥ 5.7; "High" exactly when > 6.5, "Borderline" exactly when 5.7 ≤ HbA1c ≤ 6.5, "Normal" exactly when < 5.7; each name carries its own comment |
| `Explanation.GlucoseFactor` | v3/script.js:569-591 | protective exactly when glucose < 100; "High" exactly when > 125; "Borderline" exactly when neither test holds, which includes NaN; each name carries its own comment |
| `Explanation.BmiFactor` | v3/script.js:593-632 | "Not provided" exactly when NaN; protective exactly when NaN or 18.5 ≤ BMI < 25; severely obese iff ≥ 35, obese iff 30–35, overweight iff 25–30, healthy iff 18.5–25, underweight iff < 18.5; named "High BMI" iff ≥ 30, and each other name carries its own comment |
| `Explanation.HypertensionFactor` | v3/script.js:634-649 | risk with value "Yes", name "Hypertension Present" and the cardiovascular comment exactly when the field is the number 1, otherwise protective with "No" |
| `Explanation.HeartDiseaseFactor` | v3/script.js:651-666 | risk with value "Yes", name "Heart Disease Present" and the cardiovascular comment exactly when the field is the number 1, otherwise protective with "No" |
| `Explanation.AgeFactor` | v3/script.js:668-680 | type risk iff age ≥ 45, independently of the comment; comment younger iff < 35, mid-age iff 35–45, 45–59 iff 45–60, older iff not < 60 (which includes NaN) |
| `Explanation.FactorFor` | v3/script.js:534-680 | the factor computed for a dimension belongs to that dimension |
| `Explanation.DisplayResult` | v3/script.js:522-680 | the level follows the thresholds, and there are exactly six factors in the order HbA1c, glucose, BMI, hypertension, heart disease, age, each the rule for its dimension |
| `Explanation.HbA1cBoundaryIsBorderline` | v3/script.js:538-559 | an HbA1c of exactly 6.5 is "Borderline" (risk), not "High" |
| `Explanation.NaNAgeIsOlderButProtective` | v3/script.js:669-679 | a NaN age gets the "Older age group" comment and type protective |
| `Explanation.MissingOptionalFieldsAreProtective` | v3/script.js:536-632 | missing BMI and HbA1c both give protective "Not provided" factors |
| `Explanation.BmiBandsAreHistogramBins` | v3/script.js:243-247 | the explanation's five BMI bands coincide with the five bins of the BMI histogram |
| `Dashboard.App.constructor` | v3/script.js:3-8 | the page starts with no data, no models, no weights and no statistics |

## Left out

- CSV ingestion (`handleFileUpload`, `autoLoadDataset`, the CSV parser): file and network I/O through an external library. Their result is the `rawData` sequence of rows given to `ProcessParsedData`.
- `parseFloat` and `parseInt` string grammar: JavaScript number parsing is abstracted as the two functions in `JsParse`.
- Chart drawing (`drawClassChart`, `drawFeatureChart`, `drawEdaCharts`), every DOM update, `alert`, and `toFixed` text formatting. This is presentation without decisions; the what-if text is kept as its numbers (probability, delta, arrow).
- Building, compiling, fitting and evaluating the two TensorFlow.js models, `getWeights`, `predict`, and tensor `dispose`: foreign numerical code. One caller-supplied function `fit` returns both models, both evaluations and the 8 logistic weights, or an error. A trained network is an opaque function into [0, 1]. Old models are not released, in the code or in the model.
- Exceptions thrown after the commit at v3/script.js:417-418 (DOM updates, chart drawing, `dispose`) reach the catch block with the new models already in place. These steps are DOM and tensor work and are not modelled.
- Exceptions thrown by `predict` during a prediction, caught at v3/script.js:497-499: the network is a total function here.
- `calculateBMI`: reads DOM fields and divides floating-point numbers; its only rule is that a height above 10 is in centimetres.
- The `await` points and the disabling of the train and predict buttons: UI concurrency, with no effect on the single-threaded logic modelled.
- Prediction.PredictedProbability: the network's output is typed as a probability in [0, 1]. A feature that is not a number (an unknown smoking category stays `undefined`) would become NaN in the float32 tensor, and the real network would then return NaN. That risk would read as "low", and its what-if lines would show ↑ with NaN deltas. The model does not represent a NaN risk.
- Floating-point arithmetic: numbers are exact reals, so `(base − scenario)·100` and the threshold tests are exact.
