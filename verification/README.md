# Ethiopian hospital system: a Dafny model of its rules and its ML feature contract

This project models the deterministic core of a Django hospital-management
system for Ethiopian clinics. Three groups of logic are covered.

1. **The synthetic-data labelling rules** of the dataset generator
   (`datasets/generate_datasets.py`), as pure functions of values already
   drawn:
   - the disease rows, with their symptom probabilities, the malaria/RDT
     coupling and the vital-sign ranges;
   - the rule-based risk score, in integer hundredths;
   - the appointment show-up probability, in integer hundredths.
2. **The train/serve feature contract.**
   - The training script (`ml_models/train_models.py`): the column lists,
     the LabelEncoders, the scaler and the splits.
   - The three predictors (`ml_models/predict.py`).
   - The four view and API call sites that build their own feature
     vectors: `patients/views.py`, `patients/api_views.py`,
     `appointments/views.py` and `appointments/api_views.py`.
   - Estimators are opaque values. A classifier has a fitted width, its
     classes and a probability function. A regressor has a width and a
     prediction function. A scaler has per-column means and scales. Every
     estimator rejects an input of the wrong width, as scikit-learn does.
   - A LabelEncoder is the position of a label among the sorted distinct
     labels. `train_test_split` is a permutation of the row indices whose
     first `ceil(0.2 n)` entries form the test side.
   - The 0.7/0.4 risk tiers and the 0.5 reminder threshold are modelled too.
3. **Record bookkeeping:**
   - the `PAT-`/`APT-`/`LAB-`/`MED-`/`PRE-`/`BILL-` identifiers;
   - patient age and full name, and the patient search;
   - appointment listing and the status-update guard;
   - lab tests, medicines and the low-stock test, prescriptions;
   - bills, bill items and `add_payment`;
   - the `load_sample_data` command.

Failures that the source raises as exceptions and catches at each call site
are modelled as a `Result` carrying a `Fault`. Examples: a missing model
file, a feature-count mismatch, a missing key, an unparsable number, an
unseen label.

The modules follow the source:

| module | models |
|---|---|
| `Outcomes` | results and faults |
| `Text` | Python's string operations |
| `Numbers` | `round`, `int` |
| `Records` | dicts and DataFrame rows |
| `Queries` | `filter`/`count` |
| `RecordIds` | the prefixed record IDs |
| `Labelling` | the generator |
| `Estimators` | the scikit-learn and joblib stand-ins |
| `Tiers` | the risk tiers |
| `Training` | the training script |
| `Serving` | `predict.py` |
| `Agreement` | training-versus-serving comparisons |
| `Patients`, `Appointments`, `Laboratory`, `Pharmacy`, `Billing` | one module per application |
| `SampleData` | the management command |

Where the system's design description and the code differ, the model
follows the code:

- The disease predictor returns no tier. Only the risk and no-show outputs
  are banded.
- The no-show recommendation uses its own 0.5 threshold, not the tier.
- The risk score is capped only from above, by `min(..., 1.0)`. Its lower
  bound of 0 holds because every contribution is non-negative.
- The four call sites build their own feature vectors instead of calling
  the predictors. The model shows how each differs from what the trained
  models expect (see Findings).

## Model

| member | source | states |
|---|---|---|
| Labelling.Pick | datasets/generate_datasets.py:80 | `random.randint(lo, hi)` always yields a value inside the inclusive range |
| Labelling.PickReachesEveryValue | datasets/generate_datasets.py:80 | every value of the range is the outcome of some draw, so the draw abstraction loses nothing |
| Labelling.Choice | datasets/generate_datasets.py:76 | `random.choice` returns a member of the list |
| Labelling.SymptomFlag | datasets/generate_datasets.py:87-89 | a symptom flag is 0 or 1, and it is 1 exactly when the roll falls below the symptom's probability |
| Labelling.DiseaseTableWellFormed | datasets/generate_datasets.py:20-69 | the disease keys match the table; every range is non-empty; every listed symptom is one of the eight drawn; the malaria test is "positive" exactly for Malaria |
| Labelling.RashAlwaysDefault | datasets/generate_datasets.py:20-69 | no disease lists a rash, so its flag is always drawn with the 0.1 default |
| Labelling.DiseaseRowOf | datasets/generate_datasets.py:75-112 | each disease row has a known diagnosis, a gender of M or F, and all eight symptom flags in {0,1}, each set exactly when its roll is below the table's probability (0.1 when unlisted); `rdt_result` equals `malaria_test`, which is positive exactly for Malaria; age and vitals lie in the diagnosis's inclusive ranges; the woreda belongs to the region |
| Labelling.DiseaseRecord | datasets/generate_datasets.py:100-112 | the stored row carries every symptom, age, gender, vital and diagnosis column with the row's values |
| Labelling.BmiRiskMatchesBmi | datasets/generate_datasets.py:166-169 | the integer comparison `weight*10000` against `threshold*height^2` gives exactly the bands of the real BMI: 0.15 above 30, 0.1 below 18.5, 0 otherwise |
| Labelling.RiskScore | datasets/generate_datasets.py:133-171 | the risk score always lies in [0, 1]; it never exceeds the uncapped sum, and it equals that sum whenever the sum is at most 1 |
| Labelling.RiskCapBinds | datasets/generate_datasets.py:171 | the cap is reached: the largest contributions add up to 1.2, which is cut to 1.0 |
| Labelling.GlucoseRiskMonotone | datasets/generate_datasets.py:148-153 | over the drawn range the glucose contribution never falls as glucose rises |
| Labelling.GlucoseBands | datasets/generate_datasets.py:148-153 | over 70..250 glucose contributes 0 up to 140, 0.15 for 141..180, and 0.25 above 180 |
| Labelling.RiskScoreMonotoneInGlucose | datasets/generate_datasets.py:133-171 | with everything else fixed, more glucose never lowers the capped score |
| Labelling.PregnancyFlag | datasets/generate_datasets.py:123 | pregnancy is 0 or 1, and 1 only below age 45 |
| Labelling.LatePregnancyAges | datasets/generate_datasets.py:142-145 | the extra 0.1 for pregnancy past 35 can only apply at ages 36..44 |
| Labelling.RiskRowOf | datasets/generate_datasets.py:121-184 | a risk row has age, glucose, height and weight inside the drawn ranges, pregnancy only below 45, and a stored score at most 1 that is the rule's score of the row's own values |
| Labelling.RawShowProbability | datasets/generate_datasets.py:205-221 | the show-up probability before clamping already lies in [0.25, 0.95] |
| Labelling.Clamp | datasets/generate_datasets.py:223 | the clamp lands in [0.1, 0.95] and leaves any value already there unchanged |
| Labelling.ShowProbability | datasets/generate_datasets.py:205-223 | the show-up probability lies in [0.1, 0.95], and the clamp never changes the adjusted value |
| Labelling.ShowProbabilityFallsWithDistance | datasets/generate_datasets.py:207-210 | with everything else fixed, a greater distance never raises the show-up probability |
| Labelling.ShowProbabilityFallsWithHistory | datasets/generate_datasets.py:215-218 | more earlier no-shows never raise the show-up probability |
| Labelling.RainCostsFifteen | datasets/generate_datasets.py:212-213 | rain lowers the show-up probability by exactly 0.15 compared with any other weather |
| Labelling.SmsAddsFifteen | datasets/generate_datasets.py:220-221 | a reminder SMS raises the show-up probability by exactly 0.15 |
| Labelling.AppointmentRowOf | datasets/generate_datasets.py:194-235 | row i carries the patient ID `PAT-` and i+1 padded to six digits; its day offset, distance (0.5 to 50 km), weather and history lie in the drawn ranges; `did_come` is 1 exactly when the roll falls below the show-up probability |
| Numbers.RoundHalfEven | datasets/generate_datasets.py:182-183 | Python's `round` lands within one half of its argument, and an exact half goes to the even neighbour |
| Numbers.RoundHalfEvenExact | datasets/generate_datasets.py:182-183 | rounding leaves integers unchanged |
| Numbers.RoundHalfEvenMonotone | datasets/generate_datasets.py:182-183 | rounding never reverses the order of two values |
| Numbers.RoundHundredths | appointments/views.py:59 | `round(x, 2)` in hundredths lies within half a hundredth of the value |
| Numbers.RoundHundredthsOfProbability | appointments/models.py:27 | a probability rounded to hundredths stays within 0..100 hundredths, so it fits the three-digit, two-decimal field |
| Numbers.Truncate | patients/api_views.py:55 | `int()` of a float truncates toward zero, on both signs |
| Numbers.TruncateOdd | patients/api_views.py:55 | truncation is symmetric about zero, unlike Dafny's floor |
| Records.Number | ml_models/predict.py:41-55 | reading a field as a number succeeds exactly when the key is present and holds a number; a missing key is a KeyError |
| Records.NumberOr | ml_models/predict.py:98-107 | `get(key, default)` gives the default for an absent key and the stored number otherwise |
| Records.Select | ml_models/train_models.py:36 | selecting columns succeeds exactly when every column holds a number, and gives one value per column, in column order |
| Records.SelectIgnoresOtherFields | ml_models/predict.py:41-55 | extra fields outside the selected columns never change a selection |
| Records.SelectReadsOnlyColumns | ml_models/predict.py:41-55 | two rows that agree on the selected columns select the same vector |
| Records.Float | patients/api_views.py:23-29 | `float()` keeps a number and parses decimal text, failing on anything else |
| Records.FloatOr | patients/api_views.py:23-29 | `float(data.get(key, default))` gives the default for an absent key |
| Records.Int | patients/api_views.py:53-60 | `int()` truncates a number and parses digit text |
| Records.IntOr | patients/api_views.py:53-60 | `int(data.get(key, default))` gives the default for an absent key |
| Records.FloatOfDigits | patients/api_views.py:23-29 | a number sent as text reads the same as the number itself |
| Queries.Filter | billing/views.py:11-12 | a query-set filter keeps exactly the rows satisfying the condition and never adds rows |
| Queries.FilterChain | appointments/views.py:18-24 | chained filters select the same rows, in the same order, as the filter of the conjunction |
| Queries.FilterAppend | appointments/views.py:18-24 | filtering works row by row, so it keeps the stored order |
| Queries.Count | core/views.py:46 | a count never exceeds the number of rows |
| Queries.CountIsFilterLength | core/views.py:46 | `filter(...).count()` is the length of the filtered query set |
| RecordIds.IdNumber | patients/models.py:44 | reading the number of an ID without a dash fails, as `split('-')[1]` raises IndexError |
| RecordIds.IdRoundTrip | patients/models.py:44-45 | parsing a formatted ID gives back its number |
| RecordIds.FormatIdInjective | patients/models.py:45 | different numbers give different IDs under one prefix |
| RecordIds.FirstId | patients/models.py:47 | the first ID of a table is number 1 written with six digits, e.g. `PAT-000001` |
| RecordIds.NextId | patients/models.py:42-47 | with no earlier record the ID is number 1; otherwise it succeeds exactly when the last ID parses, and then carries the last number plus one |
| RecordIds.AssignId | patients/models.py:40-48 | an existing ID is never changed; an empty ID gets the next ID |
| RecordIds.IssueNextNumbersInOrder | patients/models.py:40-48 | after records numbered 1..k-1 the next record is numbered k |
| RecordIds.IssueIdsNumbersInOrder | patients/models.py:40-48 | saving k records into an empty table numbers them 1..k |
| RecordIds.IssuedIdsDistinct | patients/models.py:40-48 | IDs issued one after another are pairwise distinct |
| Text.ZeroPad | patients/models.py:45 | `{n:06d}` gives at least six digits that denote n |
| Text.ParseNat | patients/models.py:44 | `int(s)` on a non-empty digit string gives its value; the model rejects every other text (see Left out for what `int` also accepts) |
| Estimators.CheckWidth | ml_models/predict.py:57-58 | an estimator accepts an input exactly when its width is the fitted width, and otherwise reports both widths |
| Estimators.PredictProba | ml_models/predict.py:58 | `predict_proba` succeeds exactly on inputs of the fitted width |
| Estimators.ArgMax | ml_models/predict.py:57 | `argmax` is the first position of a largest entry |
| Estimators.Predict | ml_models/predict.py:57 | `predict` gives the class at the argmax of the probabilities, and fails on an input of the wrong width |
| Estimators.Max | ml_models/predict.py:59 | `max` is an entry no smaller than any other |
| Estimators.MaxIsAtArgMax | ml_models/predict.py:57-59 | the reported maximum is the probability of the predicted class |
| Estimators.PredictValue | ml_models/predict.py:110 | a regressor predicts exactly on inputs of the fitted width |
| Estimators.Transform | ml_models/predict.py:109 | the scaler centres each column on its mean and divides by its scale, failing on a width mismatch |
| Estimators.Unique | ml_models/train_models.py:40-41 | the fitted classes are exactly the distinct labels |
| Estimators.UniqueIsSorted | ml_models/train_models.py:40-41 | the fitted classes are strictly increasing |
| Estimators.SortedArrangementUnique | ml_models/train_models.py:40-41 | a set of labels has exactly one strictly increasing arrangement |
| Estimators.UniqueIs | ml_models/train_models.py:40-41 | the classes of a label column are its sorted distinct labels, whatever the order of the rows |
| Estimators.Encode | ml_models/train_models.py:41 | `transform` succeeds exactly on a known label, and gives the position of that label among the classes |
| Estimators.EncodeFollowsOrder | ml_models/train_models.py:155-156 | on sorted classes, codes follow the order of the labels |
| Estimators.FitTransform | ml_models/train_models.py:40-41 | `fit_transform` gives the sorted classes and, for every row, the code that indexes its own label |
| Estimators.TestCount | ml_models/train_models.py:44-46 | the test side holds `ceil(0.2 n)` rows |
| Estimators.SplitIndices | ml_models/train_models.py:44-46 | a split succeeds from two rows on; the test side then has `ceil(0.2 n)` indices and the training side the rest, together the whole shuffled order |
| Estimators.SplitPartitionsRows | ml_models/train_models.py:44-46 | the two sides are disjoint, hold only row indices, and together cover every row |
| Estimators.Load | ml_models/predict.py:14-15 | `joblib.load` succeeds exactly when the file holds a stored object |
| Tiers.TierName | ml_models/predict.py:112-120 | the risk level is "High" exactly for the High tier and "Low" exactly for the Low tier, so "Medium" names the Medium tier |
| Tiers.TierNamesDistinct | ml_models/predict.py:112-120 | different tiers carry different names |
| Tiers.TierMonotone | ml_models/predict.py:112-120 | a higher score never falls into a lower tier |
| Tiers.TierIntervals | ml_models/predict.py:112-120 | High is exactly above 0.7, Medium exactly (0.4, 0.7], Low exactly at most 0.4, so the tiers are disjoint and exhaustive |
| Tiers.TierBoundaries | ml_models/predict.py:112-120 | exactly 0.7 is Medium and exactly 0.4 is Low |
| Tiers.RiskRecommendation | ml_models/predict.py:112-120 | the advice is "Immediate medical attention required" exactly for High, "Continue routine checkups" exactly for Low, and "Regular monitoring recommended" for Medium |
| Tiers.ScoreLabels | ml_models/predict.py:112-120 | a score above 0.7 is labelled High with urgent advice, one in (0.4, 0.7] Medium with monitoring, and one at most 0.4 Low with routine checkups, each in both directions |
| Tiers.NoShowRecommendation | ml_models/predict.py:174 | a reminder SMS is advised exactly when the no-show probability exceeds 0.5 |
| Tiers.NoShowAdviceAgainstTiers | ml_models/predict.py:173-174 | High no-show risk always gets a reminder and Low never does; a Medium risk gets one exactly above 0.5 |
| Tiers.MediumRiskWithoutReminder | ml_models/predict.py:173-174 | a Medium no-show risk of 0.45 gets "No action needed" |
| Training.ModelWidths | ml_models/train_models.py:32-41 | the disease model takes 13 columns with `gender_encoded` last, the risk model 8, and the no-show model 4 with `weather_encoded` last |
| Training.TextAt | ml_models/train_models.py:36-37 | a text field is read exactly when it is present and holds text |
| Training.TextColumn | ml_models/train_models.py:36-37 | a text column has one entry per row, each that row's value |
| Training.NumberColumn | ml_models/train_models.py:36-37 | a numeric column has one entry per row, each that row's value |
| Training.Matrix | ml_models/train_models.py:36-37 | `df[columns]` has one selected row per record, in record order |
| Training.Gather | ml_models/train_models.py:44-46 | a split side holds the rows at its indices, in index order |
| Training.SplitRows | ml_models/train_models.py:44-46 | every split index is a row index |
| Training.PrepareDisease | ml_models/train_models.py:32-41 | the disease inputs are each row's twelve feature values followed by the encoder's code for its gender, and the gender classes are the sorted distinct genders |
| Training.TrainDisease | ml_models/train_models.py:44-58 | training succeeds exactly on a well-formed dataset of at least two rows whose diagnoses the stratified split can share out (every class at least twice, each side with room for every class); the classifier then takes 13 columns, keeps the gender encoder, and its classes are the sorted diagnoses of the training side |
| Training.TransformAll | ml_models/train_models.py:107-109 | scaling a matrix scales every row with the same scaler |
| Training.SplitRisk | ml_models/train_models.py:92-101 | the risk features and targets are split by the same indices, unstratified |
| Training.FitRisk | ml_models/train_models.py:107-117 | the scaler is fitted on the training side, the test side is scaled with that same scaler, and the regressor takes 8 columns |
| Training.TrainRisk | ml_models/train_models.py:92-117 | training succeeds exactly on a dataset with the eight numeric features and a numeric target, of at least two rows, that the fitted scaler can transform; the scaler is fitted on the training rows alone, the regressor takes 8 columns, and the scaled test set is each test row scaled by that scaler |
| Training.ScalerSeesOnlyTrainingRows | ml_models/train_models.py:107-109 | two datasets that agree on their training rows give the same persisted scaler, so no test row reaches it |
| Training.DistributionCoversTestSet | ml_models/train_models.py:127-129 | the High, Medium and Low counts of the test targets add up to the test-set size |
| Training.DistributionMatchesTiers | ml_models/train_models.py:127-129 | the report's three bands are exactly the tiers the predictor assigns |
| Training.PrepareNoShow | ml_models/train_models.py:152-158 | the no-show inputs are distance, earlier no-shows and SMS, followed by the encoder's code for the weather |
| Training.TrainNoShow | ml_models/train_models.py:152-176 | training succeeds exactly on a well-formed dataset of at least two rows that the stratified split can share out and whose training side holds both outcomes, since logistic regression needs two classes; the classifier then takes 4 columns, keeps the weather encoder, and has as classes the sorted `did_come` values of the training side |
| Training.GenderClasses | ml_models/train_models.py:40-41 | a gender column of M and F is encoded with classes F, M |
| Training.WeatherClasses | ml_models/train_models.py:155-156 | the three generated weather conditions are encoded with classes cloudy, rainy, sunny |
| Training.DiseaseClasses | ml_models/train_models.py:52-58 | a classifier trained on the six diseases orders its columns alphabetically |
| Training.NoShowClasses | ml_models/train_models.py:159-183 | a classifier trained on 0/1 labels has column 0 = "No Show" and column 1 = "Showed Up" |
| Serving.GenderCode | ml_models/predict.py:54 | the gender code is 1 exactly for "M" and 0 otherwise; a missing gender is a KeyError |
| Serving.DiseaseVector | ml_models/predict.py:41-55 | the disease vector has 13 entries: age, the eight symptoms, systolic, diastolic and glucose in training order, then the gender code |
| Serving.DiseaseVectorParts | ml_models/predict.py:41-55 | the disease vector is the selected training columns followed by the gender code |
| Serving.Zip | ml_models/predict.py:64-67 | the dict pairs each name with the probability at the same position, up to the shorter list |
| Serving.PredictDisease | ml_models/predict.py:57-67 | the prediction is the class at the argmax; the confidence is that column's probability; the probabilities are keyed by the generator's disease list; an input of the wrong width is a feature-count error |
| Serving.LabelledProbabilities | ml_models/predict.py:64-67 | each probability keyed by the classifier's own class |
| Serving.PredictDiseaseLabelled | ml_models/predict.py:57-67 | with each probability keyed by its own class, the predicted disease is always among the keys |
| Serving.WithDefaults | ml_models/predict.py:98-107 | `.get` keeps present values and supplies defaults only for absent keys |
| Serving.RiskVector | ml_models/predict.py:98-107 | the risk vector has one entry per training risk column, in training order: the input's value when present, the default otherwise; it fails exactly when a column is missing without a default or is not a number |
| Serving.RiskVectorDefaults | ml_models/predict.py:98-107 | an absent pregnancy reads as 0 and an absent bmi as 25, at their training positions |
| Serving.CalculateRisk | ml_models/predict.py:98-120 | the score is the regressor's prediction on the scaled vector, banded into its tier and advice; it succeeds exactly when both files load, the vector is built, the scaler takes it and the scaled width is the model's; a missing file and a width mismatch are the corresponding errors |
| Serving.WeatherCode | ml_models/predict.py:150-160 | weather codes sunny 0, rainy 1, cloudy 2, and 0 for anything else |
| Serving.NoShowVector | ml_models/predict.py:156-161 | the no-show vector is distance, earlier no-shows and SMS, followed by the weather code |
| Serving.EncodedNoShowVector | ml_models/predict.py:156-161 | built with the persisted encoder, the no-show vector carries the fitted code of the weather and fails on an unseen condition |
| Serving.NoShowReport | ml_models/predict.py:166-175 | column 0 is reported as the no-show probability and column 1 as the show probability; the risk level and advice follow column 0 |
| Serving.PredictNoShow | ml_models/predict.py:156-175 | the no-show prediction succeeds exactly when the model is stored, the vector is built and at least two probabilities come back |
| Serving.PredictNoShowEncoded | ml_models/predict.py:156-175 | the same prediction with the weather encoded by the persisted encoder |
| Agreement.DiseaseRowsAgree | ml_models/train_models.py:32-41 | for a dataset of M and F genders, the predictor builds exactly the training row of every record |
| Agreement.DiseaseTrainedRow | ml_models/train_models.py:36-41 | on the training side a row is its twelve values and 1 for M, 0 for F |
| Agreement.TrainedGenderClasses | ml_models/train_models.py:40-41 | such a dataset's gender encoder has classes F, M |
| Agreement.EncodeGender | ml_models/train_models.py:40-41 | with classes F, M the encoder codes M as 1 and F as 0, as the predictor does |
| Agreement.DiseaseServedRow | ml_models/predict.py:41-55 | on the serving side the same row is its twelve values and 1 for M, 0 otherwise |
| Agreement.DiseaseRecordIsComplete | datasets/generate_datasets.py:100-112 | a generated disease record carries every column the disease model and its gender encoder read |
| Agreement.GeneratedDiseaseRecordIsComplete | datasets/generate_datasets.py:75-112 | every generated record has gender M or F and one of the six sorted diagnoses |
| Agreement.ZipOfDiseaseNames | ml_models/predict.py:64-67 | the predictor keys column 0 as Malaria and column 4 as Diabetes |
| Agreement.DiseaseNamesDistinct | ml_models/predict.py:16 | the predictor's disease list has no repeats |
| Agreement.ProbabilitiesMislabelled | ml_models/predict.py:57-67 | as written, with the trained class order, the predicted disease can be Diabetes while its 0.9 probability is reported under Malaria |
| Agreement.LabelledProbabilitiesConsistent | ml_models/predict.py:57-67 | corrected, the probability keyed by the predicted disease is the confidence, and each class keys its own column |
| Agreement.RiskRowsAgree | ml_models/train_models.py:92-95 | a record with all eight risk columns is served exactly as it was trained |
| Agreement.GeneratedRiskRecordAgrees | datasets/generate_datasets.py:121-184 | every generated risk record has the eight columns and is served as it was trained |
| Agreement.WeatherTablesDiffer | ml_models/predict.py:150-154 | the fitted encoder codes cloudy 0, rainy 1, sunny 2, while the predictor's table codes sunny 0, rainy 1, cloudy 2 |
| Agreement.SunnyTrainedAsTwo | ml_models/train_models.py:155-158 | in training, a sunny record's weather entry is 2 |
| Agreement.SunnyRowsDisagree | ml_models/predict.py:150-161 | as written, the predictor serves a sunny training record with weather 0 instead of 2, so the rows differ |
| Agreement.SunnyServedAsZero | ml_models/predict.py:150-161 | the predictor's own table codes sunny as 0 |
| Agreement.EncodedRowsAgree | ml_models/train_models.py:152-158 | corrected, with the persisted encoder every training record is served exactly as it was trained |
| Agreement.NoShowReadingIsRight | ml_models/predict.py:166-170 | with classes 0, 1, the predictor's no-show probability is the "No Show" column, and it predicts a show-up exactly when column 1 exceeds column 0 |
| Patients.Age | patients/models.py:57-63 | the age is the number of birthdays that have passed: the age-th birthday is not after today and the next one is |
| Patients.AgeIsUnique | patients/models.py:57-63 | those two facts determine the age |
| Patients.AgeNonNegative | patients/models.py:57-63 | anyone born on or before today has a non-negative age |
| Patients.AgeRisesOnBirthday | patients/models.py:57-63 | the age rises by exactly one on each birthday |
| Patients.AgeMonotone | patients/models.py:57-63 | age never decreases as time goes on |
| Patients.ParseIsoDate | appointments/views.py:18-19 | the `date` text reads only as a day that exists, with the year its first four digits, and any other text is a validation error naming the text |
| Patients.ParseIsoDateParts | appointments/views.py:18-19 | `YYYY-M[M]-D[D]` reads as the date its numbers name exactly when that day exists |
| Patients.IsoDateRoundTrip | appointments/views.py:18-19 | every date from year 1000 on reads back from its `YYYY-MM-DD` text |
| Patients.MalformedDatesRejected | appointments/views.py:18-19 | "2024-13-45" and "abc" are rejected |
| Patients.LeapDayParses | appointments/views.py:18-19 | the 29th of February reads exactly in a leap year |
| Patients.FullName | patients/models.py:53-55 | the full name is the first name, one space and the last name |
| Patients.FullNameSplits | patients/models.py:53-55 | a first name without spaces is recovered by splitting the full name |
| Patients.SavePatient | patients/models.py:40-48 | an existing ID is kept; otherwise the ID is `PAT-000001` or the last number plus one, and saving fails exactly when the last ID does not parse |
| Patients.Search | patients/views.py:13-22 | the search keeps exactly the patients whose ID, first name, last name or phone contains the query, ignoring case; an empty query keeps everyone |
| Patients.SearchIsFilter | patients/views.py:13-22 | skipping the filter for an empty query gives the same list as filtering |
| Patients.SearchKeepsOrder | patients/views.py:13-22 | the search keeps the list's order |
| Patients.LongerQueryNarrows | patients/views.py:13-22 | searching the results again with a longer query gives the longer query's results |
| Patients.GenderFlag | patients/views.py:92 | the gender flag is 1 exactly for M |
| Patients.GenderFlagMatchesPredictor | patients/views.py:92 | the views code gender as the disease predictor does |
| Patients.Systolic | patients/views.py:93 | a blank blood pressure defaults to 120; otherwise systolic is the number before the first slash, or the whole text when there is no slash |
| Patients.SystolicOfReading | patients/views.py:93 | "140/90" reads as systolic 140 |
| Patients.OrDefault | patients/views.py:94-95 | a blank value and a zero both give the default |
| Patients.HistoryVector | patients/views.py:90-96 | the history vector is age, gender flag, systolic, glucose (default 100) and temperature (default 37) |
| Patients.HistoryVectorMisfits | patients/views.py:90-96 | those five entries differ in number and position from the 13 trained disease columns |
| Patients.HistoryPrediction | patients/views.py:86-100 | a prediction happens only when the model file exists and the model accepts the vector |
| Patients.AddMedicalHistory | patients/views.py:86-102 | the history is always saved; `predicted_disease` is set only on a successful prediction, and any failure leaves it unchanged |
| Patients.HistoryPredictionNeverSet | patients/views.py:90-100 | as written, with the trained 13-column model the prediction always fails and nothing is set |
| Patients.AddMedicalHistoryCorrected | patients/views.py:86-102 | corrected, the history's disease comes from the disease predictor on the full record |
| Patients.CorrectedHistoryFitsModel | patients/views.py:90-98 | corrected, the vector has the trained width, so the prediction never fails on a feature count |
| Patients.ApiDiseaseVector | patients/api_views.py:23-29 | `predict_disease` builds age, gender flag, blood pressure (120), glucose (100) and temperature (37) |
| Patients.ApiPredictDisease | patients/api_views.py:15-43 | the reply carries the predicted class and the largest probability as confidence; any failure is an error reply with no prediction |
| Patients.ApiConfidenceIsPredictedClass | patients/api_views.py:37 | the reported confidence is the probability of the predicted class |
| Patients.ApiDiseaseAlwaysFails | patients/api_views.py:23-32 | as written, the trained model rejects the five features every time |
| Patients.ApiPredictDiseaseCorrected | patients/api_views.py:15-43 | corrected, the endpoint answers with the disease predictor's result on the patient's record |
| Patients.ApiDiseaseCorrectedFitsModel | patients/api_views.py:23-32 | corrected, the vector has the trained width, and the reply succeeds exactly when the model predicts |
| Patients.ApiRiskVector | patients/api_views.py:53-60 | `calculate_risk` builds six entries: age, `int(pregnancy)` (0), glucose (100), blood pressure (120), heart rate (75), weight (70) |
| Patients.ApiCalculateRisk | patients/api_views.py:46-73 | the unscaled vector goes straight to the regressor; the level uses the shared tiers; any failure is an error reply |
| Patients.ApiRiskAlwaysFails | patients/api_views.py:53-62 | as written, the trained 8-column model rejects the six features every time |
| Patients.ApiCalculateRiskCorrected | patients/api_views.py:46-73 | corrected, the endpoint answers with the risk predictor's scaled result and tier |
| Patients.ApiRiskCorrectedSucceeds | patients/api_views.py:53-62 | corrected, with the trained model and scaler the endpoint always answers |
| Patients.HistoriesFor | patients/api_views.py:79-84 | without a `patient_id` every history is listed; with a digit string, exactly that patient's histories; any other id is an error in the model (see Left out) |
| Patients.HistoriesOfPatient | patients/api_views.py:79-84 | asking for a patient's key gives exactly that patient's histories, in order |
| Appointments.NewAppointment | appointments/models.py:20 | a new appointment is scheduled, a valid choice, with no ID and no stored estimate |
| Appointments.SaveAppointment | appointments/models.py:36-44 | an existing ID is kept; otherwise the ID is `APT-000001` or the last number plus one |
| Appointments.FilterAppointments | appointments/views.py:18-24 | once the date is read, the list keeps exactly the appointments on that date, with the given status, and (for a doctor) the doctor's own |
| Appointments.AppointmentList | appointments/views.py:13-24 | a blank `date` filters nothing; one the date field cannot read is a validation error; otherwise the list keeps exactly the appointments on the date read, with the given status, and (for a doctor) the doctor's own |
| Appointments.ListIsConjunction | appointments/views.py:18-24 | the chained filters equal one conjunctive filter over the stored order |
| Appointments.PreviousNoShows | appointments/views.py:45-48 | the no-show count never exceeds the number of appointments |
| Appointments.PreviousNoShowsCountsOwnNoShows | appointments/views.py:45-48 | the count starts at 0, rises by one for each of the patient's own no-shows and ignores every other appointment |
| Appointments.AppointmentVector | appointments/views.py:50-56 | the vector is age, distance (5 when blank or zero), a rainy flag, earlier no-shows and an SMS flag |
| Appointments.AppointmentVectorMisfits | appointments/views.py:50-56 | five entries against four trained columns, and sunny and cloudy give the same row |
| Appointments.SecondColumn | appointments/views.py:58 | the value read is column 1 of the probabilities |
| Appointments.CreateAppointment | appointments/views.py:40-68 | on a successful prediction the estimate is stored rounded to hundredths, with a warning exactly above 0.7; any failure keeps the appointment as saved |
| Appointments.CreationNeverBlocked | appointments/views.py:64-68 | creation always goes ahead, keeping the appointment's ID and status |
| Appointments.StoredEstimateFits | appointments/models.py:27 | any stored estimate fits the three-digit, two-decimal field |
| Appointments.CreateNeverEstimates | appointments/views.py:50-58 | as written, the trained 4-column model rejects the 5-entry vector, so no estimate is ever stored |
| Appointments.StoredEstimateIsShowUp | appointments/views.py:58-59 | as written, any stored estimate is the "Showed Up" column |
| Appointments.CreateAppointmentCorrected | appointments/views.py:40-68 | corrected, the stored estimate is the no-show predictor's no-show probability, with the persisted weather encoder |
| Appointments.CorrectedCreationReadsNoShow | appointments/views.py:50-59 | corrected, the vector fits the trained model and the stored value is the "No Show" column |
| Appointments.UpdateStatus | appointments/views.py:83-89 | a posted status is taken only when it is one of the five choices; otherwise nothing changes |
| Appointments.UpdateStatusKeepsChoices | appointments/views.py:83-89 | the status stays among the choices, and repeating an update changes nothing more |
| Appointments.ApiPredictNoShow | appointments/api_views.py:15-46 | the reply's probability is column 1, with the shared tiers; any failure is an error reply with no probability |
| Appointments.ApiNoShowMatchesCreation | appointments/api_views.py:27-35 | the endpoint reads the same value the creation view stores, and as written it always fails with the trained model |
| Appointments.ApiPredictNoShowCorrected | appointments/api_views.py:15-46 | corrected, the endpoint answers with the no-show predictor's no-show probability and its tier |
| Laboratory.NewLabTest | laboratory/models.py:6-30 | a new test is pending, a valid choice, with no ID and blank results |
| Laboratory.SaveLabTest | laboratory/models.py:41-49 | an existing ID is kept; otherwise the ID is `LAB-000001` or the last number plus one |
| Laboratory.GeneratedMalariaResultsAreChoices | laboratory/models.py:26-30 | the generated malaria and RDT results are values the malaria field accepts |
| Pharmacy.NewMedicine | pharmacy/models.py:11-13 | a new medicine has no stock, reorder level 50 and unit "tablet" |
| Pharmacy.SaveMedicine | pharmacy/models.py:24-32 | an existing ID is kept; otherwise the ID is `MED-000001` or the last number plus one |
| Pharmacy.LowStockBoundary | pharmacy/models.py:37-39 | stock at the reorder level is not low, and one unit fewer is |
| Pharmacy.LowStockCount | pharmacy/models.py:37-39 | the count is the number of medicines below their own reorder level |
| Pharmacy.DashboardAgreesIffDefaultLevel | core/views.py:46 | the dashboard's fixed test agrees with `is_low_stock` at every stock level exactly when the reorder level is the default 50 |
| Pharmacy.DashboardLowStockCount | core/views.py:46 | the dashboard counts the medicines with fewer than 50 units |
| Pharmacy.DashboardCountsLowStock | core/views.py:46 | while every reorder level is 50, the dashboard count is the low-stock count |
| Pharmacy.DashboardMissesRaisedLevel | core/views.py:46 | 60 units under a reorder level of 100 are low stock, yet the dashboard counts none |
| Pharmacy.MedicineList | pharmacy/views.py:9-16 | a non-blank `low_stock` parameter keeps exactly the medicines below their own reorder level |
| Pharmacy.CorrectedDashboardLowStockCount | core/views.py:46 | corrected, one pass counting the medicines below their own reorder level gives the length of the list's low-stock view and the `is_low_stock` count |
| Pharmacy.NewPrescription | pharmacy/models.py:48-52 | a new prescription is pending, a valid choice, with no ID |
| Pharmacy.SavePrescription | pharmacy/models.py:60-68 | an existing ID is kept; otherwise the ID is `PRE-000001` or the last number plus one |
| Billing.NewBill | billing/models.py:25-28 | a new bill is pending, with nothing paid and no discount, so its balance is its total |
| Billing.SaveBill | billing/models.py:38-46 | an existing ID is kept; otherwise the ID is `BILL-000001` or the last number plus one |
| Billing.BillList | billing/views.py:7-17 | a non-blank status keeps exactly the bills with that status; a blank one keeps all |
| Billing.BillListOutsideChoices | billing/views.py:11-12 | a status outside the choices lists nothing |
| Billing.SaveBillItem | billing/models.py:66-68 | the stored line total is quantity times unit price, and nothing else changes |
| Billing.SaveBillItemCanonical | billing/models.py:66-68 | any supplied total is overridden, and saving twice changes nothing more |
| Billing.AddPaymentAsWritten | billing/views.py:35-45 | as written, the payment row is stored with the posted amount and the bill is left exactly as it was, since line 45 raises before the bill is touched |
| Billing.PaymentStoredButNotCounted | billing/views.py:35-49 | as written, a stored payment leaves a new bill with nothing paid and still pending; read as a decimal, the same payment is counted |
| Billing.AddPayment | billing/views.py:38-49 | with the amount read as a decimal, exactly one payment of the posted amount is recorded; the paid amount rises by exactly that amount; the status is paid exactly when paid reaches the total and partial otherwise, whatever it was before |
| Billing.PayAll | billing/views.py:31-55 | over a run of payments as written, the paid amount is the earlier amount plus the sum of the payments; total, discount and ID never change; once a payment is recorded the bill is paid exactly when paid reaches the total |
| Billing.PayAllCorrected | billing/views.py:46-49 | corrected, over the same run the bill is paid exactly when nothing, discount included, is outstanding |
| Billing.PayAllSamePayments | billing/views.py:38-45 | counting the discount or not, a run records the same payments |
| Billing.PayAllRunsAgree | billing/views.py:46-49 | without a discount, the run as written and the corrected run end in the same bill |
| Billing.NewBillPaidIsSumOfPayments | billing/views.py:38-49 | from a new bill the paid amount is the sum of the recorded payments, and the balance is the total less that sum |
| Billing.PartialWithNothingOutstanding | billing/views.py:46-49 | with the status comparison as written (and the amount read as a decimal), a bill of 100.00 with a 20.00 discount and 80.00 paid is left partial with nothing outstanding |
| Billing.CancelledBillReopened | billing/views.py:46-49 | a payment on a cancelled bill reopens it |
| Billing.AddPaymentWithDiscount | billing/views.py:46-49 | corrected, the bill is paid exactly when its balance, discount included, is at most zero |
| Billing.DiscountFreeBillsAgree | billing/views.py:46-49 | without a discount the corrected and the written transition agree |
| SampleData.ShortCode | core/management/commands/load_sample_data.py:30 | a code is the name's first three characters, upper-cased |
| SampleData.WoredaCode | core/management/commands/load_sample_data.py:36 | a woreda code is the region code, a dash, and the woreda's short code |
| SampleData.WoredaCodeInjective | core/management/commands/load_sample_data.py:36 | a woreda code determines its region code and short code |
| SampleData.RegionRows | core/management/commands/load_sample_data.py:19-31 | one region per table entry, each with its derived code |
| SampleData.RegionCodesOfTable | core/management/commands/load_sample_data.py:19-31 | the derived region codes are ORO, AMH, TIG, SNN, ADD |
| SampleData.RegionWoredas | core/management/commands/load_sample_data.py:19-37 | each region's woredas carry the region's code and their derived codes |
| SampleData.WoredaCodesOfTable | core/management/commands/load_sample_data.py:19-37 | the derived woreda codes are the seventeen listed codes |
| SampleData.RegionCodesDistinct | core/models.py:39 | the derived region codes are pairwise distinct, as the unique column requires |
| SampleData.WoredaCodesDistinct | core/models.py:54 | the derived woreda codes are pairwise distinct, as the unique column requires |
| SampleData.GetOrCreate | core/management/commands/load_sample_data.py:28-31 | an identical row is found; a new row is appended, unless its code is taken, which is an integrity error |
| SampleData.GetOrCreateAll | core/management/commands/load_sample_data.py:27-37 | every row ends up present, nothing is removed, and only given rows are added |
| SampleData.GetOrCreateAllPresent | core/management/commands/load_sample_data.py:27-37 | rows already present change nothing |
| SampleData.GetOrCreateAllIdempotent | core/management/commands/load_sample_data.py:27-37 | running the same `get_or_create` steps again changes nothing |
| SampleData.GetOrCreateAllFresh | core/management/commands/load_sample_data.py:27-37 | rows with fresh, distinct codes are all appended in order |
| SampleData.LoadGeography | core/management/commands/load_sample_data.py:27-37 | afterwards every table region and woreda is present and no earlier row is lost |
| SampleData.LoadGeographyFresh | core/management/commands/load_sample_data.py:27-37 | on an empty database, exactly the table's regions and woredas are created |
| SampleData.LoadGeographyIdempotent | core/management/commands/load_sample_data.py:27-37 | loading the geography again changes nothing |
| SampleData.CreateIfAbsent | core/management/commands/load_sample_data.py:43-52 | a row is created exactly when its key is absent |
| SampleData.CreateAllIfAbsent | core/management/commands/load_sample_data.py:56-84 | every key ends up present, and every added row has one of the given keys |
| SampleData.CreateAllKeepsKeysUnique | core/management/commands/load_sample_data.py:56-84 | creating only when absent never duplicates a key |
| SampleData.CreateAllPresent | core/management/commands/load_sample_data.py:56-84 | keys already present change nothing |
| SampleData.CreateAllIdempotent | core/management/commands/load_sample_data.py:56-84 | creating the same rows again changes nothing |
| SampleData.LoadUsers | core/management/commands/load_sample_data.py:43-135 | all eight sample accounts end up present and no account is lost |
| SampleData.LoadUsersKeepsUsernamesUnique | core/management/commands/load_sample_data.py:43-135 | loading the users never gives two accounts one username |
| SampleData.LoadUsersIdempotent | core/management/commands/load_sample_data.py:43-135 | loading the users again changes nothing |
| SampleData.TwentyEightIsSafe | core/management/commands/load_sample_data.py:153 | day 28 is valid in every month, while 29 February 1950 is not |
| SampleData.SamplePatientOf | core/management/commands/load_sample_data.py:146-163 | the names come from index i modulo the list length, so always in range; the birth date is valid, in 1950..2010 with day 1..28; the gender is a valid choice |
| SampleData.NameSetSize | core/management/commands/load_sample_data.py:140-141 | the eight name pairs are distinct |
| SampleData.LoadPatients | core/management/commands/load_sample_data.py:146-163 | the patient loop never removes a patient |
| SampleData.FreshLoadNamesAmongPairs | core/management/commands/load_sample_data.py:146-163 | on an empty database every registered name is one of the eight pairs |
| SampleData.FreshLoadCoversPairs | core/management/commands/load_sample_data.py:146-163 | every one of the eight pairs is registered |
| SampleData.FreshLoadRegistersEight | core/management/commands/load_sample_data.py:146-163 | the twenty rounds register exactly eight patients, one per name pair |
| SampleData.LoadPatientsIdempotent | core/management/commands/load_sample_data.py:146-163 | a second run registers nobody new, whatever its random draws |
| SampleData.LoadSampleData | core/management/commands/load_sample_data.py:14-163 | the command succeeds exactly when the geography loads, then loads the users and the patients |
| SampleData.LoadSampleDataIdempotent | core/management/commands/load_sample_data.py:14-163 | running the command again, with any draws, changes nothing |
| SampleData.FreshLoadSucceeds | core/management/commands/load_sample_data.py:14-163 | on an empty database the command succeeds with every region and woreda and eight patients |

## Left out

- Estimator internals are left out. These are random-forest and logistic-regression fitting, StandardScaler statistics and the shuffle inside `train_test_split`. They are foreign library code, so fitted models are opaque values, and `fit` functions and shuffled orders are parameters.
- Randomness is left out. Every `random`/`numpy.random` draw is a parameter, and seed reproducibility and byte-identical output are not modelled.
  - The generator draws the distance as a uniform float from 0.5 to 50, rounded to two places. It is modelled as an integer number of hundredths, 50..5000.
- I/O is left out: `joblib` load/dump, pandas and CSV reading and writing, `os.makedirs`, prints, classification reports and feature importances.
  - The `os.path.exists` check is modelled as an `Absent` artifact.
- The clock is left out. `date.today()` is the `today` parameter.
- Django plumbing is left out: the ORM, persistence, rendering, messages, redirects, login decorators, DRF viewsets and routers, URLs, admin, forms and serializers.
  - Tables are sequences, and the "last row" of an ID lookup is a parameter.
  - The form-only views (patient create/update/detail, appointment detail, bill detail) and the doctors application hold no logic beyond that plumbing.
  - The random phone and licence numbers of the sample-data command are left out.
- Billing.AddPayment: money is integer cents, and the step is the view with the posted amount read as a decimal. As written, `billing/views.py:45` adds a float to a decimal and raises TypeError on every payment; that crash is `Billing.AddPaymentAsWritten` (see Findings). The discount comparison that `AddPayment` and `PayAll` model is therefore reached only once that conversion is made.
- Concurrency is left out. Two saves that read the same last row at once are not modelled; saves are sequential.
- Records.Float: `float()` and `int()` on text accept only unsigned decimals and digit strings. Signs, exponents, whitespace and `inf`/`nan` are not modelled.
- Records.Int: the same restriction as `Records.Float`; a signed or padded number sent as text is an error in the model.
- Text.ParseNat: only plain digit strings parse. Python's `int` also takes a sign, surrounding whitespace and `_` between digits, so the model rejects " 3" and "-1".
- Patients.HistoriesFor: a `patient_id` of " 3" or "-1" is an error in the model. Django lists patient 3's histories for the first and nothing for the second.
- Patients.Systolic: the part before the slash parses as an unsigned decimal only. A reading such as " 140/90" fails in the model, while `float` accepts it.
- Patients.Search: `icontains` is modelled with ASCII case mapping only. Non-ASCII letters, such as Amharic script or accented Latin, match only in the same case.
- SampleData.ShortCode: `upper()` is modelled on ASCII letters only. The region and woreda names in the table are ASCII, so their codes are unaffected.
- SampleData.LoadGeography: it creates all regions first and then all woredas, while the command interleaves them region by region. The end state is the same. An `IntegrityError` midway is not modelled with the rows written before it.
- Labelling.ShowProbability: it is computed in exact hundredths, so floating-point effects are not modelled. One example: in binary floating point 0.8 + 0.15 exceeds 0.95 by about 1e-16, so the clamp changes that value in its last bit.
- Patients.ParseIsoDate: only the `YYYY-M[M]-D[D]` form with ASCII digits is read. Python's `date.fromisoformat`, which newer Django versions try first, also reads forms such as `20240105` and week dates, and Django's pattern also takes non-ASCII digits and a trailing newline; those texts are errors in the model.
- Appointments.AppointmentList: the date is read as a `DateField` lookup reads it; the project's settings are not part of this model, and Django's defaults are assumed.
- Labelling.RiskRowOf: the `bmi` column rounds the exact quotient weight / (height/100)² half to even. The generator rounds the float quotient, and at three drawable pairs the float lies just below a half-hundredth: weight 56 and height 160 give 21.874999999999996, which Python rounds to 21.87 while the model stores 21.88 (likewise 88 and 120 at height 160).
- Estimators.TestCount: `ceil(0.2 n)` is taken over exact arithmetic. A float product landing just above an integer is not modelled.
- Stratification (`stratify=y` for the two classifiers): the errors it raises are modelled, through `Estimators.Stratifiable`. The rows chosen for each side are still any permutation, so the per-class proportions of each side are not modelled.

## Findings

| source | as written | input that shows it | evidently intended | confidence | as-written member | corrected member |
|---|---|---|---|---|---|---|
| ml_models/predict.py:150-154 | the no-show predictor codes weather sunny 0, rainy 1, cloudy 2, but the fitted LabelEncoder coded cloudy 0, rainy 1, sunny 2 | a sunny training record: served with weather 0, trained with 2 | serve the weather with the persisted encoder | high; not executed | Agreement.SunnyRowsDisagree | Agreement.EncodedRowsAgree |
| ml_models/predict.py:64-67 | `all_probabilities` pairs the generator's disease list with the classifier's alphabetically sorted columns | probabilities [0.9, 0.02, ...]: Diabetes is predicted while 0.9 is reported under Malaria | key each probability by `model.classes_` | high; not executed | Agreement.ProbabilitiesMislabelled | Agreement.LabelledProbabilitiesConsistent |
| patients/views.py:90-98 | `add_medical_history` feeds 5 features to the 13-column disease model, so the prediction always raises and is swallowed | any history, with the trained model | build the 13-column vector of the disease predictor | high; not executed | Patients.HistoryPredictionNeverSet | Patients.CorrectedHistoryFitsModel |
| patients/api_views.py:23-32 | `predict_disease` feeds 5 features to the 13-column disease model | any request, with the trained model | answer with the disease predictor's result | high; not executed | Patients.ApiDiseaseAlwaysFails | Patients.ApiDiseaseCorrectedFitsModel |
| patients/api_views.py:53-62 | `calculate_risk` feeds 6 unscaled features to the 8-column risk model | any request, with the trained model | scale the 8-column vector and predict as the risk predictor does | high; not executed | Patients.ApiRiskAlwaysFails | Patients.ApiRiskCorrectedSucceeds |
| appointments/views.py:50-58 | `appointment_create` feeds 5 features to the 4-column no-show model, so no estimate is ever stored | any appointment, with the trained model | build the 4-column vector with the persisted weather encoder | high; not executed | Appointments.CreateNeverEstimates | Appointments.CorrectedCreationReadsNoShow |
| appointments/views.py:58-59 | the stored no-show probability is `predict_proba` column 1, which is the "Showed Up" class | a model whose column 1 is 0.9: 0.90 is stored as the no-show risk | store column 0, the "No Show" class | high; not executed | Appointments.StoredEstimateIsShowUp | Appointments.CorrectedCreationReadsNoShow |
| appointments/api_views.py:27-35 | `predict_noshow` repeats the creation view's 5-entry vector and column 1 | any appointment, with the trained model | answer with the no-show predictor's no-show probability | high; not executed | Appointments.ApiNoShowMatchesCreation | Appointments.ApiPredictNoShowCorrected |
| billing/views.py:45 | `bill.paid_amount += amount` adds the float read at line 35 to a decimal field, which raises TypeError after the payment row is created at line 38 | any payment, say 50.00 on a new bill of 100.00: the payment row is stored, the bill stays pending with nothing paid, and the request fails | read the amount as a decimal, so the paid amount rises by the payment | high; not executed | Billing.PaymentStoredButNotCounted | Billing.AddPayment |
| billing/views.py:46-49 | `add_payment` compares paid with total and ignores the discount; latent, since line 45 fails first as written | once the amount is a decimal: total 100.00, discount 20.00, payment 80.00 leaves the bill partial with balance 0 | paid once the balance, discount included, is at most 0 | low; not executed | Billing.PartialWithNothingOutstanding | Billing.PayAllCorrected |
| core/views.py:46 | the dashboard counts medicines with fewer than 50 units, whatever their reorder level | 60 units under reorder level 100: low stock, yet not counted | count `is_low_stock`, quantity below the medicine's own reorder level | medium; not executed | Pharmacy.DashboardMissesRaisedLevel | Pharmacy.CorrectedDashboardLowStockCount |

The corrected members are the ones the rest of the model builds on.
`Billing.PayAll` folds `Billing.AddPayment`, the view with the amount read as a decimal but the status comparison as written, and
`Billing.PayAllCorrected` folds `Billing.AddPaymentWithDiscount`. The corrected
call sites go through `Serving.PredictDisease`, `Serving.CalculateRisk` and
`Serving.PredictNoShowEncoded`.
