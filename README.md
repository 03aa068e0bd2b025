# Cycle-prediction engine of auralie, modelled in Dafny

auralie predicts a user's next menstrual period, fertile window and ovulation
day from the history of logged cycles. Each cycle has a start date and
optionally a period length, flow, symptoms, an end date and a cycle length.
The repository holds several copies of the prediction engine, and the model
keeps each one as written:

- **Backend engine** (`backend/app/services/cycle_predictor.py`, module
  `CyclePredictorService`). It asks the Gemini service first. If that fails
  it uses a fitted regressor on the latest row of a feature table. After
  that comes the mean gap of the sorted history, clamped to 21..45 days.
  For an empty history it gives a 28-day default from today. Confidence
  tiers are 6/3.
- **Older backend copy** (`backend/app/services/predict_service.py`, module
  `PredictService`). It has the same feature table and average rule, and
  confidence tiers 3/1. Its `train` always raises.
- **Stand-alone training copy** (`aiml/cycle_prediction_model.py`, module
  `AimlModel`). Its features describe the record before each gap. Its
  predictions are rounded half-to-even and clamped to 21..35. Its fallback
  rounds the mean gap into 25..35. Confidence tiers are 5/3.
- **History statistics and the fertile-window calculator**
  (`backend/app/core/ml_utils.py`, module `MlUtils`).
- **Two language-model services** (`gemini_service.py`, module
  `GeminiService`, and `firebase_ai_service.py`, module `FirebaseAi`). The
  model covers their deterministic logic:
  - the prompt's history block;
  - the removal of markdown code fences from the reply;
  - the mapping of the reply to a status result;
  - the Firebase service's fallback. It averages only gaps within
    21..35 days, in the order given, without sorting.

Shared modules:

- `Common` holds the cycle record and a stable insertion sort by start date,
  proved sorted, a permutation and order-preserving among equal dates. It
  also holds gaps, means, clamps, Python's `round`, weekday and the luteal
  window. The luteal window puts ovulation 14 days before the next period,
  with a fertile window from 5 days before ovulation to 1 day after.
- `Text` holds the Python string operations the services rely on.
- `Features` holds the feature table shared by the two backend copies.
- `Engine` holds the average-based forecast shared by the two backend
  copies.

How the source is represented:

- Dates are day ordinals. A date difference in days is subtraction. Adding
  `timedelta(days = x)` for a positive real `x` adds `x.Floor`.
- Exceptions are `Result` values, so "never raises" is a contract.
- The scaler and the regressor are functions that may fail. Their numbers
  are not interpreted; only the clamping and rounding around them is proved.
- Loading files yields `Stored` values: missing, corrupt or present.
- The network reply, `json.loads`, date formatting, month extraction and the
  current date are parameters.

## Model

| member | source | states |
|---|---|---|
| Common.ConfidenceOf | backend/app/services/gemini_service.py:124 | The reply's own confidence when the key is present, otherwise "medium". |
| Common.LutealWindowShape | backend/app/core/ml_utils.py:169-173 | Ovulation is 14 days before the next period. The window starts 5 days before ovulation and ends 1 day after it, so start < ovulation < end and the window spans 6 days. |
| Common.InsertByStartPermutes | backend/app/services/cycle_predictor.py:81 | Inserting a record into the history adds exactly that record and loses nothing. |
| Common.InsertByStartSorted | backend/app/services/cycle_predictor.py:81 | Inserting into a history ordered by start date keeps it ordered. |
| Common.InsertByStartKeepsOrder | backend/app/services/cycle_predictor.py:81 | The inserted record goes ahead of the records with the same start date (the stability step). |
| Common.SortByStartCorrect | backend/app/services/cycle_predictor.py:81 | `sorted(cycles, key=start_date)` is ordered by start date and is a permutation of its input. Records sharing a start date keep their input order (stability). |
| Common.SortSortedIsIdentity | backend/app/services/cycle_predictor.py:259 | Sorting an already ordered history changes nothing. |
| Common.SortByStartIdempotent | backend/app/services/cycle_predictor.py:264 | Sorting twice is sorting once, so `preprocess_data` re-sorting the pre-sorted history in `predict` sees the same records. |
| Common.MaxStart | backend/app/services/cycle_predictor.py:367-368 | `max(cycles, key=start_date)` is a start date of the history and no record starts later. |
| Common.LastSortedIsLatest | backend/app/services/cycle_predictor.py:269 | The last record of the sorted history starts on the latest date. |
| Common.LastAt | aiml/cycle_prediction_model.py:231-232 | The index found holds a record on the given day and no later record is on that day; -1 means no record is. |
| Common.LastSortedIsLastLatest | aiml/cycle_prediction_model.py:231-232 | The sort is stable, so the last element of the sorted history is the last record, in input order, that starts on the latest date. |
| Common.SortedGapsNonNegative | backend/app/services/cycle_predictor.py:101 | On a sorted history every gap between consecutive starts is at least 0. |
| Common.GapsTelescope | backend/app/services/cycle_predictor.py:356-365 | The gaps add up to the span from the first start date to the last. |
| Common.Min | backend/app/core/ml_utils.py:139 | `min(xs)` is an element of `xs` and no element is smaller. |
| Common.Max | backend/app/core/ml_utils.py:140 | `max(xs)` is an element of `xs` and no element is larger. |
| Common.MeanWithin | backend/app/services/firebase_ai_service.py:236-239 | A mean of values within `[lo, hi]` lies within `[lo, hi]`. |
| Common.MeanBetweenMinAndMax | backend/app/core/ml_utils.py:134-140 | The mean lies between the smallest and the largest observation. |
| Common.Clamp | backend/app/services/cycle_predictor.py:268 | `max(lo, min(hi, x))` is within `[lo, hi]`. It is `x` when `x` is inside, `lo` below and `hi` above. |
| Common.ClampInt | aiml/cycle_prediction_model.py:256 | The same clamp on whole days. |
| Common.RoundHalfEven | aiml/cycle_prediction_model.py:253 | `int(round(x))` is within 0.5 of `x`, and an exact tie goes to the even neighbour. |
| Common.Weekday | aiml/cycle_prediction_model.py:67 | `date.weekday()` is in 0..6. |
| Common.WeekdayStep | aiml/cycle_prediction_model.py:67 | The next day has the next weekday, a week later has the same weekday, and ordinal 1 (0001-01-01) is a Monday. |
| Text.Trim | backend/app/services/firebase_ai_service.py:149 | `strip()` never lengthens its input and leaves nothing to strip at either end. |
| Text.TrimShape | backend/app/services/firebase_ai_service.py:149 | `strip()` returns a contiguous part of its input that neither begins nor ends with whitespace. |
| Text.TrimIdempotent | backend/app/services/gemini_service.py:107-111 | Stripping a stripped string changes nothing. |
| Text.TrimPadded | backend/app/services/gemini_service.py:107 | Stripping whitespace-only padding off both sides of a stripped string gives that string back. |
| Text.SliceBound | backend/app/services/gemini_service.py:109 | A slice bound as Python reads it: kept as is within 0..len, counted from the end when in −len..−1, and cut to 0 or len beyond those. |
| Text.PySlice | backend/app/services/gemini_service.py:109 | Within bounds `s[lo:hi]` is the characters from `lo` to `hi`. A `hi` past the end keeps everything from `lo`. A negative `hi` counts from the end. Crossed bounds give the empty string. The result is never longer than `s`. |
| Text.NatToStringRoundTrip | backend/app/services/firebase_ai_service.py:120-121 | `str(n)` loses nothing: reading its digits back gives `n`. |
| Text.JoinAppend | backend/app/services/gemini_service.py:63 | Each further part adds the separator and that part to `sep.join(parts)`. |
| Text.LastN | backend/app/services/gemini_service.py:45 | `xs[-5:]` holds the last min(5, len) elements in their order. |
| Features.TableOf | backend/app/services/cycle_predictor.py:96-129 | A sorted history of N ≥ 2 records yields exactly N − 2 rows and as many targets; fewer records yield none. |
| Features.FeatureTableMeaning | backend/app/services/cycle_predictor.py:96-129 | Each row's first feature equals its own target. That target is the gap between consecutive sorted start dates and is never negative. The row's period feature is the period length of the earlier record of the pair, defaulting to 5. |
| Features.FeatureTableMeanBounds | backend/app/services/cycle_predictor.py:110 | A row's running average cycle length lies between the smallest and largest gap seen so far. |
| Features.FeatureTablePeriodMean | backend/app/services/cycle_predictor.py:111 | With the period lengths the endpoint accepts (1..14), every running period mean is within 1..14. |
| Features.BuildTable | backend/app/services/cycle_predictor.py:84-129 | The append loop computes exactly the table: running means over everything seen so far, and spreads reported as `np.std` of all observations. |
| Features.PreprocessData | backend/app/services/cycle_predictor.py:64-134 | Fewer than 2 records give "At least 2 cycles are required for prediction". Exactly 2 give "Insufficient data to create features". Otherwise the result is the table of the sorted history with N − 2 > 0 rows. backend/app/services/predict_service.py:54-115 is the same code. |
| MlUtils.CalculateCycleMetrics | backend/app/core/ml_utils.py:98-146 | Fewer than 2 records give the fixed defaults 28, 5, 0, 0, (21,35), (3,7), count 0. Otherwise `cycle_count` is N − 1, the average gap is the mean and lies within the gap range `(min, max)`, and the range starts at 0 or more. Period statistics are over every sorted record but the last, defaulting to 5. A spread is 0 with a single observation. |
| MlUtils.LengthOrDefault | backend/app/core/ml_utils.py:166 | `cycle_length or 28`: a given non-zero length is echoed; an absent length or 0 becomes 28. The result is never 0. |
| MlUtils.PredictFertileWindow | backend/app/core/ml_utils.py:148-181 | Ovulation is 14 days before the next period. The window runs from 5 days before ovulation to 1 day after. The next period is echoed, and the cycle length as `cycle_length or 28`. |
| MlUtils.FertileWindowIgnoresCycleLength | backend/app/core/ml_utils.py:148-181 | Two calls that differ only in the cycle length give the same dates: ovulation at next − 14 and a 6-day window around it with the next period echoed. |
| MlUtils.FertileWindowExample | backend/app/core/ml_utils.py:169-173 | A next period on 2024-03-01 gives ovulation on 2024-02-16 and a window from 2024-02-11 to 2024-02-17. |
| Engine.CycleLengths | backend/app/services/cycle_predictor.py:356-362 | The loop collects exactly the gaps between consecutive sorted records. The same loop is backend/app/services/predict_service.py:234-240. |
| Engine.AverageLength | backend/app/services/cycle_predictor.py:355-365 | The average cycle length is always within 21..45. It is the mean gap of the sorted history when that mean is within 21..45, and 28 with fewer than 2 records. |
| Engine.AverageForecast | backend/app/services/cycle_predictor.py:355-386 | The forecast is the average length after the latest start date, with the luteal window and `model_used` average. Confidence is medium with 2 or more records and low otherwise. The message is present exactly with a single record. |
| Engine.AverageForecastShape | backend/app/services/cycle_predictor.py:355-386 | The average forecast is 21..45 days after the latest start, with the luteal window before it. Confidence is low, and a message is present, exactly when there is a single record. A single record means 28 days. |
| Engine.AverageLengthIsSpan | backend/app/services/cycle_predictor.py:364-365 | The mean gap is the span from the earliest to the latest record divided by N − 1, then clamped, so the input order does not matter. |
| Engine.AverageOfRegularHistory | backend/app/services/cycle_predictor.py:364-368 | A history with records exactly 28 days apart averages to 28 days. |
| Engine.TwoRecordScenario | backend/app/services/cycle_predictor.py:355-386 | Starts on 2023-01-01 and 2023-02-01 give a 31-day cycle, a next period on 2023-03-04, medium confidence and the window 2023-02-13..2023-02-19 with ovulation on 2023-02-18. |
| CyclePredictorService.CalculateConfidence | backend/app/services/cycle_predictor.py:306-313 | High exactly for ≥ 6 records, medium exactly for 3..5, low below 3. |
| CyclePredictorService.ConfidenceMonotone | backend/app/services/cycle_predictor.py:306-313 | More records never lower the confidence. |
| CyclePredictorService.DefaultPrediction | backend/app/services/cycle_predictor.py:330-353 | An empty history gives a 28-day cycle with the next period today + 28 and the luteal window before it. Confidence is low and `model_used` is fallback. There is no last cycle date, and the fallback message is present. Version "fallback", never trained. |
| CyclePredictorService.FallbackFor | backend/app/services/cycle_predictor.py:330-392 | `_get_fallback_prediction`: the default for an empty history and otherwise the average forecast. The version is always "fallback" and there is never a training time. A last cycle date is present exactly when the history is non-empty. |
| CyclePredictorService.VersionOf | backend/app/services/cycle_predictor.py:294 | `metadata.get('version', '1.0.0')`. |
| CyclePredictorService.CyclePredictor.constructor | backend/app/services/cycle_predictor.py:35-62 | With prediction disabled nothing is loaded and the metadata is empty. A successful load installs the model, scaler and metadata. A failed load leaves no model or scaler and the default metadata with version 1.0.0. |
| CyclePredictorService.CyclePredictor.MlEstimate | backend/app/services/cycle_predictor.py:262-268 | An estimate exists exactly when the model and scaler are present, there are at least 3 records, and neither scaling the latest feature row nor predicting from it raises. It is the regressor's output for that scaled row. |
| CyclePredictorService.CyclePredictor.Train | backend/app/services/cycle_predictor.py:136-225 | Fewer than 3 records give "At least 3 cycles are required for training, got N" and change nothing. A failing split changes nothing. The scaler is replaced by a new one before it is fitted, and the forest by a new one before it is fitted. So a step that raises leaves an unfitted scaler or forest, or the fitted scaler, and never touches the metadata. After a successful score the metadata records the version, training time, N − 2 samples and N records. The result is then the scores or the save failure. |
| CyclePredictorService.CyclePredictor.GetFallbackPrediction | backend/app/services/cycle_predictor.py:315-392 | The method computes the 28-day default for an empty history and the average forecast otherwise. |
| CyclePredictorService.CyclePredictor.EstimateNextLength | backend/app/services/cycle_predictor.py:259-268 | The regressor's estimate for the latest feature row, or nothing when a fitted object is missing, the history has only 2 records, or scaling or prediction raises. |
| CyclePredictorService.CyclePredictor.PredictWithModel | backend/app/services/cycle_predictor.py:259-297 | An ML prediction exists exactly when there is an estimate. Its length is the estimate clamped to 21..45, added to the latest start date, with the luteal window, 6/3 confidence, and the stored version and training time. |
| CyclePredictorService.CyclePredictor.Predict | backend/app/services/cycle_predictor.py:227-304 | `predict` never raises. An empty history gives the default. The Gemini result is returned exactly when an API key is set and Gemini succeeds. Otherwise the ML model is used exactly when it yields an estimate (so 2 records give the average), else the average fallback. Every engine forecast is 21..45 days after the latest start, with the luteal window. |
| PredictService.ServiceConfidence | backend/app/services/predict_service.py:208 | High exactly for ≥ 3 records, medium for 1..2, low for none. |
| PredictService.EmptyForecast | backend/app/services/predict_service.py:219-231 | The empty-history offsets give a next period today + 28 with the 14/5/1 luteal window before it. Confidence is low, `model_used` is fallback, there is no last cycle date, and the fallback message is present. |
| PredictService.EmptyForecastAgrees | backend/app/services/predict_service.py:219-231 | Both backend copies give the same empty-history forecast. |
| PredictService.FallbackFor | backend/app/services/predict_service.py:217-261 | `_fallback_prediction`: the empty-history forecast, or the shared average forecast for a non-empty history. A last cycle date is present, and `model_used` is average, exactly when the history is non-empty. |
| PredictService.PredictService.constructor | backend/app/services/predict_service.py:16-43 | Each existing file is loaded in turn. The first that fails to load stops loading and clears the model and the scaler. |
| PredictService.PredictService.MlEstimate | backend/app/services/predict_service.py:175-185 | An estimate exists exactly when a fitted model and a scaler are present, there are at least 3 records, and neither scaling the latest feature row nor predicting from it raises. It is the regressor's output for that scaled row. |
| PredictService.PredictService.Train | backend/app/services/predict_service.py:117-165 | `train` always raises. Fewer than 3 records give the preprocessing errors and change nothing. Otherwise the model becomes an unfitted forest before the undefined `train_test_split` raises. |
| PredictService.PredictService.FallbackPrediction | backend/app/services/predict_service.py:217-261 | The method computes the empty-history forecast or the shared average forecast. |
| PredictService.PredictService.PredictWithModel | backend/app/services/predict_service.py:175-211 | An ML forecast exists exactly when there is an estimate. It is the estimate clamped to 21..45, added to the latest start date, with the luteal window and high confidence (since N ≥ 3). |
| PredictService.PredictService.Predict | backend/app/services/predict_service.py:167-215 | The call raises exactly when the model is an unfitted forest, whose truth test raises. Otherwise a missing model or scaler, or any failure on the ML path (such as 2 records), gives the fallback. The ML forecast is used exactly when there is an estimate. |
| AimlModel.CycleFeatures | aiml/cycle_prediction_model.py:57-69 | `has_cramps`, `has_headache` and `heavy_flow` are the 0/1 indicators of symptom membership and heavy flow. `symptoms_count` is the number of symptoms, the month is in 1..12 and the weekday in 0..6. |
| AimlModel.AimlTableOf | aiml/cycle_prediction_model.py:49-80 | One row and one target per gap. |
| AimlModel.AimlTableChain | aiml/cycle_prediction_model.py:49-68 | Each target is the gap to the next sorted start. The first row's previous length is 28 and each later one equals the previous row's target. |
| AimlModel.ProcessCycles | aiml/cycle_prediction_model.py:38-80 | Fewer than 2 records give "At least 2 cycles are required for training". Otherwise the loop computes the table of the sorted history, with N − 1 rows. |
| AimlModel.CalculateFertileWindow | aiml/cycle_prediction_model.py:279-290 | The 14/5/1 luteal window, whatever cycle length is passed. |
| AimlModel.ConfidenceInterval | aiml/cycle_prediction_model.py:292-298 | High exactly for ≥ 5, medium for 3..4, low below 3. |
| AimlModel.ConfidenceIntervalMonotone | aiml/cycle_prediction_model.py:292-298 | More samples never lower the confidence. |
| AimlModel.FallbackPrediction | aiml/cycle_prediction_model.py:300-330 | Always low confidence, `fallback_used` and no metrics. With ≥ 2 records the length is the mean gap rounded half-to-even and clamped to 25..35. It is 25 when the mean is below 24.5, 35 when it is above 35.5, and the rounded mean when the mean is within 25..35. A single record uses its own `cycle_length`, or 28. The next period is the latest start plus that length, with the luteal window. |
| AimlModel.FallbackRoundsMean | aiml/cycle_prediction_model.py:306-310 | When every gap lies in 25..35, the fallback length is the mean gap rounded half-to-even. |
| AimlModel.LatestFeatures | aiml/cycle_prediction_model.py:230-246 | The features are those of the record on the latest date, and of the last such record in input order when several share that date. The previous cycle length is the last gap of the sorted history, so never negative, or 28 for a single record. |
| AimlModel.LatestFeaturesTakesLastOfTie | aiml/cycle_prediction_model.py:231-240 | Of two records on the same day, the second is used, with a previous cycle length of 0. |
| AimlModel.AimlCyclePredictor.constructor | aiml/cycle_prediction_model.py:85-134 | The scaler and metadata are read only when the model file exists. A missing model file, or any failing load, leaves a new unfitted forest, keeping whatever was loaded before the failure. |
| AimlModel.AimlCyclePredictor.MlEstimate | aiml/cycle_prediction_model.py:230-253 | An estimate exists exactly when model and scaler are fitted and neither scaling the latest record's features nor predicting from them raises. It is the model's output for those scaled features. |
| AimlModel.AimlCyclePredictor.Train | aiml/cycle_prediction_model.py:136-214 | The call never raises. Fewer than 2 records give status error; fewer than 5 rows give insufficient_data with the row count. A failing split changes nothing. The scaler is refitted in place, so a failed refit leaves it unfitted, and a failed test transform keeps the refitted scaler. A failed forest fit keeps the old model, and a failed scoring keeps the refitted one. Neither changes the metadata. After scoring, the metadata records the time, N samples and the four scores. The result is success or the save error. |
| AimlModel.AimlCyclePredictor.PredictNextCycle | aiml/cycle_prediction_model.py:216-277 | Raises exactly on an empty history. The fallback is used exactly when no estimate is available, and then equals `_fallback_prediction`. Otherwise the length is the estimate rounded half-to-even and clamped to 21..35, added to the latest start, with the 5/3 confidence and the stored metrics. |
| FirebaseAi.ModelName | backend/app/services/firebase_ai_service.py:34 | `GEMINI_MODEL_NAME or 'gemini-2.5-flash'`: a configured name wins and an empty one means gemini-2.5-flash. |
| FirebaseAi.ChooseModel | backend/app/services/firebase_ai_service.py:23-48 | No model without an API key. With a key, the configured name (default gemini-2.5-flash) is chosen when it can be created, and otherwise gemini-2.5-flash when that can be created. There is no model exactly when both fail. A chosen model can always be created. |
| FirebaseAi.InRangeGaps | backend/app/services/firebase_ai_service.py:236-237 | Only gaps within 21..35 days are kept. |
| FirebaseAi.InRangeGapsCounts | backend/app/services/firebase_ai_service.py:236-237 | The filter keeps every plausible gap as often as it occurs, and no other. |
| FirebaseAi.AverageCycleLength | backend/app/services/firebase_ai_service.py:220-239 | The average cycle length is always within 21..35. It is 28 for fewer than 2 records or when no gap is within 21..35. |
| FirebaseAi.AverageDependsOnOrder | backend/app/services/firebase_ai_service.py:225-235 | The history is not sorted: two records 30 days apart give 30 in date order and 28 reversed. |
| FirebaseAi.CalculateAverageCycleLength | backend/app/services/firebase_ai_service.py:220-239 | The append loop computes the mean of the in-range gaps in input order. The result is 28 for fewer than 2 records or no in-range gap, and within 21..35 always. |
| FirebaseAi.FallbackFor | backend/app/services/firebase_ai_service.py:163-213 | An empty history gives no dates, low confidence and the no-history note. A non-empty history gets the average cycle length and a next period 21..35 days after its last record as given. The luteal window comes before it, with medium confidence. |
| FirebaseAi.GetFallbackPrediction | backend/app/services/firebase_ai_service.py:163-218 | An empty history gives no dates and low confidence; otherwise dates and medium confidence. |
| FirebaseAi.ParseGeminiResponse | backend/app/services/firebase_ai_service.py:145-161 | Parses the reply after strip, removal of a leading "```json" and strip, then removal of a trailing "```" and strip. A parse failure becomes "Invalid response format from Gemini AI". |
| FirebaseAi.CleanResponse | backend/app/services/firebase_ai_service.py:145-153 | The cleaned reply is stripped and never longer than the reply. A reply without a leading "```json" or a trailing "```" is only stripped. |
| FirebaseAi.JsonFenceRoundTrip | backend/app/services/firebase_ai_service.py:149-153 | A body in a ```json fence, with any surrounding whitespace, comes back unchanged. |
| FirebaseAi.UnclosedFenceKept | backend/app/services/firebase_ai_service.py:150-153 | Without a closing fence the body is kept whole. |
| FirebaseAi.PlainFenceKeepsOpening | backend/app/services/firebase_ai_service.py:150-153 | A bare ``` opening fence is not removed, so the parser still sees it. |
| FirebaseAi.PeriodText | backend/app/services/firebase_ai_service.py:121 | "?" exactly when the period length is absent. |
| FirebaseAi.PeriodTextRoundTrip | backend/app/services/firebase_ai_service.py:121 | A recorded period length can be read back from the prompt line. |
| FirebaseAi.PromptLineShape | backend/app/services/firebase_ai_service.py:119-124 | Each prompt line starts with its number, the start date and the period length. |
| FirebaseAi.FormatCycleHistory | backend/app/services/firebase_ai_service.py:117-124 | An empty history gives an empty block, and a single record a single line numbered 1. |
| FirebaseAi.FormatCycleHistoryLines | backend/app/services/firebase_ai_service.py:117-124 | For N records the block joins min(N, 5) lines with newlines; line i is numbered i + 1 and shows record N - min(N, 5) + i. |
| FirebaseAi.FormatCycleHistoryDropsOlder | backend/app/services/firebase_ai_service.py:123 | Records before the last five do not change the block. |
| FirebaseAi.PredictNextCycle | backend/app/services/firebase_ai_service.py:50-115 | Any failure lands on the fallback. The parsed reply is returned exactly when the history is non-empty, a model exists, the call on the formatted history succeeds and the cleaned reply parses to a JSON object. The confidence in its metadata defaults to "medium". |
| GeminiService.EndSegment | backend/app/services/gemini_service.py:47-53 | ", Ended …" appears exactly when the end date is truthy and not 'N/A'. |
| GeminiService.PeriodSegment | backend/app/services/gemini_service.py:55-56 | The period segment appears exactly when the key is present, with its value. |
| GeminiService.SymptomSegment | backend/app/services/gemini_service.py:58-59 | The symptom segment appears exactly when the list is non-empty. |
| GeminiService.CycleInfo | backend/app/services/gemini_service.py:46-59 | Every line starts with its number and start date, and is nothing more when no optional field is present. |
| GeminiService.FormattedLines | backend/app/services/gemini_service.py:45-61 | One line per listed record. |
| GeminiService.FormattedLinesAt | backend/app/services/gemini_service.py:45-61 | Line i describes record i under number i + 1. |
| GeminiService.FormatCycle | backend/app/services/gemini_service.py:46-61 | The loop body builds the line segment by segment. |
| GeminiService.FormatCycleData | backend/app/services/gemini_service.py:39-63 | An empty history gives exactly "No cycle history available.". Otherwise the lines of the last five records are joined by newlines. |
| GeminiService.FormattedLinesShape | backend/app/services/gemini_service.py:45-63 | There are min(N, 5) lines, and line i starts with number i + 1 and the start date of the matching recent record. |
| GeminiService.ExtractJsonText | backend/app/services/gemini_service.py:107-111 | Fence removal as written, and the result is stripped. |
| GeminiService.Unfence | backend/app/services/gemini_service.py:107-111 | Text without a leading fence is kept. Fenced text comes back stripped. The result is never longer than the input. |
| GeminiService.StripFences | backend/app/services/gemini_service.py:107-111 | The de-fenced reply is stripped and never longer than the reply. A reply without a leading fence is only stripped. |
| GeminiService.JsonFenceRoundTrip | backend/app/services/gemini_service.py:107-109 | A body in a ```json fence, with surrounding whitespace, comes back unchanged. |
| GeminiService.PlainFenceRoundTrip | backend/app/services/gemini_service.py:110-111 | The same for a bare ``` fence around a body not starting with "json". |
| GeminiService.UnfencedKept | backend/app/services/gemini_service.py:107-111 | A reply without a leading fence is only stripped. |
| GeminiService.UnclosedFenceLosesTail | backend/app/services/gemini_service.py:108-109 | An opening ```json fence with no closing one still loses the last three characters of the body. |
| GeminiService.MapReply | backend/app/services/gemini_service.py:113-136 | Success exactly when the reply parses to an object with the four required keys. Success copies the four dates and takes the reply's confidence, or "medium" without one. It uses `model_used` gemini_ai, and the start of the last listed record as last cycle date, or none for an empty history. Invalid JSON or a missing key gives "Invalid response format from Gemini: " with the reply text. A reply that is not a JSON object gives the type error. |
| GeminiService.PredictNextCycle | backend/app/services/gemini_service.py:65-144 | The call always returns a status. Without a model it is an error with `model_used` none. A failing call is an error with its message and gemini_ai. Otherwise the result is the mapping of the de-fenced reply. |

## Left out

- scikit-learn: `RandomForestRegressor`, `StandardScaler` and `train_test_split` are reduced to parameters, like the scores, MAE/R² and feature importances. The regressor's output is an uninterpreted real; only the clamp and the rounding around it are modelled.
- `np.std` is kept symbolic (`StdOf(observations)`), because it takes a floating-point square root.
- Python floats are modelled as exact reals. Float rounding in means is not modelled.
- Persistence: joblib and JSON files, `save_model_artifacts`, `load_model_artifacts`, `_save_model` and `_ensure_model_dirs`. A load is a `Stored` or `Result` value and a save is an optional error; nothing is written.
- `AimlModel.AimlCyclePredictor.Train`: when the forest's `fit` raises, the model is taken to be left as it was. scikit-learn may leave a partly fitted forest behind, and the model does not say what that forest then predicts.
- `CyclePredictorService.CyclePredictor.Train`: `feature_importances` and `model_type` in the metadata and the training metrics dictionary are not kept, because they come from scikit-learn.
- Network, async and model initialisation: the Gemini calls are a `Result<string>` parameter, or in the Firebase service a function from the history block to a `Result<string>`. Client initialisation is a flag, except the Firebase service's model-name choice, which is `ChooseModel`.
- Firestore logging (`_log_prediction`) and all logging are left out; they do not affect results.
- Date parsing and formatting (`strptime`, `strftime`, `isoformat`) and month extraction are parameters. The dictionaries' date strings are represented by the dates themselves.
- The prompt templates around the history block, and the `timestamp` and `model` metadata keys, are left out; they hold text and the current time.
- The current date (`date.today()`, `datetime.now()`) is a parameter.
- `CycleFeatures`: a key that is present with the value None is treated like an absent key (`Option`). The same holds for `period_length` and `cycle_length` elsewhere.
- `GeminiService.MapReply`: `NotAnObject` stands for the text of the `TypeError` raised when the reply is not a JSON object.
- `GeminiService.PredictNextCycle`: the exception text of a failed network call is taken as given.
- `PredictService.PredictService.PredictWithModel`: the `X.size == 0` branch is unreachable, because `preprocess_data` raises instead of returning an empty table.
- `DataProcessor` is a plain function (`ProcessCycles`): its only state is the constant column list.
- The HTTP endpoints, the Firebase and SQL services, the scripts and the configuration are not part of this model. The constants used from the configuration are written in: three records for training and the 1..14-day period length accepted by the endpoint.
- Two points where the model follows the code as it runs:
  - With two records, the backend's average path gives medium confidence.
  - `PredictService.train` always raises, because `train_test_split` is used there without being imported.
