# Forecasting service: a Dafny model

This project models the core of the Python forecasting service of an IoT
sensor system that reports water quality (TDS), temperature and moisture.
The service (`ai/model.py`, `ai/app.py`) wraps an LSTM forecaster and exposes
it over HTTP. The model covers three parts of it:

* **Training windows** (`Windows`, `Readings`). `_prepare_training_data`
  turns a list of feature rows into aligned input and target windows.
  The model proves how many windows there are, how long they are, and that
  each target window continues its input window in the original row order.
* **The forecaster object** (`Forecaster.LSTMForecaster`). This is a class
  with the fields `scaler`, `model` and `isDemoMode`, changed by `Load` and
  `Train`. Its invariant `Valid()` says two things: a model never exists
  without a fitted scaler, and the forecaster leaves demo mode only when it
  holds a model. `Predict` has these parts:
  * its guards;
  * converting the request items to a float matrix;
  * the demo path, with noise within the stated intervals and values clamped
    to the physical ranges;
  * the model path, which uses the last `sequence_length` rows, checks the
    network output's shape, and clamps and rounds the anomaly score into
    [0, 1].
* **The Flask service** (`Service`). This covers `_to_bool`, the startup
  rule that a true demo flag overrides `load`, the `/health` and
  `/model/info` reports, and the `/predict` handler. The handler's parts are
  payload and item validation, the call to the forecaster, and the mapping
  of `ValueError` to 400, other exceptions to 500 and success to 200.

Rows of the feature matrix are `Reading` triples: the service always builds
its configuration with `features=3`. Values are mathematical reals, not
floats. Comparisons, clamps, the demo noise, the subtraction and the
division by 1000 behind the anomaly score are exact real arithmetic.
`round(x, 4)` is applied to the exact real value, not to a float. Some code is not visible here: the neural
network, the fitted scaler, numpy's string-to-float conversion and its
vector norm. These are opaque functions passed in as values (`Network`,
`Scaler`, `NumPy`). `random.uniform(lo, hi)` is a nondeterministic choice in
`[lo, hi]`. A file that may or may not exist is an `Option` of its contents.

## Model

| member | source | states |
|---|---|---|
| `Text.NatToString` | ai/model.py:151 | an integer in an f-string renders as a non-empty run of decimal digits with no leading zero |
| `Text.ParseNatToString` | ai/model.py:151 | reading the rendered digits back gives the number again |
| `Text.Strip` | ai/app.py:27 | `str.strip()` never lengthens a string; the result is empty exactly when the string is all whitespace, and otherwise begins and ends with a non-space |
| `Text.StripPadded` | ai/app.py:27 | stripping a word that starts and ends with a non-space removes exactly the whitespace padding around it |
| `Text.StripSplits` | ai/app.py:27 | every string is its stripped form with whitespace on both sides |
| `Text.Lower` | ai/app.py:27 | ASCII-only `str.lower()`: each ASCII capital becomes its small letter, every other character stays, and no ASCII capital remains |
| `Text.LowerIdempotent` | ai/app.py:27 | lowering an already lowered string changes nothing |
| `JsonValues.Contains` | ai/app.py:104 | `key in item` is key membership for an object, element membership for a list, and for a string true exactly when the key occurs at some position; numbers, booleans and null raise |
| `JsonValues.IsInfixIff` | ai/app.py:104 | the recursive substring search succeeds exactly when the key occurs at some position of the string |
| `Numerics.Clamp` | ai/model.py:128-130 | `max(lo, min(hi, x))` lies in [lo, hi], is `x` when `x` is in range, and is the nearer bound otherwise |
| `Numerics.ClampMonotone` | ai/model.py:128-130 | clamping preserves order |
| `Numerics.ClampNonExpansive` | ai/model.py:128-130 | clamping never moves two values further apart |
| `Numerics.RoundHalfEven` | ai/model.py:175 | the result is an integer within one half of its argument, and the even one when the argument lies exactly halfway between two integers |
| `Numerics.Round4` | ai/model.py:175 | `round(x, 4)` is a number with four decimal places within 0.00005 of `x`, with an even last digit when `x` lies exactly halfway; it keeps a value of [0, 1] in [0, 1] |
| `Numerics.Round4OfTicks` | ai/model.py:175 | a number that already has four decimal places rounds to itself |
| `Numerics.Round4Idempotent` | ai/model.py:175 | rounding to four places twice is the same as rounding once |
| `Numerics.RoundedStaysInRange` | ai/model.py:175 | rounding a value between 0 and a whole number stays between them |
| `Readings.Flatten` | ai/model.py:74 | `reshape(-1)` of `n` rows has `3n` values |
| `Readings.Unflatten` | ai/model.py:157 | `reshape(steps, 3)` of `3n` values has `n` rows |
| `Readings.FlattenAt` | ai/model.py:74 | the flattening is row-major: value `3k + c` is feature `c` of row `k` |
| `Readings.UnflattenAt` | ai/model.py:157 | row `k` of the reshape holds values `3k`, `3k+1`, `3k+2` |
| `Readings.UnflattenFlatten` | ai/model.py:74 | the two reshapes are inverse: rows survive a flatten and reshape |
| `Readings.FlattenUnflatten` | ai/model.py:157 | the two reshapes are inverse: a vector of `3n` values survives a reshape and flatten |
| `Windows.SlidingWindows` | ai/model.py:66-78 | the loop yields `len - seq - horizon + 1` input windows and as many target windows (none when fewer rows); input window `i` is rows `i .. i+seq-1`, target window `i` is rows `i+seq .. i+seq+horizon-1` flattened |
| `Windows.WindowCountBounds` | ai/model.py:62-72 | past the size guard at least two windows fit, and the last one ends at the last row |
| `Windows.TargetWindowLength` | ai/model.py:74 | a target window has `horizon * 3` values |
| `Windows.TargetWindowAt` | ai/model.py:74 | value `3k + c` of target window `i` is feature `c` of row `i + seq + k` |
| `Windows.WindowsAreContiguous` | ai/model.py:73-74 | a target window, read back as rows, immediately follows its input window: together they are rows `i .. i+seq+horizon-1` in order |
| `Windows.ConsecutiveInputWindows` | ai/model.py:72-73 | input window `i+1` is input window `i` slid forward by one row |
| `Forecaster.LookupRow` | ai/model.py:143 | `row[key]` for the three keys succeeds exactly on an object that holds them; otherwise it raises an exception other than `ValueError` |
| `Forecaster.LookupRows` | ai/model.py:142-143 | the comprehension succeeds exactly when every item can be looked up, keeps the order, and its failures are never `ValueError` |
| `Forecaster.ToFloat` | ai/model.py:142-145 | a number converts to itself and a boolean to 1.0 or 0.0; a string converts iff numpy parses it; a failure is `ValueError` exactly for an unparsable string or a nested list; null and objects raise another exception |
| `Forecaster.ConvertRows` | ai/model.py:142-145 | the float conversion succeeds exactly when every row converts, keeping the order |
| `Forecaster.ToPoints` | ai/model.py:142-145 | the matrix has one reading per item, in order, exactly when every item converts; an item that cannot be looked up makes it raise a non-`ValueError` exception even if other items hold unconvertible values |
| `Forecaster.LastRows` | ai/model.py:153 | `points[-k:]` is the last `k` points, and the whole sequence when `k` is 0 |
| `Forecaster.AnomalyScore` | ai/model.py:171-175 | the reported score is a number with four decimal places in [0, 1]: exactly 0 for a raw score at or below 0, exactly 1 at or above 1, and within 0.00005 of an in-range raw score |
| `Forecaster.ModelForecast` | ai/model.py:150-177 | too few rows raise `ValueError("Sequence requires at least N rows.")`; the result is a success exactly when there are enough rows, `forecast_steps > 0` and the network output has `3 * forecast_steps` values; a success has `forecast_steps` predictions, mode "model" and an anomaly score in [0, 1]; with `forecast_steps` 0 it always raises `ValueError` (400): either the reshape fails, or the scaler's `inverse_transform` refuses the empty matrix before `y_pred[0]` is read |
| `Forecaster.ModelForecastUsesLastRows` | ai/model.py:153-171 | only the last `sequence_length` rows matter: two sequences ending in the same window get the same result |
| `Forecaster.ModelPredictionsFromNetwork` | ai/model.py:156-167 | prediction `k` is the inverse-scaled `k`-th triple of the network output |
| `Forecaster.DemoStepInPhysicalRange` | ai/model.py:128-130 | every demo step has tds in [0, 5000], temperature in [-20, 60], moisture in [0, 1000] |
| `Forecaster.DemoStepNearLatest` | ai/model.py:128-130 | from an in-range latest reading a demo step moves tds by at most 30, temperature by 1.2, moisture by 20 |
| `Forecaster.LSTMForecaster.constructor` | ai/model.py:39-43 | a new forecaster has an unfitted scaler, no model, and is in demo mode |
| `Forecaster.LSTMForecaster.PrepareTrainingData` | ai/model.py:60-78 | it raises `ValueError` exactly when `len(data) <= seq + horizon`, leaving the scaler as it was; otherwise it fits the scaler and returns the aligned windows of the scaled rows |
| `Forecaster.LSTMForecaster.Train` | ai/model.py:80-103 | too few rows raise `ValueError` and change nothing; otherwise the fitted scaler and trained network are installed and demo mode is left; the report holds the last epoch's loss and error |
| `Forecaster.LSTMForecaster.Load` | ai/model.py:105-118 | it returns true, installs model and scaler, and leaves demo mode iff both files exist; otherwise it drops the model, enters demo mode and returns false |
| `Forecaster.LSTMForecaster.DemoPrediction` | ai/model.py:120-135 | there are exactly `forecast_steps` predictions, each the latest point moved within the noise bounds and clamped to the physical ranges; the anomaly score is in [0.05, 0.35]; the mode is "demo" |
| `Forecaster.LSTMForecaster.Predict` | ai/model.py:137-177 | an empty sequence raises `ValueError` before any mode check; conversion errors propagate; the demo path is taken iff `model is None or is_demo_mode`; otherwise the result is the model path's |
| `Service.ToBool` | ai/app.py:25-27 | the four words themselves parse as true, and an empty or all-whitespace value as false |
| `Service.CanonicalWord` | ai/app.py:25-27 | a word of small letters and digits is its own stripped, lowered form |
| `Service.TruthyWordsAreCanonical` | ai/app.py:25-27 | each of "1", "true", "yes" and "on" is unchanged by `strip().lower()` |
| `Service.ToBoolOfPadded` | ai/app.py:25-27 | "1", "true", "yes" or "on", in any letter case, surrounded by any whitespace, parse as true |
| `Service.ToBoolAcceptedShape` | ai/app.py:25-27 | conversely, every string that parses as true is such a padded word |
| `Service.DemoFlag` | ai/app.py:44 | a set `AI_DEMO_MODE` is used as it is; when it is unset, the default parses as true |
| `Service.CreateApp` | ai/app.py:42-47 | after startup the model and scaler are the saved ones if both files exist, otherwise there is no model and the scaler is unfitted; demo mode is on iff the flag parses true or nothing was loaded; with the flag unset demo mode is on whatever `load` returned |
| `Service.Health` | ai/app.py:66-77 | `/health` reports mode "demo" iff the forecaster is in demo mode |
| `Service.ModelInfo` | ai/app.py:79-91 | `/model/info` reports `loaded` iff a model is held, and mode "demo" iff in demo mode |
| `Service.ReportedModeMatchesPredictPath` | ai/app.py:73 | for a forecaster in its invariant, the reported mode is the path `predict` takes, and "model" implies `loaded` |
| `Service.Payload` | ai/app.py:97 | `get_json(silent=True) or {}` is the decoded body when that is truthy, and the empty object for a missing, non-JSON or falsy body |
| `Service.HasRequiredKeys` | ai/app.py:104 | the key check passes iff all three keys are `in` the item, and raises iff the item is a number, boolean or null |
| `Service.CheckItems` | ai/app.py:103-105 | the item loop passes iff the key check passes for every item; a failing item gives 400 or, when `in` raises, 500 |
| `Service.FirstFailingItemDecides` | ai/app.py:103-105 | items are checked in order and the first failing item decides the answer |
| `Service.ValidatePredictRequest` | ai/app.py:96-105 | as written: the request passes iff the payload is an object whose `sequence` is a non-empty list of items that pass the key check, and then the items are that list; a non-object payload gives 500; a missing, non-list or empty `sequence` gives 400 "`sequence` must be a non-empty list."; otherwise the first failing item's answer (`CheckItems`) is returned |
| `Service.CheckItemsIntended` | ai/app.py:103-105 | the intended item loop passes iff every item is an object holding tds, temperature and moisture |
| `Service.ValidatePredictRequestIntended` | ai/app.py:97-105 | intended: the request passes iff `sequence` is a non-empty list of objects holding tds, temperature and moisture, and then the items are that list; a missing, non-list or empty `sequence` (including a non-object body) gives 400 "`sequence` must be a non-empty list."; a bad item gives 400 "Each item must include tds/temperature/moisture." |
| `Service.IntendedValidationMakesLookupsSucceed` | ai/app.py:103-105 | items that pass the intended validation can always be looked up by the forecaster |
| `Service.ObjectItemChecksAgree` | ai/app.py:104 | for an object item the key check as written is the intended check |
| `Service.ValidatorsAgreeOnObjects` | ai/app.py:97-105 | when the body and every item are objects, the handler as written and the intended one give the same answer |
| `Service.CheckItemsAgree` | ai/app.py:103-105 | over object items both item loops pass together and reject with the same 400 |
| `Service.WellFormedRequestAccepted` | ai/app.py:97-107 | an object body whose `sequence` is a non-empty list of objects holding the three keys, whatever other keys it has, passes both validations and hands its items to the forecaster unchanged |
| `Service.NumberItemGetsServerError` | ai/app.py:103-114 | as written, `{"sequence": [1]}` gets 500 "Prediction failed."; the intended handler answers 400 |
| `Service.ArrayBodyGetsServerError` | ai/app.py:97-114 | as written, a body `[1]` gets 500; the intended handler answers 400 |
| `Service.StringItemPassesCheck` | ai/app.py:103-105 | as written, a string item containing the three key names passes the check, and the forecaster's lookup then raises a non-`ValueError` |
| `Service.RespondToPrediction` | ai/app.py:107-114 | 200 iff the forecaster succeeded, with `success: true` merged with every result field; 400 with the message iff it raised `ValueError`; 500 with "Prediction failed." iff it raised anything else |
| `Service.ReadingsRoundTrip` | ai/app.py:108 | the JSON predictions read back as the same readings |
| `Service.SuccessBodyCarriesForecast` | ai/app.py:107-108 | a 200 body carries the whole forecast: it can be read back exactly |
| `Service.PredictRoute` | ai/app.py:93-114 | a rejected request is answered 400 and the forecaster is not called (no outcome); otherwise the answer is the status mapping of what `predict` returns in the current state |
| `Service.DemoModeAnswersOk` | ai/app.py:107-108 | a service in demo mode answers every request whose items convert with 200 and mode "demo" |

## Left out

- The Keras network: its build, fit and inference (ai/model.py:45-58, 85-92, 156) are an opaque `Network`. The network `train` installs and its per-epoch history are inputs of `Train`.
- `MinMaxScaler` fit, transform and inverse (ai/model.py:41, 65, 154, 158) are an opaque per-row `Scaler`. The scaler fitted on the training data is an input of `PrepareTrainingData`.
- Files and joblib persistence: `load_model`, `joblib.load` and saving in `train` (ai/model.py:94-96, 107-112) are not modelled. A file is an `Option` of its contents.
- Forecaster.LSTMForecaster.Train: exceptions raised by fitting or saving after `self.model` is assigned are not modelled.
- Forecaster.LSTMForecaster.Load: exceptions from reading a corrupt model or scaler file are not modelled.
- Forecaster.ModelForecast: the message for `forecast_steps` 0 is the one scikit-learn's input check gives when `inverse_transform` receives a matrix with no rows. scikit-learn is not part of this model, so only the exception class (`ValueError`, hence 400) follows from the cited lines.
- numpy's Euclidean norm and its string-to-float conversion are opaque functions (`NumPy`), because their numerics are floating point.
- Forecaster.ToPoints: numpy's choice of exception when several values fail to convert is taken to be the first failing value in row order. A value that is itself an array is always taken to raise `ValueError`, although numpy builds a 3-D array from equal-length arrays. The text of numpy's messages is approximated; Python's `repr` quoting of the offending string is not modelled.
- Forecaster.ToPoints: a JSON `null` value is converted by numpy to NaN, not rejected. The model raises a non-`ValueError` for it, so `/predict` answers 500 "Prediction failed.". The source instead goes on with NaN. In demo mode `min(5000, nan)` keeps 5000, so such a request is answered 200, with the field clamped to its upper bound (5000, 60 or 1000). On the model path NaN flows into the predictions and the anomaly score, also with 200.
- Forecaster.ToFloat: JSON `null` raises a non-`ValueError` in the model, where numpy gives NaN. An integer too large for a float converts exactly, where numpy raises `OverflowError`. See the two `Forecaster.ToPoints` lines for the statuses that follow.
- Forecaster.ConvertRows: inherits the `null` and overflow gaps of `Forecaster.ToFloat`: a row holding `null` fails, and a row holding a huge integer converts.
- Forecaster.ToPoints: an integer literal too large for a float makes numpy raise `OverflowError`, so the source answers 500. The model converts every JSON number exactly and succeeds.
- Text.Lower: only ASCII capitals are lowered, and each character maps to one character. Python's `str.lower()` also lowers other letters, and can lengthen a string (`'İ'.lower()` has two characters). `_to_bool` gives the same answer either way. No non-ASCII character lowers to a string made only of the characters of "1", "true", "yes" and "on", so such a character makes the value false under both definitions.
- Floating point: NaN, infinities and float rounding are not modelled. Values are reals, and `float(...)` casts are the identity.
- `round(x, 4)` is round-half-to-even applied to the exact real value.
- Configuration: the feature count is fixed at 3, as the service always passes. `sequence_length` and `forecast_steps` are non-negative. Negative values and `int()` failures while reading the environment are not modelled.
- Flask routing, `jsonify`, logging, `datetime`, the `/` root endpoint, reading environment variables and server startup (ai/app.py:18-22, 30-41, 55-64, 119-123) are framework glue. The demo flag's environment value and the request body are inputs.
- ai/train.py (reading measurement files, synthetic data, the training script) is not part of this model.
- Service.PredictRoute: uses the intended validation described under Findings. The handler as written is modelled by `Service.ValidatePredictRequest`.

## Findings

| source | as written | input that shows it | evidently intended | confidence | as-written member | corrected member |
|---|---|---|---|---|---|---|
| ai/app.py:97-105 | The handler assumes the payload and each item are JSON objects. `payload.get` raises on a non-object body. `key in item` raises on a number, and is a substring test on a string. Both exceptions are caught as 500 "Prediction failed." | `{"sequence": [1]}` and the body `[1]` get 500. `{"sequence": ["tds temperature moisture"]}` passes validation, then fails with 500 inside `predict` | a 400 with the validation message for any malformed payload or item | medium, not executed | `Service.NumberItemGetsServerError` | `Service.ValidatePredictRequestIntended` |
