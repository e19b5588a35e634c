/**
 * The LSTM forecaster: its mutable state (`scaler`, `model`,
 * `is_demo_mode`), window preparation for training, loading saved
 * artifacts, and prediction with its guards, its demo fallback and its
 * clamped anomaly score.
 *
 * The neural network, the fitted min-max scaler and numpy's string parsing
 * and vector norm are libraries whose code is not part of this model; they
 * appear as opaque functions (`Network`, `Scaler`, `NumPy`).
 * `random.uniform` is a nondeterministic choice within its interval.
 */
module Forecaster {
  import opened Results
  import opened JsonValues
  import opened Readings
  import opened Numerics
  import Text
  import Windows

  /** Runtime parameters of the forecaster; the feature count is always 3. */
  datatype Config = Config(modelPath: string, scalerPath: string, sequenceLength: nat, forecastSteps: nat)

  /** A fitted min-max scaler: its per-row `transform` and `inverse_transform`. */
  datatype Scaler = Scaler(transform: Reading -> Reading, inverse: Reading -> Reading)

  /** A trained network: maps one input window to its flat output vector. */
  datatype Network = Network(forward: seq<Reading> -> seq<real>)

  /** numpy's conversion of a string to float and its Euclidean norm of a row. */
  datatype NumPy = NumPy(parseFloat: string -> Option<real>, norm: Reading -> real)

  datatype Mode = Demo | Model

  /** The dictionary `predict` returns: predictions, anomaly score and mode. */
  datatype Forecast = Forecast(predictions: seq<Reading>, anomalyScore: real, mode: Mode)

  /** A raised exception: `ValueError` with its message, or any other class. */
  datatype PyError = ValueError(message: string) | OtherError(kind: string)

  /** The aligned input and target windows `_prepare_training_data` returns. */
  datatype TrainingSet = TrainingSet(inputs: seq<seq<Reading>>, targets: seq<seq<real>>)

  /** Loss and mean absolute error recorded by one training epoch. */
  datatype EpochMetrics = EpochMetrics(loss: real, mae: real)

  /** The summary `train` returns. */
  datatype TrainReport = TrainReport(epochs: int, finalLoss: real, finalMae: real)

  const EmptySequenceMessage := "Sequence cannot be empty."
  const InsufficientRowsMessage := "Insufficient rows for training windows."
  /** The input check of the scaler's `inverse_transform`, which refuses a matrix without rows. */
  const EmptyInverseMessage := "Found array with 0 sample(s) (shape=(0, 3)) while a minimum of 1 is required by MinMaxScaler."

  function TooShortMessage(n: nat): string {
    "Sequence requires at least " + Text.NatToString(n) + " rows."
  }

  /** numpy's message when a flat output cannot be reshaped to `(steps, 3)`. */
  function ReshapeMessage(size: nat, steps: nat): string {
    "cannot reshape array of size " + Text.NatToString(size) + " into shape ("
      + Text.NatToString(steps) + ",3)"
  }

  // ---------------------------------------------------------------------
  // From request items to a float matrix
  // ---------------------------------------------------------------------

  /** The three looked-up values of one item, before conversion to float. */
  datatype RawRow = RawRow(tds: Json, temperature: Json, moisture: Json)

  /** `row[key]`: a dictionary lookup; anything but an object raises `TypeError`. */
  function Lookup(item: Json, key: string): Result<Json, PyError> {
    match item
    case JObj(fields) => if key in fields then Success(fields[key]) else Failure(OtherError("KeyError"))
    case _ => Failure(OtherError("TypeError"))
  }

  /** An object holding the three keys of a reading. */
  predicate IsReadingObject(item: Json) {
    item.JObj? && "tds" in item.fields && "temperature" in item.fields && "moisture" in item.fields
  }

  /** `[row["tds"], row["temperature"], row["moisture"]]`, evaluated left to right. */
  function LookupRow(item: Json): (r: Result<RawRow, PyError>)
    ensures r.Success? <==> IsReadingObject(item)
    ensures r.Failure? ==> r.error.OtherError?
  {
    match Lookup(item, "tds")
    case Failure(e) => Failure(e)
    case Success(t) =>
      match Lookup(item, "temperature")
      case Failure(e) => Failure(e)
      case Success(c) =>
        match Lookup(item, "moisture")
        case Failure(e) => Failure(e)
        case Success(m) => Success(RawRow(t, c, m))
  }

  /** The list comprehension over all items; the first failing item raises. */
  function LookupRows(items: seq<Json>): (r: Result<seq<RawRow>, PyError>)
    ensures r.Success? <==> forall i :: 0 <= i < |items| ==> LookupRow(items[i]).Success?
    ensures r.Success? ==> (|r.value| == |items|
      && forall i :: 0 <= i < |items| ==> r.value[i] == LookupRow(items[i]).value)
    ensures r.Failure? ==> r.error.OtherError?
  {
    if items == [] then Success([])
    else
      match LookupRow(items[0])
      case Failure(e) => Failure(e)
      case Success(row) =>
        match LookupRows(items[1..])
        case Failure(e) => Failure(e)
        case Success(rows) => Success([row] + rows)
  }

  /** `float(v)` as numpy applies it while building a float array. */
  function ToFloat(v: Json, np: NumPy): (r: Result<real, PyError>)
    ensures r.Success? <==> (v.JNum? || v.JBool? || (v.JStr? && np.parseFloat(v.s).Some?))
    ensures v.JNum? ==> r.value == v.n
    ensures v.JBool? ==> r.value == (if v.b then 1.0 else 0.0)
    ensures r.Failure? ==> (r.error.ValueError? <==> (v.JStr? || v.JArr?))
  {
    match v
    case JNum(n) => Success(n)
    case JBool(b) => Success(if b then 1.0 else 0.0)
    case JStr(s) =>
      (match np.parseFloat(s)
       case Some(x) => Success(x)
       case None => Failure(ValueError("could not convert string to float: '" + s + "'")))
    case JArr(_) => Failure(ValueError("setting an array element with a sequence."))
    case _ => Failure(OtherError("TypeError"))
  }

  function ConvertRow(raw: RawRow, np: NumPy): Result<Reading, PyError> {
    match ToFloat(raw.tds, np)
    case Failure(e) => Failure(e)
    case Success(t) =>
      match ToFloat(raw.temperature, np)
      case Failure(e) => Failure(e)
      case Success(c) =>
        match ToFloat(raw.moisture, np)
        case Failure(e) => Failure(e)
        case Success(m) => Success(Reading(t, c, m))
  }

  function ConvertRows(raws: seq<RawRow>, np: NumPy): (r: Result<seq<Reading>, PyError>)
    ensures r.Success? <==> forall i :: 0 <= i < |raws| ==> ConvertRow(raws[i], np).Success?
    ensures r.Success? ==> (|r.value| == |raws|
      && forall i :: 0 <= i < |raws| ==> r.value[i] == ConvertRow(raws[i], np).value)
  {
    if raws == [] then Success([])
    else
      match ConvertRow(raws[0], np)
      case Failure(e) => Failure(e)
      case Success(row) =>
        match ConvertRows(raws[1..], np)
        case Failure(e) => Failure(e)
        case Success(rows) => Success([row] + rows)
  }

  /** One item as a reading: looked up, then converted. */
  function PointOf(item: Json, np: NumPy): Result<Reading, PyError> {
    match LookupRow(item)
    case Failure(e) => Failure(e)
    case Success(raw) => ConvertRow(raw, np)
  }

  /**
   * `np.array([[row["tds"], row["temperature"], row["moisture"]] for row in sequence], dtype=float)`:
   * every item is looked up first, then every value is converted.
   */
  function ToPoints(sequence: seq<Json>, np: NumPy): (r: Result<seq<Reading>, PyError>)
    ensures r.Success? <==> forall i :: 0 <= i < |sequence| ==> PointOf(sequence[i], np).Success?
    ensures r.Success? ==> (|r.value| == |sequence|
      && forall i :: 0 <= i < |sequence| ==> r.value[i] == PointOf(sequence[i], np).value)
    ensures (exists i :: 0 <= i < |sequence| && LookupRow(sequence[i]).Failure?) ==>
      r.Failure? && r.error.OtherError?
  {
    match LookupRows(sequence)
    case Failure(e) => Failure(e)
    case Success(raws) => ConvertRows(raws, np)
  }

  // ---------------------------------------------------------------------
  // The model path of `predict`
  // ---------------------------------------------------------------------

  /** `points[-k:]`; note that `points[-0:]` is the whole sequence. */
  function LastRows(points: seq<Reading>, k: nat): (w: seq<Reading>)
    requires k <= |points|
    ensures |w| == (if k == 0 then |points| else k)
    ensures forall j :: 0 <= j < |w| ==> w[j] == points[|points| - |w| + j]
  {
    if k == 0 then points else points[|points| - k..]
  }

  /** A per-row transformation applied to every row of a matrix. */
  function MapRows(f: Reading -> Reading, rows: seq<Reading>): (r: seq<Reading>)
    ensures |r| == |rows| && forall i :: 0 <= i < |rows| ==> r[i] == f(rows[i])
  {
    seq(|rows|, i requires 0 <= i < |rows| => f(rows[i]))
  }

  function Difference(a: Reading, b: Reading): Reading {
    Reading(a.tds - b.tds, a.temperature - b.temperature, a.moisture - b.moisture)
  }

  /** `round(min(max(raw, 0.0), 1.0), 4)`. */
  function AnomalyScore(raw: real): (s: real)
    ensures 0.0 <= s <= 1.0
    ensures exists n: int :: s == Ticks(n)
    ensures 0.0 <= raw <= 1.0 ==> raw - 0.00005 <= s <= raw + 0.00005
    ensures raw <= 0.0 ==> s == 0.0
    ensures 1.0 <= raw ==> s == 1.0
  {
    Round4OfTicks(0);
    Round4OfTicks(10000);
    Round4(Min(Max(raw, 0.0), 1.0))
  }

  /** The flat network output for the last `sequenceLength` points, scaled. */
  function NetworkOutput(net: Network, scaler: Scaler, points: seq<Reading>, config: Config): seq<real>
    requires config.sequenceLength <= |points|
  {
    net.forward(MapRows(scaler.transform, LastRows(points, config.sequenceLength)))
  }

  /** `predict` once the demo check has passed: lines 150 to 177. */
  function ModelForecast(net: Network, scaler: Scaler, points: seq<Reading>, config: Config, np: NumPy)
    : (r: Result<Forecast, PyError>)
    requires |points| > 0
    ensures |points| < config.sequenceLength ==> r == Failure(ValueError(TooShortMessage(config.sequenceLength)))
    ensures config.forecastSteps == 0 ==> r.Failure? && r.error.ValueError?
    ensures r.Success? <==> (config.sequenceLength <= |points| && config.forecastSteps > 0
      && |NetworkOutput(net, scaler, points, config)| == 3 * config.forecastSteps)
    ensures r.Success? ==> (r.value.mode == Model
      && |r.value.predictions| == config.forecastSteps
      && 0.0 <= r.value.anomalyScore <= 1.0)
  {
    if |points| < config.sequenceLength then Failure(ValueError(TooShortMessage(config.sequenceLength)))
    else
      var yScaled := NetworkOutput(net, scaler, points, config);
      if |yScaled| != 3 * config.forecastSteps then
        Failure(ValueError(ReshapeMessage(|yScaled|, config.forecastSteps)))
      else
        var yPred := MapRows(scaler.inverse, Unflatten(yScaled));
        if yPred == [] then Failure(ValueError(EmptyInverseMessage))
        else
          var raw := np.norm(Difference(yPred[0], points[|points| - 1])) / 1000.0;
          Success(Forecast(yPred, AnomalyScore(raw), Model))
  }

  /**
   * Only the last `sequenceLength` points matter: two sequences that end
   * with the same window get the same answer.
   */
  lemma ModelForecastUsesLastRows(net: Network, scaler: Scaler, p: seq<Reading>, q: seq<Reading>,
                                  config: Config, np: NumPy)
    requires config.sequenceLength >= 1
    requires config.sequenceLength <= |p| && config.sequenceLength <= |q|
    requires LastRows(p, config.sequenceLength) == LastRows(q, config.sequenceLength)
    ensures ModelForecast(net, scaler, p, config, np) == ModelForecast(net, scaler, q, config, np)
  {
    var k := config.sequenceLength;
    assert NetworkOutput(net, scaler, p, config) == NetworkOutput(net, scaler, q, config);
    assert p[|p| - 1] == LastRows(p, k)[k - 1];
    assert q[|q| - 1] == LastRows(q, k)[k - 1];
  }

  /** Prediction `k` is the inverse-scaled `k`-th triple of the network output. */
  lemma ModelPredictionsFromNetwork(net: Network, scaler: Scaler, points: seq<Reading>, config: Config,
                                    np: NumPy, k: nat)
    requires |points| > 0
    requires ModelForecast(net, scaler, points, config, np).Success?
    requires k < config.forecastSteps
    ensures var y := NetworkOutput(net, scaler, points, config);
      3 * k + 2 < |y| &&
      ModelForecast(net, scaler, points, config, np).value.predictions[k]
        == scaler.inverse(Reading(y[3 * k], y[3 * k + 1], y[3 * k + 2]))
  {
    UnflattenAt(NetworkOutput(net, scaler, points, config), k);
  }

  // ---------------------------------------------------------------------
  // The demo path of `predict`
  // ---------------------------------------------------------------------

  /** `x` is a value `random.uniform(lo, hi)` can return. */
  predicate Uniform(x: real, lo: real, hi: real) {
    lo <= x <= hi
  }

  /** The physical ranges of the three sensors. */
  predicate InPhysicalRange(p: Reading) {
    && 0.0 <= p.tds <= 5000.0
    && -20.0 <= p.temperature <= 60.0
    && 0.0 <= p.moisture <= 1000.0
  }

  /**
   * What one demo step can be: the latest reading moved by at most 30 (tds),
   * 1.2 (temperature) and 20 (moisture), then clamped to the physical ranges.
   */
  predicate DemoStepWithin(latest: Reading, p: Reading) {
    && Clamp(latest.tds - 30.0, 0.0, 5000.0) <= p.tds <= Clamp(latest.tds + 30.0, 0.0, 5000.0)
    && Clamp(latest.temperature - 1.2, -20.0, 60.0) <= p.temperature <= Clamp(latest.temperature + 1.2, -20.0, 60.0)
    && Clamp(latest.moisture - 20.0, 0.0, 1000.0) <= p.moisture <= Clamp(latest.moisture + 20.0, 0.0, 1000.0)
  }

  /** What `_demo_prediction` can return for a given latest reading. */
  predicate DemoForecastWithin(latest: Reading, steps: nat, f: Forecast) {
    && f.mode == Demo
    && |f.predictions| == steps
    && 0.05 <= f.anomalyScore <= 0.35
    && forall k :: 0 <= k < steps ==> DemoStepWithin(latest, f.predictions[k])
  }

  /** Every demo step lies in the physical ranges. */
  lemma DemoStepInPhysicalRange(latest: Reading, p: Reading)
    requires DemoStepWithin(latest, p)
    ensures InPhysicalRange(p)
  {
  }

  /** From an in-range latest reading, a demo step moves each field by at most its noise amplitude. */
  lemma DemoStepNearLatest(latest: Reading, p: Reading)
    requires InPhysicalRange(latest) && DemoStepWithin(latest, p)
    ensures -30.0 <= p.tds - latest.tds <= 30.0
    ensures -1.2 <= p.temperature - latest.temperature <= 1.2
    ensures -20.0 <= p.moisture - latest.moisture <= 20.0
  {
  }

  // ---------------------------------------------------------------------
  // The forecaster object
  // ---------------------------------------------------------------------

  class LSTMForecaster {
    const config: Config
    /** `None` while the scaler is an unfitted `MinMaxScaler()`. */
    var scaler: Option<Scaler>
    var model: Option<Network>
    var isDemoMode: bool

    /**
     * A model never exists without a fitted scaler, and the forecaster
     * leaves demo mode only when it holds a model.
     */
    ghost predicate Valid()
      reads this
    {
      && (model.Some? ==> scaler.Some?)
      && (!isDemoMode ==> model.Some?)
    }

    /** `predict` takes the demo path. */
    predicate UsesDemoPath()
      reads this
    {
      model.None? || isDemoMode
    }

    constructor (config: Config)
      ensures Valid() && this.config == config
      ensures scaler.None? && model.None? && isDemoMode
    {
      this.config := config;
      scaler := None;
      model := None;
      isDemoMode := true;
    }

    /**
     * `_prepare_training_data`: refuses too few rows, otherwise fits the
     * scaler (to `fitted`) and cuts the scaled rows into aligned windows.
     */
    method PrepareTrainingData(data: seq<Reading>, fitted: Scaler) returns (r: Result<TrainingSet, PyError>)
      requires Valid()
      modifies this
      ensures Valid() && model == old(model) && isDemoMode == old(isDemoMode)
      ensures r.Failure? <==> |data| <= config.sequenceLength + config.forecastSteps
      ensures r.Failure? ==> r.error == ValueError(InsufficientRowsMessage) && scaler == old(scaler)
      ensures r.Success? ==> scaler == Some(fitted)
      ensures r.Success? ==>
        var scaled := MapRows(fitted.transform, data);
        && |r.value.inputs| == |r.value.targets| == |data| - config.sequenceLength - config.forecastSteps + 1
        && (forall i :: 0 <= i < |r.value.inputs| ==>
              r.value.inputs[i] == Windows.InputWindow(scaled, i, config.sequenceLength))
        && (forall i :: 0 <= i < |r.value.targets| ==>
              r.value.targets[i] == Windows.TargetWindow(scaled, i, config.sequenceLength, config.forecastSteps))
    {
      if |data| <= config.sequenceLength + config.forecastSteps {
        return Failure(ValueError(InsufficientRowsMessage));
      }
      scaler := Some(fitted);
      var scaled := MapRows(fitted.transform, data);
      var inputs, targets := Windows.SlidingWindows(scaled, config.sequenceLength, config.forecastSteps);
      r := Success(TrainingSet(inputs, targets));
    }

    /**
     * `train`: prepares the windows, then installs the network that fitting
     * produced (`trained`, with its per-epoch `history`) and leaves demo mode.
     * An empty history makes reading the final loss raise after the state
     * has changed.
     */
    method Train(data: seq<Reading>, fitted: Scaler, trained: Network, epochs: int, history: seq<EpochMetrics>)
      returns (r: Result<TrainReport, PyError>)
      requires Valid()
      modifies this
      ensures Valid()
      ensures |data| <= config.sequenceLength + config.forecastSteps ==>
        && r == Failure(ValueError(InsufficientRowsMessage))
        && scaler == old(scaler) && model == old(model) && isDemoMode == old(isDemoMode)
      ensures config.sequenceLength + config.forecastSteps < |data| ==>
        && scaler == Some(fitted) && model == Some(trained) && !isDemoMode
        && r == (if history == [] then Failure(OtherError("LookupError"))
                 else Success(TrainReport(epochs, history[|history| - 1].loss, history[|history| - 1].mae)))
    {
      var prepared := PrepareTrainingData(data, fitted);
      if prepared.Failure? {
        return Failure(prepared.error);
      }
      model := Some(trained);
      isDemoMode := false;
      if history == [] {
        return Failure(OtherError("LookupError"));
      }
      r := Success(TrainReport(epochs, history[|history| - 1].loss, history[|history| - 1].mae));
    }

    /**
     * `load`: installs the saved network and scaler when both files exist
     * (`None` stands for a missing file); otherwise drops any model and
     * enters demo mode.
     */
    method Load(modelFile: Option<Network>, scalerFile: Option<Scaler>) returns (loaded: bool)
      modifies this
      ensures Valid()
      ensures loaded == (modelFile.Some? && scalerFile.Some?)
      ensures loaded ==> model == modelFile && scaler == scalerFile && !isDemoMode
      ensures !loaded ==> model.None? && isDemoMode && scaler == old(scaler)
    {
      if modelFile.Some? && scalerFile.Some? {
        model := modelFile;
        scaler := scalerFile;
        isDemoMode := false;
        return true;
      }
      model := None;
      isDemoMode := true;
      return false;
    }

    /**
     * `_demo_prediction`: `forecastSteps` readings, each the latest point
     * moved by uniform noise and clamped, and a uniform anomaly score.
     */
    method DemoPrediction(points: seq<Reading>) returns (f: Forecast)
      requires |points| > 0
      ensures DemoForecastWithin(points[|points| - 1], config.forecastSteps, f)
      ensures forall k :: 0 <= k < |f.predictions| ==> InPhysicalRange(f.predictions[k])
    {
      var latest := points[|points| - 1];
      var predictions: seq<Reading> := [];
      for step := 0 to config.forecastSteps
        invariant |predictions| == step
        invariant forall k :: 0 <= k < step ==> DemoStepWithin(latest, predictions[k])
      {
        assert Uniform(0.0, -30.0, 30.0) && Uniform(0.0, -1.2, 1.2) && Uniform(0.0, -20.0, 20.0);
        var dTds: real :| Uniform(dTds, -30.0, 30.0);
        var dTemperature: real :| Uniform(dTemperature, -1.2, 1.2);
        var dMoisture: real :| Uniform(dMoisture, -20.0, 20.0);
        assert Uniform(dTds, -30.0, 30.0) && Uniform(dTemperature, -1.2, 1.2) && Uniform(dMoisture, -20.0, 20.0);
        ClampMonotone(latest.tds - 30.0, latest.tds + dTds, 0.0, 5000.0);
        ClampMonotone(latest.tds + dTds, latest.tds + 30.0, 0.0, 5000.0);
        ClampMonotone(latest.temperature - 1.2, latest.temperature + dTemperature, -20.0, 60.0);
        ClampMonotone(latest.temperature + dTemperature, latest.temperature + 1.2, -20.0, 60.0);
        ClampMonotone(latest.moisture - 20.0, latest.moisture + dMoisture, 0.0, 1000.0);
        ClampMonotone(latest.moisture + dMoisture, latest.moisture + 20.0, 0.0, 1000.0);
        predictions := predictions + [Reading(
          Clamp(latest.tds + dTds, 0.0, 5000.0),
          Clamp(latest.temperature + dTemperature, -20.0, 60.0),
          Clamp(latest.moisture + dMoisture, 0.0, 1000.0))];
      }
      assert Uniform(0.2, 0.05, 0.35);
      var anomalyScore: real :| Uniform(anomalyScore, 0.05, 0.35);
      assert Uniform(anomalyScore, 0.05, 0.35);
      f := Forecast(predictions, anomalyScore, Demo);
    }

    /** The results `predict` may produce for `sequence` in the current state. */
    ghost predicate PredictOutcome(sequence: seq<Json>, np: NumPy, r: Result<Forecast, PyError>)
      reads this
    {
      if |sequence| == 0 then r == Failure(ValueError(EmptySequenceMessage))
      else
        match ToPoints(sequence, np)
        case Failure(e) => r == Failure(e)
        case Success(points) =>
          if UsesDemoPath() then
            r.Success? && DemoForecastWithin(points[|points| - 1], config.forecastSteps, r.value)
          else
            scaler.Some? && r == ModelForecast(model.value, scaler.value, points, config, np)
    }

    /**
     * `predict`: rejects an empty sequence, converts the items to a float
     * matrix, then takes the demo path or the model path.
     */
    method Predict(sequence: seq<Json>, np: NumPy) returns (r: Result<Forecast, PyError>)
      requires Valid()
      ensures PredictOutcome(sequence, np, r)
    {
      if |sequence| == 0 {
        return Failure(ValueError(EmptySequenceMessage));
      }
      match ToPoints(sequence, np)
      case Failure(e) =>
        r := Failure(e);
      case Success(points) =>
        if model.None? || isDemoMode {
          var f := DemoPrediction(points);
          r := Success(f);
        } else {
          r := ModelForecast(model.value, scaler.value, points, config, np);
        }
    }
  }
}
