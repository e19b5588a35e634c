/**
 * The Flask service around the forecaster: parsing the demo-mode flag,
 * startup, the `/health` and `/model/info` reports, and the `/predict`
 * handler's validation and mapping of exceptions to HTTP statuses.
 * Routing, `jsonify`, logging and reading the environment are framework
 * glue: the environment value and the request body arrive as parameters.
 */
module Service {
  import opened Results
  import opened JsonValues
  import opened Text
  import opened Readings
  import opened Forecaster

  // ---------------------------------------------------------------------
  // _to_bool
  // ---------------------------------------------------------------------

  const TruthyWords: set<string> := {"1", "true", "yes", "on"}

  /** The four words themselves are already stripped and lower case. */
  lemma TruthyWordsAreCanonical(w: string)
    ensures w in TruthyWords ==> Strip(w) == w && Lower(w) == w
  {
    if w == "1" || w == "true" || w == "yes" || w == "on" {
      CanonicalWord(w);
    }
  }

  /** A word of small letters and digits is its own stripped, lowered form. */
  lemma CanonicalWord(w: string)
    requires w != [] && forall i :: 0 <= i < |w| ==> 'a' <= w[i] <= 'z' || '0' <= w[i] <= '9'
    ensures Strip(w) == w && Lower(w) == w
  {
    assert !IsSpace(w[0]) && !IsSpace(w[|w| - 1]);
    assert "" + w + "" == w;
    StripPadded("", w, "");
    var l := Lower(w);
    assert forall i :: 0 <= i < |w| ==> !('A' <= w[i] <= 'Z');
    assert forall i :: 0 <= i < |w| ==> l[i] == w[i];
  }

  /**
   * `value.strip().lower() in {"1", "true", "yes", "on"}`: the four words
   * parse as true, a blank value as false (see `ToBoolOfPadded` and
   * `ToBoolAcceptedShape` for the exact set of accepted strings).
   */
  function ToBool(value: string): (b: bool)
    ensures value in TruthyWords ==> b
    ensures AllSpace(value) ==> !b
  {
    TruthyWordsAreCanonical(value);
    Lower(Strip(value)) in TruthyWords
  }

  /** A truthy word in any letter case, padded with any whitespace, parses as true. */
  lemma ToBoolOfPadded(pre: string, w: string, post: string)
    requires AllSpace(pre) && AllSpace(post) && Lower(w) in TruthyWords
    ensures ToBool(pre + w + post)
  {
    var lw := Lower(w);
    assert lw == "1" || lw == "true" || lw == "yes" || lw == "on";
    assert !IsSpace(w[0]) by {
      assert lw[0] == LowerChar(w[0]);
      assert lw[0] in {'1', 't', 'y', 'o'};
    }
    assert !IsSpace(w[|w| - 1]) by {
      assert lw[|w| - 1] == LowerChar(w[|w| - 1]);
      assert lw[|w| - 1] in {'1', 'e', 's', 'n'};
    }
    StripPadded(pre, w, post);
  }

  /** Conversely, every string that parses as true is such a padded word. */
  lemma ToBoolAcceptedShape(v: string) returns (pre: string, w: string, post: string)
    requires ToBool(v)
    ensures v == pre + w + post && AllSpace(pre) && AllSpace(post) && Lower(w) in TruthyWords
  {
    StripSplits(v);
    var i: nat :| i + |Strip(v)| <= |v| && v == v[..i] + Strip(v) + v[i + |Strip(v)|..]
      && AllSpace(v[..i]) && AllSpace(v[i + |Strip(v)|..]);
    pre, w, post := v[..i], Strip(v), v[i + |Strip(v)|..];
  }

  // ---------------------------------------------------------------------
  // create_app: startup
  // ---------------------------------------------------------------------

  /** `os.getenv("AI_DEMO_MODE", "true")`: a set value as it is, otherwise a default that parses as true. */
  function DemoFlag(env: Option<string>): (flag: string)
    ensures env.Some? ==> flag == env.value
    ensures env.None? ==> ToBool(flag)
  {
    match env
    case Some(s) => s
    case None => assert "true" in TruthyWords; "true"
  }

  /**
   * Builds the forecaster, loads the saved artifacts if both exist, and
   * forces demo mode when the flag parses as true, whatever `load` did.
   */
  method CreateApp(config: Config, modelFile: Option<Network>, scalerFile: Option<Scaler>, demoEnv: Option<string>)
    returns (f: LSTMForecaster, loaded: bool)
    ensures fresh(f) && f.Valid() && f.config == config
    ensures loaded == (modelFile.Some? && scalerFile.Some?)
    ensures f.model == (if loaded then modelFile else None)
    ensures f.scaler == (if loaded then scalerFile else None)
    ensures f.isDemoMode == (ToBool(DemoFlag(demoEnv)) || !loaded)
    ensures demoEnv.None? ==> f.isDemoMode
  {
    f := new LSTMForecaster(config);
    loaded := f.Load(modelFile, scalerFile);
    var forceDemo := ToBool(DemoFlag(demoEnv));
    if forceDemo {
      f.isDemoMode := true;
    }
  }

  // ---------------------------------------------------------------------
  // /health and /model/info
  // ---------------------------------------------------------------------

  function ModeName(isDemoMode: bool): string {
    if isDemoMode then "demo" else "model"
  }

  /** The body of `GET /health`. */
  function Health(f: LSTMForecaster): (r: Json)
    reads f
    ensures r.JObj? && "mode" in r.fields && "status" in r.fields
    ensures r.fields["mode"] == JStr("demo") <==> f.isDemoMode
    ensures r.fields["mode"] == JStr("model") <==> !f.isDemoMode
  {
    JObj(map[
      "service" := JStr("obruk-ai"),
      "status" := JStr("healthy"),
      "mode" := JStr(ModeName(f.isDemoMode)),
      "sequence_length" := JNum(f.config.sequenceLength as real),
      "forecast_steps" := JNum(f.config.forecastSteps as real)])
  }

  /** The body of `GET /model/info`. */
  function ModelInfo(f: LSTMForecaster): (r: Json)
    reads f
    ensures r.JObj? && "mode" in r.fields && "loaded" in r.fields
    ensures r.fields["loaded"] == JBool(true) <==> f.model.Some?
    ensures r.fields["mode"] == JStr("demo") <==> f.isDemoMode
  {
    JObj(map[
      "loaded" := JBool(f.model.Some?),
      "mode" := JStr(ModeName(f.isDemoMode)),
      "model_path" := JStr(f.config.modelPath),
      "scaler_path" := JStr(f.config.scalerPath),
      "sequence_length" := JNum(f.config.sequenceLength as real),
      "forecast_steps" := JNum(f.config.forecastSteps as real)])
  }

  /**
   * For a forecaster in its invariant, the reported mode is the path
   * `predict` takes, and a forecaster reporting "model" has a model loaded.
   */
  lemma ReportedModeMatchesPredictPath(f: LSTMForecaster)
    requires f.Valid()
    ensures Health(f).fields["mode"] == JStr("demo") <==> f.UsesDemoPath()
    ensures ModelInfo(f).fields["mode"] == JStr("model") ==> ModelInfo(f).fields["loaded"] == JBool(true)
  {
  }

  // ---------------------------------------------------------------------
  // POST /predict
  // ---------------------------------------------------------------------

  datatype Response = Response(status: int, body: Json)

  const NonEmptyListMessage := "`sequence` must be a non-empty list."
  const MissingKeysMessage := "Each item must include tds/temperature/moisture."
  const FailedMessage := "Prediction failed."

  function ErrorBody(message: string): Json {
    JObj(map["success" := JBool(false), "message" := JStr(message)])
  }

  function BadRequest(message: string): Response {
    Response(400, ErrorBody(message))
  }

  /** The answer to any exception other than `ValueError`. */
  const ServerError := Response(500, ErrorBody(FailedMessage))

  /** `request.get_json(silent=True) or {}`; `None` stands for a body that is not JSON. */
  function Payload(body: Option<Json>): (payload: Json)
    ensures body.Some? && Truthy(body.value) ==> payload == body.value
    ensures body.None? || !Truthy(body.value) ==> payload == JObj(map[])
    ensures Truthy(payload) || payload == JObj(map[])
  {
    if body.None? || !Truthy(body.value) then JObj(map[]) else body.value
  }

  /** The payload's fields, or none when the payload is not an object. */
  function PayloadFields(body: Option<Json>): map<string, Json> {
    var payload := Payload(body);
    if payload.JObj? then payload.fields else map[]
  }

  /** `payload.get("sequence")`, with `JNull` for a missing key. */
  function SequenceOf(fields: map<string, Json>): Json {
    if "sequence" in fields then fields["sequence"] else JNull
  }

  /**
   * `all(key in item for key in ("tds", "temperature", "moisture"))`:
   * stops at the first key that is missing; `None` when `in` raises.
   */
  function HasRequiredKeys(item: Json): (r: Option<bool>)
    ensures r.None? <==> (item.JNull? || item.JBool? || item.JNum?)
    ensures r == Some(true) <==> (Contains(item, "tds") == Some(true)
      && Contains(item, "temperature") == Some(true) && Contains(item, "moisture") == Some(true))
  {
    match Contains(item, "tds")
    case None => None
    case Some(false) => Some(false)
    case Some(true) =>
      match Contains(item, "temperature")
      case None => None
      case Some(false) => Some(false)
      case Some(true) => Contains(item, "moisture")
  }

  /** What the item loop answers for an item that does not pass. */
  function ItemRejection(item: Json): Response {
    if HasRequiredKeys(item).None? then ServerError else BadRequest(MissingKeysMessage)
  }

  /** The item loop: `None` when every item passes, else the first failing item's answer. */
  function CheckItems(items: seq<Json>): (r: Option<Response>)
    ensures r.None? <==> forall i :: 0 <= i < |items| ==> HasRequiredKeys(items[i]) == Some(true)
    ensures r.Some? ==> r.value == ServerError || r.value == BadRequest(MissingKeysMessage)
  {
    if items == [] then None
    else if HasRequiredKeys(items[0]) != Some(true) then Some(ItemRejection(items[0]))
    else CheckItems(items[1..])
  }

  /** Items are checked in order and the first one that fails decides the answer. */
  lemma {:induction false} FirstFailingItemDecides(items: seq<Json>, j: nat)
    requires j < |items|
    requires forall i :: 0 <= i < j ==> HasRequiredKeys(items[i]) == Some(true)
    requires HasRequiredKeys(items[j]) != Some(true)
    ensures CheckItems(items) == Some(ItemRejection(items[j]))
  {
    if j > 0 {
      FirstFailingItemDecides(items[1..], j - 1);
    }
  }

  /**
   * The validation part of the `/predict` handler as written: either the
   * items to hand to the forecaster, or the response to send instead.
   */
  function ValidatePredictRequest(body: Option<Json>): (r: Result<seq<Json>, Response>)
    ensures r.Success? <==> (Payload(body).JObj?
      && SequenceOf(Payload(body).fields).JArr? && SequenceOf(Payload(body).fields).items != []
      && forall i :: 0 <= i < |SequenceOf(Payload(body).fields).items| ==>
           HasRequiredKeys(SequenceOf(Payload(body).fields).items[i]) == Some(true))
    ensures r.Success? ==> SequenceOf(Payload(body).fields) == JArr(r.value)
    ensures !Payload(body).JObj? ==> r == Failure(ServerError)
    ensures Payload(body).JObj? && !(SequenceOf(Payload(body).fields).JArr? && SequenceOf(Payload(body).fields).items != [])
      ==> r == Failure(BadRequest(NonEmptyListMessage))
    ensures Payload(body).JObj? && SequenceOf(Payload(body).fields).JArr? && SequenceOf(Payload(body).fields).items != []
      && CheckItems(SequenceOf(Payload(body).fields).items).Some?
      ==> r == Failure(CheckItems(SequenceOf(Payload(body).fields).items).value)
    ensures r.Failure? ==> r.error == ServerError || r.error.status == 400
  {
    var payload := Payload(body);
    if !payload.JObj? then Failure(ServerError)
    else
      var sequence := SequenceOf(payload.fields);
      if !sequence.JArr? || |sequence.items| == 0 then Failure(BadRequest(NonEmptyListMessage))
      else
        match CheckItems(sequence.items)
        case Some(rejection) => Failure(rejection)
        case None => Success(sequence.items)
  }

  /** The item loop checking that every item is an object holding the three keys. */
  function CheckItemsIntended(items: seq<Json>): (r: bool)
    ensures r <==> forall i :: 0 <= i < |items| ==> IsReadingObject(items[i])
  {
    items == [] || (IsReadingObject(items[0]) && CheckItemsIntended(items[1..]))
  }

  /**
   * The validation with the checks the handler evidently intends: a body
   * that is not a JSON object is treated as one without `sequence`, and an
   * item that is not an object holding the three keys is a bad request.
   */
  function ValidatePredictRequestIntended(body: Option<Json>): (r: Result<seq<Json>, Response>)
    ensures r.Success? <==> (SequenceOf(PayloadFields(body)).JArr? && SequenceOf(PayloadFields(body)).items != []
      && forall i :: 0 <= i < |SequenceOf(PayloadFields(body)).items| ==>
           IsReadingObject(SequenceOf(PayloadFields(body)).items[i]))
    ensures r.Success? ==> SequenceOf(PayloadFields(body)) == JArr(r.value)
    ensures !(SequenceOf(PayloadFields(body)).JArr? && SequenceOf(PayloadFields(body)).items != [])
      ==> r == Failure(BadRequest(NonEmptyListMessage))
    ensures SequenceOf(PayloadFields(body)).JArr? && SequenceOf(PayloadFields(body)).items != [] && r.Failure?
      ==> r == Failure(BadRequest(MissingKeysMessage))
  {
    var sequence := SequenceOf(PayloadFields(body));
    if !sequence.JArr? || |sequence.items| == 0 then Failure(BadRequest(NonEmptyListMessage))
    else if !CheckItemsIntended(sequence.items) then Failure(BadRequest(MissingKeysMessage))
    else Success(sequence.items)
  }

  /** Items that pass the intended validation can always be looked up: no `KeyError` or `TypeError` from them. */
  lemma IntendedValidationMakesLookupsSucceed(body: Option<Json>)
    requires ValidatePredictRequestIntended(body).Success?
    ensures LookupRows(ValidatePredictRequestIntended(body).value).Success?
  {
    var items := ValidatePredictRequestIntended(body).value;
    assert forall i :: 0 <= i < |items| ==> LookupRow(items[i]).Success? by {
      forall i | 0 <= i < |items| ensures LookupRow(items[i]).Success? {
        assert IsReadingObject(items[i]);
      }
    }
  }

  /** For an object item, the check as written and the intended check agree. */
  lemma ObjectItemChecksAgree(item: Json)
    requires item.JObj?
    ensures HasRequiredKeys(item) == Some(IsReadingObject(item))
  {
  }

  /**
   * When the body is an object and every item is an object, the handler as
   * written and the intended one give the same answer.
   */
  lemma {:induction false} ValidatorsAgreeOnObjects(body: Option<Json>)
    requires Payload(body).JObj?
    requires SequenceOf(Payload(body).fields).JArr? ==>
      forall i :: 0 <= i < |SequenceOf(Payload(body).fields).items| ==> SequenceOf(Payload(body).fields).items[i].JObj?
    ensures ValidatePredictRequest(body) == ValidatePredictRequestIntended(body)
  {
    var sequence := SequenceOf(Payload(body).fields);
    if sequence.JArr? && sequence.items != [] {
      CheckItemsAgree(sequence.items);
    }
  }

  lemma {:induction false} CheckItemsAgree(items: seq<Json>)
    requires forall i :: 0 <= i < |items| ==> items[i].JObj?
    ensures CheckItems(items).None? == CheckItemsIntended(items)
    ensures CheckItems(items).Some? ==> CheckItems(items) == Some(BadRequest(MissingKeysMessage))
  {
    if items != [] {
      ObjectItemChecksAgree(items[0]);
      CheckItemsAgree(items[1..]);
    }
  }

  /**
   * A well-formed request (an object whose `sequence` is a non-empty list of
   * objects holding the three keys, whatever else it carries) passes both
   * validations with its items unchanged.
   */
  lemma WellFormedRequestAccepted(fields: map<string, Json>, items: seq<Json>)
    requires "sequence" in fields && fields["sequence"] == JArr(items)
    requires items != [] && forall i :: 0 <= i < |items| ==> IsReadingObject(items[i])
    ensures ValidatePredictRequestIntended(Some(JObj(fields))) == Success(items)
    ensures ValidatePredictRequest(Some(JObj(fields))) == Success(items)
  {
    var body := Some(JObj(fields));
    assert Truthy(body.value);
    assert SequenceOf(Payload(body).fields) == JArr(items);
    ValidatorsAgreeOnObjects(body);
  }

  /** As written: a sequence of numbers makes `"tds" in 1` raise, and the answer is 500, not 400. */
  lemma NumberItemGetsServerError()
    ensures ValidatePredictRequest(Some(JObj(map["sequence" := JArr([JNum(1.0)])]))) == Failure(ServerError)
    ensures ValidatePredictRequestIntended(Some(JObj(map["sequence" := JArr([JNum(1.0)])])))
         == Failure(BadRequest(MissingKeysMessage))
  {
    var body := Some(JObj(map["sequence" := JArr([JNum(1.0)])]));
    assert "sequence" in body.value.fields;
    assert SequenceOf(Payload(body).fields) == JArr([JNum(1.0)]);
    assert HasRequiredKeys(JNum(1.0)).None?;
  }

  /** As written: a JSON body that is a non-empty array makes `payload.get` raise, and the answer is 500. */
  lemma ArrayBodyGetsServerError()
    ensures ValidatePredictRequest(Some(JArr([JNum(1.0)]))) == Failure(ServerError)
    ensures ValidatePredictRequestIntended(Some(JArr([JNum(1.0)]))) == Failure(BadRequest(NonEmptyListMessage))
  {
    assert Truthy(JArr([JNum(1.0)]));
  }

  /**
   * As written: a string item containing the three key names passes the
   * check, and the forecaster's `row["tds"]` then raises `TypeError`.
   */
  lemma StringItemPassesCheck()
    ensures var item := JStr("tds temperature moisture");
      && ValidatePredictRequest(Some(JObj(map["sequence" := JArr([item])]))) == Success([item])
      && LookupRow(item).Failure? && LookupRow(item).error.OtherError?
  {
    var s := "tds temperature moisture";
    var item := JStr(s);
    IsInfixAt("tds", s, 0);
    assert s[4..4 + |"temperature"|] == "temperature";
    IsInfixAt("temperature", s, 4);
    assert s[16..16 + |"moisture"|] == "moisture";
    IsInfixAt("moisture", s, 16);
    assert HasRequiredKeys(item) == Some(true);
    var body := Some(JObj(map["sequence" := JArr([item])]));
    assert "sequence" in body.value.fields;
    assert SequenceOf(Payload(body).fields) == JArr([item]);
    assert CheckItems([item]).None?;
  }

  // ---------------------------------------------------------------------
  // Responses
  // ---------------------------------------------------------------------

  function ReadingJson(p: Reading): Json {
    JObj(map["tds" := JNum(p.tds), "temperature" := JNum(p.temperature), "moisture" := JNum(p.moisture)])
  }

  function ReadingsJson(ps: seq<Reading>): (items: seq<Json>)
    ensures |items| == |ps| && forall i :: 0 <= i < |ps| ==> items[i] == ReadingJson(ps[i])
  {
    seq(|ps|, i requires 0 <= i < |ps| => ReadingJson(ps[i]))
  }

  /** The fields of the forecaster's result dictionary. */
  function ForecastFields(f: Forecast): map<string, Json> {
    map[
      "predictions" := JArr(ReadingsJson(f.predictions)),
      "anomaly_score" := JNum(f.anomalyScore),
      "mode" := JStr(ModeName(f.mode == Demo))]
  }

  /**
   * The handler's answer once the forecaster has run: 200 with `success`
   * merged into the result, 400 with a `ValueError`'s message, 500 with a
   * fixed message for anything else.
   */
  function RespondToPrediction(outcome: Result<Forecast, PyError>): (resp: Response)
    ensures resp.status == 200 <==> outcome.Success?
    ensures resp.status == 400 <==> outcome.Failure? && outcome.error.ValueError?
    ensures resp.status == 500 <==> outcome.Failure? && outcome.error.OtherError?
    ensures outcome.Failure? && outcome.error.ValueError? ==> resp == BadRequest(outcome.error.message)
    ensures outcome.Failure? && outcome.error.OtherError? ==> resp == ServerError
    ensures outcome.Success? ==> (resp.body.JObj?
      && resp.body.fields.Keys == {"success"} + ForecastFields(outcome.value).Keys
      && resp.body.fields["success"] == JBool(true)
      && forall k :: k in ForecastFields(outcome.value) ==> resp.body.fields[k] == ForecastFields(outcome.value)[k])
  {
    match outcome
    case Success(f) => Response(200, JObj(map["success" := JBool(true)] + ForecastFields(f)))
    case Failure(ValueError(message)) => BadRequest(message)
    case Failure(OtherError(_)) => ServerError
  }

  // Reading a forecast back out of a response body.

  function ReadingOfJson(v: Json): Option<Reading> {
    if IsReadingObject(v) && v.fields["tds"].JNum? && v.fields["temperature"].JNum? && v.fields["moisture"].JNum?
    then Some(Reading(v.fields["tds"].n, v.fields["temperature"].n, v.fields["moisture"].n))
    else None
  }

  function ReadingsOfJson(items: seq<Json>): Option<seq<Reading>> {
    if items == [] then Some([])
    else
      match ReadingOfJson(items[0])
      case None => None
      case Some(p) =>
        match ReadingsOfJson(items[1..])
        case None => None
        case Some(ps) => Some([p] + ps)
  }

  function ForecastOfBody(body: Json): Option<Forecast> {
    if body.JObj? && "predictions" in body.fields && "anomaly_score" in body.fields && "mode" in body.fields
       && body.fields["predictions"].JArr? && body.fields["anomaly_score"].JNum?
       && body.fields["mode"] in {JStr("demo"), JStr("model")}
    then
      match ReadingsOfJson(body.fields["predictions"].items)
      case None => None
      case Some(ps) =>
        Some(Forecast(ps, body.fields["anomaly_score"].n, if body.fields["mode"] == JStr("demo") then Demo else Model))
    else None
  }

  lemma {:induction false} ReadingsRoundTrip(ps: seq<Reading>)
    ensures ReadingsOfJson(ReadingsJson(ps)) == Some(ps)
  {
    var items := ReadingsJson(ps);
    if ps != [] {
      assert items[1..] == ReadingsJson(ps[1..]);
      ReadingsRoundTrip(ps[1..]);
      assert [ps[0]] + ps[1..] == ps;
    }
  }

  /** A 200 response carries the whole forecast: it can be read back exactly. */
  lemma SuccessBodyCarriesForecast(f: Forecast)
    ensures ForecastOfBody(RespondToPrediction(Success(f)).body) == Some(f)
  {
    var fields := RespondToPrediction(Success(f)).body.fields;
    assert fields["predictions"] == JArr(ReadingsJson(f.predictions));
    assert fields["anomaly_score"] == JNum(f.anomalyScore);
    assert fields["mode"] == JStr(ModeName(f.mode == Demo));
    assert "model"[0] != "demo"[0];
    ReadingsRoundTrip(f.predictions);
    var body := RespondToPrediction(Success(f)).body;
    assert body.JObj? && "predictions" in body.fields && "anomaly_score" in body.fields && "mode" in body.fields;
    assert body.fields["mode"] in {JStr("demo"), JStr("model")};
    assert ReadingsOfJson(body.fields["predictions"].items) == Some(f.predictions);
    assert (if body.fields["mode"] == JStr("demo") then Demo else Model) == f.mode;
  }

  /**
   * `POST /predict`: validates, calls the forecaster only on valid input,
   * and turns its result or exception into a response. It uses the
   * intended validation (see `ValidatePredictRequestIntended`).
   */
  method PredictRoute(f: LSTMForecaster, body: Option<Json>, np: NumPy)
    returns (resp: Response, ghost outcome: Option<Result<Forecast, PyError>>)
    requires f.Valid()
    ensures resp.status == 200 || resp.status == 400 || resp.status == 500
    ensures ValidatePredictRequestIntended(body).Failure? ==>
      outcome.None? && resp == ValidatePredictRequestIntended(body).error && resp.status == 400
    ensures ValidatePredictRequestIntended(body).Success? ==>
      outcome.Some? && f.PredictOutcome(ValidatePredictRequestIntended(body).value, np, outcome.value)
      && resp == RespondToPrediction(outcome.value)
  {
    match ValidatePredictRequestIntended(body)
    case Failure(rejection) =>
      resp := rejection;
      outcome := None;
    case Success(items) =>
      var result := f.Predict(items, np);
      outcome := Some(result);
      resp := RespondToPrediction(result);
  }

  /**
   * A service in demo mode answers every request whose items convert to
   * numbers with 200 and mode "demo".
   */
  lemma DemoModeAnswersOk(f: LSTMForecaster, items: seq<Json>, np: NumPy, outcome: Result<Forecast, PyError>)
    requires f.Valid() && f.isDemoMode
    requires items != [] && ToPoints(items, np).Success?
    requires f.PredictOutcome(items, np, outcome)
    ensures RespondToPrediction(outcome).status == 200
    ensures RespondToPrediction(outcome).body.fields["mode"] == JStr("demo")
  {
  }
}
