/** The routed prediction page: 13 raw text fields, a validator that reports the first
    failing rule, and a submit handler that posts the parsed features to the scoring
    service and turns the reply into a high-risk or low-risk message. */
module PredictionComponent {
  import opened Wrappers
  import opened Text
  import opened JsValues
  import MlApi

  const AllFieldsMessage: string := "All fields must be filled."
  const AgeMessage: string := "Age must be between 1 and 120."
  const CholesterolMessage: string := "Cholesterol must be a positive value."
  const BloodPressureMessage: string := "Resting Blood Pressure must be a positive value."
  const HeartRateMessage: string := "Max Heart Rate must be a positive value."
  const StDepressionMessage: string := "ST Depression cannot be negative."
  const FetchErrorMessage: string := "Error fetching prediction. Please try again."
  /** The two result messages, with the emoji exactly as this page's file stores them
      (UTF-8 bytes read back as Windows-1252). */
  const HighRiskMessage: string := "\U{00F0}\U{0178}\U{0161}\U{00A8} Heart Disease Detected! Please consult a doctor."
  const LowRiskMessage: string := "\U{00E2}\U{0153}\U{2026} No Heart Disease Detected! Keep maintaining a healthy lifestyle."

  /** Positions of the bound-checked features (Age, Resting Blood Pressure,
      Cholesterol, Max Heart Rate, ST Depression). */
  const AgeIndex := 0
  const BloodPressureIndex := 3
  const CholesterolIndex := 4
  const HeartRateIndex := 7
  const StDepressionIndex := 9

  predicate Blank(value: string) { Trim(value) == [] }

  predicate AnyBlank(features: seq<string>)
  {
    exists i :: 0 <= i < |features| && Blank(features[i])
  }

  predicate AgeOutOfRange(age: Number) { AtMost(age, 0.0) || Above(age, 120.0) }

  /** One check: whether it fails, and the message it reports. */
  datatype Rule = Rule(violated: bool, message: string)

  /** The checks of the form in the order they are made. */
  function Rules(features: seq<string>): seq<Rule>
    requires |features| == 13
  {
    [ Rule(AnyBlank(features), AllFieldsMessage),
      Rule(AgeOutOfRange(StringToNumber(features[AgeIndex])), AgeMessage),
      Rule(AtMost(StringToNumber(features[CholesterolIndex]), 0.0), CholesterolMessage),
      Rule(AtMost(StringToNumber(features[BloodPressureIndex]), 0.0), BloodPressureMessage),
      Rule(AtMost(StringToNumber(features[HeartRateIndex]), 0.0), HeartRateMessage),
      Rule(Below(StringToNumber(features[StDepressionIndex]), 0.0), StDepressionMessage) ]
  }

  /** The message of the first failing rule, or `None` when all pass. */
  function FirstViolation(rules: seq<Rule>): (r: Option<string>)
    ensures r.None? <==> forall i :: 0 <= i < |rules| ==> !rules[i].violated
    ensures r.Some? ==> exists i :: 0 <= i < |rules| && rules[i].violated && r.value == rules[i].message
                                    && forall j :: 0 <= j < i ==> !rules[j].violated
  {
    if rules == [] then None
    else if rules[0].violated then Some(rules[0].message)
    else
      var r := FirstViolation(rules[1..]);
      assert forall i :: 1 <= i < |rules| ==> rules[i] == rules[1..][i - 1];
      r
  }

  /** `validateForm`: a chain of guards, each returning its message. */
  function Validate(features: seq<string>): (r: Option<string>)
    requires |features| == 13
    ensures r == Some(AllFieldsMessage) <==> AnyBlank(features)
  {
    if AnyBlank(features) then Some(AllFieldsMessage)
    else if AgeOutOfRange(StringToNumber(features[AgeIndex])) then Some(AgeMessage)
    else if AtMost(StringToNumber(features[CholesterolIndex]), 0.0) then Some(CholesterolMessage)
    else if AtMost(StringToNumber(features[BloodPressureIndex]), 0.0) then Some(BloodPressureMessage)
    else if AtMost(StringToNumber(features[HeartRateIndex]), 0.0) then Some(HeartRateMessage)
    else if Below(StringToNumber(features[StDepressionIndex]), 0.0) then Some(StDepressionMessage)
    else None
  }

  /** The same guard chain over the blank test and the five numbers it reads. */
  function Guards(blank: bool, age: Number, cholesterol: Number, bloodPressure: Number,
                  heartRate: Number, stDepression: Number): (r: Option<string>)
    ensures r == Some(AllFieldsMessage) <==> blank
    ensures !blank ==> (r == Some(AgeMessage) <==> AgeOutOfRange(age))
  {
    if blank then Some(AllFieldsMessage)
    else if AgeOutOfRange(age) then Some(AgeMessage)
    else if AtMost(cholesterol, 0.0) then Some(CholesterolMessage)
    else if AtMost(bloodPressure, 0.0) then Some(BloodPressureMessage)
    else if AtMost(heartRate, 0.0) then Some(HeartRateMessage)
    else if Below(stDepression, 0.0) then Some(StDepressionMessage)
    else None
  }

  /** Every bound check reads its entry through unary `+`. */
  lemma ValidateIsGuards(features: seq<string>)
    requires |features| == 13
    ensures Validate(features) ==
      Guards(AnyBlank(features), StringToNumber(features[AgeIndex]), StringToNumber(features[CholesterolIndex]),
             StringToNumber(features[BloodPressureIndex]), StringToNumber(features[HeartRateIndex]),
             StringToNumber(features[StDepressionIndex]))
  {
  }

  /** The guard chain is the first-failure reading of the rule table. */
  lemma ValidateIsFirstViolation(features: seq<string>)
    requires |features| == 13
    ensures Validate(features) == FirstViolation(Rules(features))
  {
    FirstOfSix(Rules(features));
  }

  lemma FirstOfSix(rs: seq<Rule>)
    requires |rs| == 6
    ensures FirstViolation(rs) ==
      if rs[0].violated then Some(rs[0].message)
      else if rs[1].violated then Some(rs[1].message)
      else if rs[2].violated then Some(rs[2].message)
      else if rs[3].violated then Some(rs[3].message)
      else if rs[4].violated then Some(rs[4].message)
      else if rs[5].violated then Some(rs[5].message)
      else None
  {
    assert rs[1..][1..][1..][1..][1..][1..] == [];
  }

  /** An age written as a plain decimal numeral is rejected exactly when it is 0 or
      above 120: 1 and 120 pass, 0 and 121 fail. */
  lemma AgeBoundary(features: seq<string>, n: nat)
    requires |features| == 13 && !AnyBlank(features)
    requires features[AgeIndex] == ShowNat(n)
    ensures Validate(features) == Some(AgeMessage) <==> n == 0 || n > 120
  {
    ValidateIsGuards(features);
    ParseShowNat(n);
  }

  /** Entries that unary `+` reads as NaN slip through every bound check: an entry
      holding a character no numeric literal uses is accepted once it is not blank. */
  lemma NonNumericEntriesPass(features: seq<string>)
    requires |features| == 13 && !AnyBlank(features)
    requires forall k :: k in {AgeIndex, CholesterolIndex, BloodPressureIndex, HeartRateIndex, StDepressionIndex}
               ==> !AllNumericChars(Trim(features[k]))
    ensures Validate(features) == None
  {
    NonNumericIsNaN(features[AgeIndex]);
    NonNumericIsNaN(features[CholesterolIndex]);
    NonNumericIsNaN(features[BloodPressureIndex]);
    NonNumericIsNaN(features[HeartRateIndex]);
    NonNumericIsNaN(features[StDepressionIndex]);
    NaNEntriesPass(features);
  }

  lemma NonNumericIsNaN(s: string)
    requires !AllNumericChars(Trim(s))
    ensures StringToNumber(s) == NaN
  {
    if StringToNumber(s) != NaN { NonNaNIsNumericText(s); }
  }

  /** NaN fails no comparison, so NaN entries pass every bound check. */
  lemma NaNEntriesPass(features: seq<string>)
    requires |features| == 13 && !AnyBlank(features)
    requires StringToNumber(features[AgeIndex]) == NaN && StringToNumber(features[CholesterolIndex]) == NaN
    requires StringToNumber(features[BloodPressureIndex]) == NaN && StringToNumber(features[HeartRateIndex]) == NaN
    requires StringToNumber(features[StDepressionIndex]) == NaN
    ensures Validate(features) == None
  {
    ValidateIsGuards(features);
  }

  /** Only blankness is checked at the other eight positions: two forms that agree on
      the five bound-checked fields and on which fields are blank validate alike. */
  lemma UncheckedFieldsOnlyNeedContent(f: seq<string>, g: seq<string>)
    requires |f| == 13 && |g| == 13
    requires forall k :: k in {AgeIndex, CholesterolIndex, BloodPressureIndex, HeartRateIndex, StDepressionIndex} ==> f[k] == g[k]
    requires forall k :: 0 <= k < 13 ==> (Blank(f[k]) <==> Blank(g[k]))
    ensures Validate(f) == Validate(g)
  {
    if AnyBlank(f) {
      var i :| 0 <= i < 13 && Blank(f[i]);
      assert Blank(g[i]);
    }
    if AnyBlank(g) {
      var i :| 0 <= i < 13 && Blank(g[i]);
      assert Blank(f[i]);
    }
    assert f[AgeIndex] == g[AgeIndex] && f[CholesterolIndex] == g[CholesterolIndex];
    assert f[BloodPressureIndex] == g[BloodPressureIndex] && f[HeartRateIndex] == g[HeartRateIndex];
    assert f[StDepressionIndex] == g[StDepressionIndex];
    ValidateIsGuards(f);
    ValidateIsGuards(g);
  }

  /** The request body `{features: features.map(Number)}`. */
  function RequestBody(features: seq<string>): (body: seq<Number>)
    ensures |body| == |features|
    ensures forall i :: 0 <= i < |features| ==> body[i] == StringToNumber(features[i])
  {
    seq(|features|, i requires 0 <= i < |features| => StringToNumber(features[i]))
  }

  /** The parsed reply body: the properties "error" and "prediction" (`None`: absent). */
  datatype ReplyBody = ReplyBody(error: Option<Json>, prediction: Option<Json>)

  /** What `fetch` delivers: a transport failure, or a response with its `ok` flag,
      status and body (`None` when `response.json()` fails). */
  datatype Reply = NetworkFailure | HttpResponse(ok: bool, status: nat, body: Option<ReplyBody>)

  /** `Number(data.prediction) === 1` picks the high-risk message, anything else the low-risk one. */
  function LabelFor(prediction: Option<Json>): (message: string)
    ensures message == HighRiskMessage <==> StrictEquals(JsonToNumber(prediction), 1.0)
    ensures message == HighRiskMessage || message == LowRiskMessage
  {
    if StrictEquals(JsonToNumber(prediction), 1.0) then HighRiskMessage else LowRiskMessage
  }

  /** The submit outcome as the page's code is written: a reply body counts as a failure
      only when its "error" property is truthy. */
  function ClassifyReplyAsWritten(reply: Reply): (r: Result<string>)
    ensures r.Err? <==> reply.NetworkFailure? || !reply.ok || reply.body.None? || Truthy(reply.body.value.error)
    ensures r.Err? ==> r.message == FetchErrorMessage
    ensures r.Ok? ==> r.value == LabelFor(reply.body.value.prediction)
  {
    match reply
    case NetworkFailure => Err(FetchErrorMessage)
    case HttpResponse(ok, _, body) =>
      if !ok || body.None? || Truthy(body.value.error) then Err(FetchErrorMessage)
      else Ok(LabelFor(body.value.prediction))
  }

  /** The submit outcome with the intended test: a reply body that carries an "error"
      property at all counts as a failure. */
  function ClassifyReply(reply: Reply): (r: Result<string>)
    ensures r.Err? <==> reply.NetworkFailure? || !reply.ok || reply.body.None? || reply.body.value.error.Some?
    ensures r.Err? ==> r.message == FetchErrorMessage
    ensures r.Ok? ==> r.value == LabelFor(reply.body.value.prediction)
  {
    match reply
    case NetworkFailure => Err(FetchErrorMessage)
    case HttpResponse(ok, _, body) =>
      if !ok || body.None? || body.value.error.Some? then Err(FetchErrorMessage)
      else Ok(LabelFor(body.value.prediction))
  }

  /** The two tests differ exactly on a successful reply whose "error" property is
      present but falsy (`""`, `null`, `0` or `false`): as written it is read as a
      prediction, with the intended test it is a failure. */
  lemma ClassifiersDiffer(reply: Reply)
    ensures ClassifyReplyAsWritten(reply) != ClassifyReply(reply) <==>
      reply.HttpResponse? && reply.ok && reply.body.Some? && reply.body.value.error.Some? && !Truthy(reply.body.value.error)
  {
  }

  /** The scoring route's body as the page reads it. */
  function ToReplyBody(body: MlApi.Body): ReplyBody
  {
    match body
    case ErrorBody(e) => ReplyBody(Some(JString(e)), None)
    case PredictionBody(p) => ReplyBody(None, Some(JNumber(p as real)))
  }

  predicate AllFinite(body: seq<Number>) { forall i :: 0 <= i < |body| ==> body[i].Finite? }

  /** The scoring route's answer to a request body. `JSON.stringify` writes NaN and the
      infinities as `null`, which the route's list of floats refuses with status 422
      before the handler runs. */
  function ServerReply(model: MlApi.Model, body: seq<Number>): Reply
  {
    if AllFinite(body) then
      HttpResponse(true, 200, Some(ToReplyBody(MlApi.Predict(model, seq(|body|, i requires 0 <= i < |body| => body[i].value)))))
    else HttpResponse(false, 422, Some(ReplyBody(None, None)))
  }

  /** The reply to a thirteen-number body, as the component's code reads it: the
      high-risk message exactly when the classifier's label truncates to 1; a missing
      model or a non-finite entry ends in the error message, and so does a raised
      exception, except one whose message is empty, which is read as low risk. */
  lemma ReplyOutcome(model: MlApi.Model, body: seq<Number>)
    requires |body| == 13
    ensures var r := ClassifyReplyAsWritten(ServerReply(model, body));
            if !AllFinite(body) || model.None? then r == Err(FetchErrorMessage)
            else
              var values := seq(13, i requires 0 <= i < 13 => body[i].value);
              match model.value(MlApi.InputRow(values))
              case Label(v) => r == Ok(if MlApi.PyInt(v) == 1 then HighRiskMessage else LowRiskMessage)
              case Raised(m) => r == (if m == [] then Ok(LowRiskMessage) else Err(FetchErrorMessage))
  {
    if AllFinite(body) && model.Some? {
      var values := seq(|body|, i requires 0 <= i < |body| => body[i].value);
      assert values == seq(13, i requires 0 <= i < 13 => body[i].value);
      match model.value(MlApi.InputRow(values))
      case Label(v) =>
        assert StrictEquals(JsonToNumber(Some(JNumber(MlApi.PyInt(v) as real))), 1.0) <==> MlApi.PyInt(v) == 1;
      case Raised(m) =>
        assert MlApi.Predict(model, values) == MlApi.ErrorBody(m);
    }
  }

  /** The same reply read with the intended test: every raised exception, whatever its
      message, ends in the error message. */
  lemma CorrectedReplyOutcome(model: MlApi.Model, body: seq<Number>)
    requires |body| == 13
    ensures var r := ClassifyReply(ServerReply(model, body));
            if !AllFinite(body) || model.None? then r == Err(FetchErrorMessage)
            else
              var values := seq(13, i requires 0 <= i < 13 => body[i].value);
              match model.value(MlApi.InputRow(values))
              case Label(v) => r == Ok(if MlApi.PyInt(v) == 1 then HighRiskMessage else LowRiskMessage)
              case Raised(_) => r == Err(FetchErrorMessage)
  {
    if AllFinite(body) && model.Some? {
      var values := seq(|body|, i requires 0 <= i < |body| => body[i].value);
      assert values == seq(13, i requires 0 <= i < 13 => body[i].value);
      match model.value(MlApi.InputRow(values))
      case Label(v) =>
        assert StrictEquals(JsonToNumber(Some(JNumber(MlApi.PyInt(v) as real))), 1.0) <==> MlApi.PyInt(v) == 1;
      case Raised(_) =>
    }
  }

  /** End to end: the body a validated form sends is answered as `ReplyOutcome` says. */
  lemma EndToEnd(model: MlApi.Model, features: seq<string>)
    requires |features| == 13 && Validate(features) == None
    ensures var body := RequestBody(features);
            var r := ClassifyReplyAsWritten(ServerReply(model, body));
            if !AllFinite(body) || model.None? then r == Err(FetchErrorMessage)
            else
              var values := seq(13, i requires 0 <= i < 13 => body[i].value);
              match model.value(MlApi.InputRow(values))
              case Label(v) => r == Ok(if MlApi.PyInt(v) == 1 then HighRiskMessage else LowRiskMessage)
              case Raised(m) => r == (if m == [] then Ok(LowRiskMessage) else Err(FetchErrorMessage))
  {
    ReplyOutcome(model, RequestBody(features));
  }

  /** Every error body the scoring route can return ends in the error message. */
  lemma ServerErrorsAreFailures(model: MlApi.Model, body: seq<Number>)
    requires AllFinite(body)
    requires MlApi.Predict(model, seq(|body|, i requires 0 <= i < |body| => body[i].value)).ErrorBody?
    ensures ClassifyReply(ServerReply(model, body)) == Err(FetchErrorMessage)
  {
  }

  /** The code as written: when the classifier raises an exception whose `str(e)` is
      empty, the route returns `{"error": ""}`, the empty string is falsy, and the page
      shows the low-risk message instead of the error. */
  lemma EmptyServerErrorShownAsLowRisk(model: MlApi.Model, body: seq<Number>)
    requires |body| == 13 && AllFinite(body) && model.Some?
    requires model.value(MlApi.InputRow(seq(13, i requires 0 <= i < 13 => body[i].value))) == MlApi.Raised("")
    ensures ClassifyReplyAsWritten(ServerReply(model, body)) == Ok(LowRiskMessage)
  {
    var values := seq(|body|, i requires 0 <= i < |body| => body[i].value);
    assert values == seq(13, i requires 0 <= i < 13 => body[i].value);
    assert MlApi.Predict(model, values) == MlApi.ErrorBody("");
  }

  /** The page's state. */
  class PredictionForm {
    var features: seq<string>
    var prediction: Option<string>
    var error: Option<string>
    var formError: Option<string>
    var loading: bool
    /** Bodies posted to `{API_URL}/predict`, oldest first. */
    var requests: seq<seq<Number>>

    ghost predicate Valid()
      reads this
    {
      |features| == 13
    }

    /** Thirteen empty fields, nothing shown, nothing sent. */
    constructor ()
      ensures Valid() && features == seq(13, _ => "")
      ensures prediction == None && error == None && formError == None && !loading && requests == []
    {
      features := seq(13, _ => "");
      prediction, error, formError := None, None, None;
      loading := false;
      requests := [];
    }

    /** `handleChange(index, value)`: replaces one entry of a copy and clears the form error. */
    method HandleChange(index: nat, value: string)
      requires Valid() && index < 13
      modifies this
      ensures Valid()
      ensures features == old(features)[index := value]
      ensures forall j :: 0 <= j < 13 && j != index ==> features[j] == old(features)[j]
      ensures formError == None
      ensures prediction == old(prediction) && error == old(error) && loading == old(loading) && requests == old(requests)
    {
      var newFeatures := features;
      newFeatures := newFeatures[index := value];
      features := newFeatures;
      formError := None;
    }

    /** `handleSubmit`, from the click to the settled reply, as one step. The Predict
        button is disabled while a request is in flight. */
    method HandleSubmit(reply: Reply)
      requires Valid() && !loading
      modifies this
      ensures Valid() && features == old(features) && !loading
      ensures Validate(old(features)).Some? ==>
        formError == Validate(old(features)) && prediction == None && error == None && requests == old(requests)
      ensures Validate(old(features)).None? ==>
        formError == None && requests == old(requests) + [RequestBody(old(features))]
      ensures Validate(old(features)).None? && ClassifyReplyAsWritten(reply).Ok? ==>
        prediction == Some(ClassifyReplyAsWritten(reply).value) && error == None
      ensures Validate(old(features)).None? && ClassifyReplyAsWritten(reply).Err? ==>
        prediction == None && error == Some(FetchErrorMessage)
    {
      var validationError := ClearAndValidate();
      if validationError.Some? {
        return;
      }
      Send(reply);
    }

    /** The opening of `handleSubmit`: the shown results are cleared and the form is
        validated; a failed validation is shown as the form error. */
    method ClearAndValidate() returns (validationError: Option<string>)
      requires Valid()
      modifies this
      ensures Valid() && features == old(features) && loading == old(loading) && requests == old(requests)
      ensures validationError == Validate(features)
      ensures prediction == None && error == None && formError == validationError
    {
      prediction := None;
      error := None;
      formError := None;
      validationError := Validate(features);
      if validationError.Some? {
        formError := validationError;
      }
    }

    /** The `try` block of `handleSubmit`: the body is posted with `loading` set, and the
        reply becomes the prediction or the fetch error. */
    method Send(reply: Reply)
      requires Valid()
      modifies this
      ensures Valid() && features == old(features) && !loading && formError == old(formError)
      ensures requests == old(requests) + [RequestBody(features)]
      ensures ClassifyReplyAsWritten(reply).Ok? ==> prediction == Some(ClassifyReplyAsWritten(reply).value) && error == old(error)
      ensures ClassifyReplyAsWritten(reply).Err? ==> prediction == old(prediction) && error == Some(FetchErrorMessage)
    {
      loading := true;
      requests := requests + [RequestBody(features)];
      var outcome := ClassifyReplyAsWritten(reply);
      if outcome.Ok? {
        prediction := Some(outcome.value);
      } else {
        error := Some(FetchErrorMessage);
      }
      loading := false;
    }
  }
}
