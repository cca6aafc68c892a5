/** The scoring service's `POST /predict` route: guard checks, the fixed column
    order of the model's input row and the shape of the JSON body it returns.
    The trained classifier is an uninterpreted function supplied by the caller. */
module MlApi {
  import opened Text
  import opened Wrappers

  /** The model's column names, in the order the input row is built. */
  const FeatureNames: seq<string> :=
    ["age", "sex", "cp", "trestbps", "chol", "fbs", "restecg", "thalach", "exang", "oldpeak", "slope", "ca", "thal"]

  const ModelNotLoaded: string := "Model not loaded. Please check the server logs."

  /** One input row: column name and value. */
  type Row = seq<(string, real)>

  /** What `model.predict(input_df)[0]` yields for one row: a label or a raised exception
      (whose `str(e)` is the message). */
  datatype Prediction = Label(value: real) | Raised(message: string)

  /** The loaded classifier; `None` when loading the pickle failed at start-up. */
  type Model = Option<Row -> Prediction>

  /** The returned JSON body: exactly one of the keys "error" and "prediction". */
  datatype Body = ErrorBody(error: string) | PredictionBody(prediction: int)

  /** The message for a wrong feature count, with the count in decimal. */
  function WrongCountMessage(n: nat): string
  {
    "\U{274C} Expected 13 features, but got " + ShowNat(n) + "."
  }

  /** Different counts give different messages: the message reports the count exactly. */
  lemma WrongCountMessageInjective(a: nat, b: nat)
    requires WrongCountMessage(a) == WrongCountMessage(b)
    ensures a == b
  {
    var prefix := "\U{274C} Expected 13 features, but got ";
    var ma, mb := WrongCountMessage(a), WrongCountMessage(b);
    assert |ma| == |mb|;
    assert ShowNat(a) == ma[|prefix|..|ma| - 1];
    assert ShowNat(b) == mb[|prefix|..|mb| - 1];
    ShowNatRoundTrip(a);
    ShowNatRoundTrip(b);
  }

  /** Python's `int(x)` of a float: truncation toward zero. */
  function PyInt(x: real): (i: int)
    ensures x >= 0.0 ==> i as real <= x < i as real + 1.0
    ensures x < 0.0 ==> i as real - 1.0 < x <= i as real
  {
    if x >= 0.0 then x.Floor else -((-x).Floor)
  }

  /** `pd.DataFrame([features], columns=FEATURE_NAMES)`: the values paired with the names. */
  function InputRow(features: seq<real>): (row: Row)
    requires |features| == |FeatureNames|
    ensures |row| == |features|
    ensures forall i :: 0 <= i < |row| ==> row[i] == (FeatureNames[i], features[i])
  {
    seq(|features|, i requires 0 <= i < |features| => (FeatureNames[i], features[i]))
  }

  /** The route: the model check comes first, then the count check, then the classifier;
      any exception it raises becomes an error body carrying `str(e)`. */
  function Predict(model: Model, features: seq<real>): (body: Body)
    ensures model.None? ==> body == ErrorBody(ModelNotLoaded)
    ensures model.Some? && |features| != 13 ==> body == ErrorBody(WrongCountMessage(|features|))
    ensures model.Some? && |features| == 13 ==>
      match model.value(InputRow(features))
      case Label(v) => body == PredictionBody(PyInt(v))
      case Raised(m) => body == ErrorBody(m)
  {
    if model.None? then ErrorBody(ModelNotLoaded)
    else if |features| != 13 then ErrorBody(WrongCountMessage(|features|))
    else
      match model.value(InputRow(features))
      case Label(v) => PredictionBody(PyInt(v))
      case Raised(m) => ErrorBody(m)
  }
}
