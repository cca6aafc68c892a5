/** The unrouted prediction page: thirteen named numeric fields, a validator that
    collects every violated rule into one message, and a submit handler that posts
    the named-field object and maps the reply to a message and a confidence. */
module PredictPage {
  import opened Wrappers
  import opened Text
  import opened JsValues
  import opened JsObjects
  import MlApi
  import PC = PredictionComponent

  const ZeroMessage: string := "All fields must be filled with valid values (0 is not allowed)."
  const FailureMessage: string := "Failed to fetch prediction. Please try again."
  const HighRiskMessage: string := "\U{1F6A8} Heart Disease Detected! Please consult a doctor."
  const LowRiskMessage: string := "\U{2705} No Heart Disease Detected! Keep maintaining a healthy lifestyle."
  const PredictUrl: string := "/api/predict"

  /** `formData`: the thirteen named fields, in declaration order. */
  type Form = Object<Number>

  /** The initial state: every field is the number 0, keys in declaration order (the
      order of the scoring service's columns). */
  const InitialForm: Form := seq(13, i requires 0 <= i < 13 => (MlApi.FeatureNames[i], Finite(0.0)))

  /** The form's keys are the thirteen feature names, in order. */
  predicate NamedFields(form: Form)
  {
    |form| == |MlApi.FeatureNames| && forall i :: 0 <= i < |form| ==> form[i].0 == MlApi.FeatureNames[i]
  }

  /** The initial object has the thirteen keys, in the scoring service's column order. */
  lemma InitialKeys()
    ensures NamedFields(InitialForm)
  {
  }

  /** Assigning one of the thirteen names keeps the keys and their order. */
  lemma PutNamed(form: Form, name: string, v: Number)
    requires NamedFields(form) && name in MlApi.FeatureNames
    ensures NamedFields(Put(form, name, v))
  {
    KeysAt(form);
    assert Keys(form) == MlApi.FeatureNames;
    PutKeys(form, name, v);
    KeysAt(Put(form, name, v));
  }

  /** `formData.name`; a missing property is `undefined`, which compares like NaN. */
  function Field(form: Form, name: string): (n: Number)
    ensures name !in Keys(form) ==> n == NaN
  {
    Get(form, name).GetOr(NaN)
  }

  /** `Object.values(formData).some(val => val === 0)`: `=== 0` holds of a finite zero
      of either sign and of nothing else. */
  predicate HasZero(form: Form)
  {
    Finite(0.0) in Values(form)
  }

  /** The checks of the page in the order they are made. */
  function Checks(form: Form): seq<PC.Rule>
  {
    [ PC.Rule(PC.AgeOutOfRange(Field(form, "age")), PC.AgeMessage),
      PC.Rule(AtMost(Field(form, "chol"), 0.0), PC.CholesterolMessage),
      PC.Rule(AtMost(Field(form, "trestbps"), 0.0), PC.BloodPressureMessage),
      PC.Rule(AtMost(Field(form, "thalach"), 0.0), PC.HeartRateMessage),
      PC.Rule(Below(Field(form, "oldpeak"), 0.0), PC.StDepressionMessage),
      PC.Rule(HasZero(form), ZeroMessage) ]
  }

  /** The messages of the violated rules, in rule order. */
  function Violated(rules: seq<PC.Rule>): (ms: seq<string>)
    ensures |ms| <= |rules|
  {
    if rules == [] then []
    else
      var rest := Violated(rules[1..]);
      if rules[0].violated then [rules[0].message] + rest else rest
  }

  /** A message is collected exactly when some violated rule carries it, and nothing is
      collected exactly when no rule is violated. */
  lemma {:induction false} ViolatedMembers(rules: seq<PC.Rule>)
    ensures forall m :: m in Violated(rules) <==> exists i :: 0 <= i < |rules| && rules[i].violated && rules[i].message == m
    ensures Violated(rules) == [] <==> forall i :: 0 <= i < |rules| ==> !rules[i].violated
  {
    if rules != [] {
      ViolatedMembers(rules[1..]);
      assert forall i :: 1 <= i < |rules| ==> rules[i] == rules[1..][i - 1];
    }
  }

  /** Every message the page collects for a form. */
  function Violations(form: Form): seq<string>
  {
    Violated(Checks(form))
  }

  function Pushed(rule: PC.Rule): seq<string>
  {
    if rule.violated then [rule.message] else []
  }

  lemma ViolatedFrom(rs: seq<PC.Rule>, k: nat)
    requires k < |rs|
    ensures Violated(rs[k..]) == Pushed(rs[k]) + Violated(rs[k + 1..])
  {
    assert rs[k..][1..] == rs[k + 1..];
  }

  /** Collecting one more rule appends its message, if it is violated, at the end. */
  lemma {:induction false} ViolatedSnoc(rs: seq<PC.Rule>, r: PC.Rule)
    ensures Violated(rs + [r]) == Violated(rs) + Pushed(r)
  {
    if rs == [] {
      assert Violated([r]) == Pushed(r) by { assert [r][1..] == []; }
    } else {
      assert (rs + [r])[1..] == rs[1..] + [r];
      ViolatedSnoc(rs[1..], r);
    }
  }

  lemma PushStep(rs: seq<PC.Rule>, k: nat)
    requires k < |rs|
    ensures Violated(rs[..k + 1]) == Violated(rs[..k]) + Pushed(rs[k])
  {
    assert rs[..k + 1] == rs[..k] + [rs[k]];
    ViolatedSnoc(rs[..k], rs[k]);
  }

  /** The six-rule table, unrolled. */
  lemma ViolatedSix(rs: seq<PC.Rule>)
    requires |rs| == 6
    ensures Violated(rs) == Pushed(rs[0]) + (Pushed(rs[1]) + (Pushed(rs[2]) + (Pushed(rs[3]) + (Pushed(rs[4]) + Pushed(rs[5])))))
  {
    assert rs[0..] == rs;
    ViolatedFrom(rs, 0);
    ViolatedFrom(rs, 1);
    ViolatedFrom(rs, 2);
    ViolatedFrom(rs, 3);
    ViolatedFrom(rs, 4);
    ViolatedFrom(rs, 5);
    assert rs[6..] == [];
    assert Violated(rs[5..]) == Pushed(rs[5]);
  }

  /** With distinct messages, a message is collected exactly when its rule is violated. */
  lemma ViolatedMember(rs: seq<PC.Rule>, k: nat)
    requires k < |rs|
    requires forall i, j :: 0 <= i < j < |rs| ==> rs[i].message != rs[j].message
    ensures rs[k].message in Violated(rs) <==> rs[k].violated
  {
    ViolatedMembers(rs);
  }

  /** The six messages differ from one another. */
  lemma ChecksDistinct(form: Form)
    ensures forall i, j :: 0 <= i < j < |Checks(form)| ==> Checks(form)[i].message != Checks(form)[j].message
  {
    var rs := Checks(form);
    assert forall i, j :: 0 <= i < j < 6 ==> rs[i].message != rs[j].message;
  }

  /** Each message is collected exactly when its own rule is violated, whatever the
      other rules say. */
  lemma ViolationsIff(form: Form)
    ensures PC.AgeMessage in Violations(form) <==> PC.AgeOutOfRange(Field(form, "age"))
    ensures PC.CholesterolMessage in Violations(form) <==> AtMost(Field(form, "chol"), 0.0)
    ensures PC.BloodPressureMessage in Violations(form) <==> AtMost(Field(form, "trestbps"), 0.0)
    ensures PC.HeartRateMessage in Violations(form) <==> AtMost(Field(form, "thalach"), 0.0)
    ensures PC.StDepressionMessage in Violations(form) <==> Below(Field(form, "oldpeak"), 0.0)
    ensures ZeroMessage in Violations(form) <==> HasZero(form)
  {
    var rs := Checks(form);
    ChecksDistinct(form);
    ViolatedMember(rs, 0);
    ViolatedMember(rs, 1);
    ViolatedMember(rs, 2);
    ViolatedMember(rs, 3);
    ViolatedMember(rs, 4);
    ViolatedMember(rs, 5);
  }

  /** The all-zero initial form fails four bound checks and the zero rule; only the
      ST depression rule (which allows 0) passes. */
  lemma InitialFormFails()
    ensures Violations(InitialForm) ==
      [PC.AgeMessage, PC.CholesterolMessage, PC.BloodPressureMessage, PC.HeartRateMessage, ZeroMessage]
  {
    InitialFieldsZero();
    ZeroBoundsFail(InitialForm);
  }

  lemma InitialFieldsZero()
    ensures Field(InitialForm, "age") == Finite(0.0) && Field(InitialForm, "trestbps") == Finite(0.0)
    ensures Field(InitialForm, "chol") == Finite(0.0) && Field(InitialForm, "thalach") == Finite(0.0)
    ensures Field(InitialForm, "oldpeak") == Finite(0.0) && HasZero(InitialForm)
  {
    var f := InitialForm;
    KeysAt(f);
    ValuesAt(f);
    assert Keys(f) == MlApi.FeatureNames;
    forall k | k in MlApi.FeatureNames ensures Field(f, k) == Finite(0.0) {
      GetInValues(f, k);
    }
    assert Values(f)[0] == Finite(0.0);
  }

  /** A form whose five bound-checked fields are all 0 fails every check but the ST
      depression one. */
  lemma ZeroBoundsFail(form: Form)
    requires Field(form, "age") == Finite(0.0) && Field(form, "trestbps") == Finite(0.0)
    requires Field(form, "chol") == Finite(0.0) && Field(form, "thalach") == Finite(0.0)
    requires Field(form, "oldpeak") == Finite(0.0) && HasZero(form)
    ensures Violations(form) ==
      [PC.AgeMessage, PC.CholesterolMessage, PC.BloodPressureMessage, PC.HeartRateMessage, ZeroMessage]
  {
    AllButFifthViolated(Checks(form));
  }

  lemma AllButFifthViolated(rs: seq<PC.Rule>)
    requires |rs| == 6 && rs[0].violated && rs[1].violated && rs[2].violated && rs[3].violated
    requires !rs[4].violated && rs[5].violated
    ensures Violated(rs) == [rs[0].message, rs[1].message, rs[2].message, rs[3].message, rs[5].message]
  {
    ViolatedSix(rs);
  }

  /** An age of 0 draws both the age message and the zero message. */
  lemma ZeroAgeReportedTwice(form: Form)
    requires "age" in Keys(form) && Field(form, "age") == Finite(0.0)
    ensures PC.AgeMessage in Violations(form) && ZeroMessage in Violations(form)
  {
    GetInValues(form, "age");
    ViolationsIff(form);
  }

  /** `Number("")` is 0, so emptying a field of a well-formed form always draws the
      zero message. */
  lemma ClearedFieldIsZero(form: Form, name: string)
    requires name in Keys(form)
    ensures ZeroMessage in Violations(Put(form, name, StringToNumber("")))
  {
    var form' := Put(form, name, StringToNumber(""));
    assert StringToNumber("") == Finite(0.0);
    PutKeys(form, name, StringToNumber(""));
    PutGet(form, name, StringToNumber(""), name);
    GetInValues(form', name);
    ViolationsIff(form');
  }

  /** The reply body's "prediction" and "confidence" properties (`None`: absent). */
  datatype ReplyData = ReplyData(prediction: Option<Json>, confidence: Option<Json>)

  /** What `axios.post` settles with: a rejection (a transport failure or a non-2xx
      status), or a response whose `data` is an object, or is `null`. */
  datatype AxiosReply = Rejected | Resolved(data: Option<ReplyData>)

  /** One posted request: the URL and the body object. */
  datatype Post = Post(url: string, body: Form)

  /** `Number(response.data.prediction) === 1` picks the high-risk message. */
  function ResultMessage(prediction: Option<Json>): (message: string)
    ensures message == HighRiskMessage <==> StrictEquals(JsonToNumber(prediction), 1.0)
    ensures message == HighRiskMessage || message == LowRiskMessage
  {
    if StrictEquals(JsonToNumber(prediction), 1.0) then HighRiskMessage else LowRiskMessage
  }

  /** `response.data.confidence ?? null`. */
  function Confidence(confidence: Option<Json>): (c: Option<Json>)
    ensures c.None? <==> confidence.None? || confidence == Some(JNull)
    ensures c.Some? ==> c == confidence
  {
    match confidence
    case Some(JNull) => None
    case _ => confidence
  }

  /** The rule table collected one push at a time, in order. */
  lemma ViolationsAsPushes(form: Form)
    ensures var rs := Checks(form);
            Violations(form) == [] + Pushed(rs[0]) + Pushed(rs[1]) + Pushed(rs[2])
                                + Pushed(rs[3]) + Pushed(rs[4]) + Pushed(rs[5])
  {
    var rs := Checks(form);
    assert rs[..0] == [];
    PushStep(rs, 0);
    PushStep(rs, 1);
    PushStep(rs, 2);
    PushStep(rs, 3);
    PushStep(rs, 4);
    PushStep(rs, 5);
    assert rs[..6] == rs;
  }

  /** `if (failed) errors.push(message)`. */
  method PushIf(errors: seq<string>, failed: bool, message: string) returns (pushed: seq<string>)
    ensures pushed == errors + Pushed(PC.Rule(failed, message))
  {
    pushed := errors;
    if failed {
      pushed := pushed + [message];
    }
  }

  /** The page's state. */
  class PredictForm {
    var formData: Form
    var prediction: Option<string>
    var confidence: Option<Json>
    var loading: bool
    var error: Option<string>
    /** Requests posted, oldest first. */
    var posts: seq<Post>

    ghost predicate Valid()
      reads this
    {
      NamedFields(formData)
    }

    /** All thirteen fields 0, nothing shown, nothing sent. */
    constructor ()
      ensures Valid() && formData == InitialForm
      ensures prediction == None && confidence == None && !loading && error == None && posts == []
    {
      InitialKeys();
      formData := InitialForm;
      prediction, confidence, error := None, None, None;
      loading := false;
      posts := [];
    }

    /** `handleChange`: `{...prevData, [name]: Number(value)}` for the input's name, which
        is always one of the thirteen keys. */
    method HandleChange(name: string, value: string)
      requires Valid() && name in MlApi.FeatureNames
      modifies this
      ensures Valid()
      ensures formData == Put(old(formData), name, StringToNumber(value))
      ensures Field(formData, name) == StringToNumber(value)
      ensures forall k :: k != name ==> Field(formData, k) == Field(old(formData), k)
      ensures prediction == old(prediction) && confidence == old(confidence)
      ensures loading == old(loading) && error == old(error) && posts == old(posts)
    {
      SetFeature(name, StringToNumber(value));
    }

    /** The state update of `handleChange`, once the input's text has been converted. */
    method SetFeature(name: string, n: Number)
      requires Valid() && name in MlApi.FeatureNames
      modifies this
      ensures Valid()
      ensures formData == Put(old(formData), name, n)
      ensures Field(formData, name) == n
      ensures forall k :: k != name ==> Field(formData, k) == Field(old(formData), k)
      ensures prediction == old(prediction) && confidence == old(confidence)
      ensures loading == old(loading) && error == old(error) && posts == old(posts)
    {
      PutNamed(formData, name, n);
      forall k ensures Get(Put(formData, name, n), k) == (if k == name then Some(n) else Get(formData, k)) {
        PutGet(formData, name, n, k);
      }
      formData := Put(formData, name, n);
    }

    /** The validation block of `handleSubmit`: each failed rule pushes its message. */
    method CollectErrors() returns (errors: seq<string>)
      ensures errors == Violations(formData)
    {
      errors := [];
      errors := PushIf(errors, PC.AgeOutOfRange(Field(formData, "age")), PC.AgeMessage);
      errors := PushIf(errors, AtMost(Field(formData, "chol"), 0.0), PC.CholesterolMessage);
      errors := PushIf(errors, AtMost(Field(formData, "trestbps"), 0.0), PC.BloodPressureMessage);
      errors := PushIf(errors, AtMost(Field(formData, "thalach"), 0.0), PC.HeartRateMessage);
      errors := PushIf(errors, Below(Field(formData, "oldpeak"), 0.0), PC.StDepressionMessage);
      errors := PushIf(errors, HasZero(formData), ZeroMessage);
      ViolationsAsPushes(formData);
    }

    /** `handleSubmit`, from the submit event to the settled request, as one step. The
        submit button is disabled while a request is in flight. */
    method HandleSubmit(reply: AxiosReply)
      requires Valid() && !loading
      modifies this
      ensures Valid() && formData == old(formData) && !loading
      ensures Violations(formData) != [] ==>
        error == Some(Join(Violations(formData), " ")) && prediction == None && confidence == None
        && posts == old(posts)
      ensures Violations(formData) == [] ==> posts == old(posts) + [Post(PredictUrl, formData)]
      ensures Violations(formData) == [] && reply.Resolved? && reply.data.Some? ==>
        error == None && prediction == Some(ResultMessage(reply.data.value.prediction))
        && confidence == Confidence(reply.data.value.confidence)
      ensures Violations(formData) == [] && (reply.Rejected? || reply.data.None?) ==>
        error == Some(FailureMessage) && prediction == None && confidence == None
    {
      error := None;
      prediction := None;
      confidence := None;

      var validationErrors := CollectErrors();
      if |validationErrors| > 0 {
        error := Some(Join(validationErrors, " "));
        return;
      }

      loading := true;
      posts := posts + [Post(PredictUrl, formData)];
      match reply {
        case Rejected =>
          error := Some(FailureMessage);
        case Resolved(data) =>
          if data.None? {
            // reading a property of a null body throws
            error := Some(FailureMessage);
          } else {
            prediction := Some(ResultMessage(data.value.prediction));
            confidence := Confidence(data.value.confidence);
          }
      }
      loading := false;
    }
  }
}
