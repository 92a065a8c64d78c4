/**
 * The patient assessment form: an eight-field vitals record edited one field
 * at a time, the endpoint it posts to, and the loading/error lifecycle of a
 * submission whose network outcome is an input.
 */
module PredictionForm {
  import opened Wrappers
  import ResultDisplay

  datatype Field =
    | Pregnancies | Glucose | BloodPressure | SkinThickness
    | Insulin | BMI | DiabetesPedigreeFunction | Age

  /** The JSON key of each field, as it appears in the request body. */
  function FieldName(f: Field): string {
    match f
    case Pregnancies => "Pregnancies"
    case Glucose => "Glucose"
    case BloodPressure => "BloodPressure"
    case SkinThickness => "SkinThickness"
    case Insulin => "Insulin"
    case BMI => "BMI"
    case DiabetesPedigreeFunction => "DiabetesPedigreeFunction"
    case Age => "Age"
  }

  /** The form's `formData` record. */
  datatype Vitals = Vitals(
    pregnancies: real,
    glucose: real,
    bloodPressure: real,
    skinThickness: real,
    insulin: real,
    bmi: real,
    diabetesPedigreeFunction: real,
    age: real)

  function Get(v: Vitals, f: Field): real {
    match f
    case Pregnancies => v.pregnancies
    case Glucose => v.glucose
    case BloodPressure => v.bloodPressure
    case SkinThickness => v.skinThickness
    case Insulin => v.insulin
    case BMI => v.bmi
    case DiabetesPedigreeFunction => v.diabetesPedigreeFunction
    case Age => v.age
  }

  /** The record the form starts with each time it is shown. */
  function InitialFormData(): (v: Vitals)
    ensures Get(v, Pregnancies) == 0.0 && Get(v, Glucose) == 100.0
    ensures Get(v, BloodPressure) == 72.0 && Get(v, SkinThickness) == 20.0
    ensures Get(v, Insulin) == 0.0 && Get(v, BMI) == 30.0
    ensures Get(v, DiabetesPedigreeFunction) == 0.5 && Get(v, Age) == 30.0
  {
    Vitals(0.0, 100.0, 72.0, 20.0, 0.0, 30.0, 0.5, 30.0)
  }

  /** The spread `{ ...prev, [name]: x }`: one field replaced, the others kept. */
  function WithField(v: Vitals, f: Field, x: real): (r: Vitals)
    ensures Get(r, f) == x
    ensures forall g :: g != f ==> Get(r, g) == Get(v, g)
  {
    match f
    case Pregnancies => v.(pregnancies := x)
    case Glucose => v.(glucose := x)
    case BloodPressure => v.(bloodPressure := x)
    case SkinThickness => v.(skinThickness := x)
    case Insulin => v.(insulin := x)
    case BMI => v.(bmi := x)
    case DiabetesPedigreeFunction => v.(diabetesPedigreeFunction := x)
    case Age => v.(age := x)
  }

  /**
   * `parseFloat(value) || 0`, where `parsed` is what `parseFloat` made of the
   * input text (`None` for NaN, i.e. no numeric prefix). NaN and 0 are the
   * falsy numbers, so both store 0.
   */
  function Coerce(parsed: Option<real>): (x: real)
    ensures parsed.None? ==> x == 0.0
    ensures parsed.Some? ==> x == parsed.value
  {
    match parsed
    case None => 0.0
    case Some(n) => if n == 0.0 then 0.0 else n
  }

  /** Coercing an already coerced number changes nothing. */
  lemma CoerceIsIdempotent(parsed: Option<real>)
    ensures Coerce(Some(Coerce(parsed))) == Coerce(parsed)
  {
  }

  /** `handleChange`: the named field takes the coerced input, nothing else moves. */
  function HandleChange(v: Vitals, f: Field, parsed: Option<real>): (r: Vitals)
    ensures Get(r, f) == (if parsed.Some? then parsed.value else 0.0)
    ensures forall g :: g != f ==> Get(r, g) == Get(v, g)
  {
    WithField(v, f, Coerce(parsed))
  }

  /** The record's keys in insertion order, as `JSON.stringify` writes them. */
  const FieldOrder: seq<Field> :=
    [Pregnancies, Glucose, BloodPressure, SkinThickness, Insulin, BMI, DiabetesPedigreeFunction, Age]

  /** Where a field stands in `FieldOrder`. */
  function Position(f: Field): (i: nat)
    ensures i < |FieldOrder| && FieldOrder[i] == f
  {
    match f
    case Pregnancies => 0
    case Glucose => 1
    case BloodPressure => 2
    case SkinThickness => 3
    case Insulin => 4
    case BMI => 5
    case DiabetesPedigreeFunction => 6
    case Age => 7
  }

  /** `JSON.stringify(formData)`: every field under its own key, in `FieldOrder`. */
  function Body(v: Vitals): (body: seq<(string, real)>)
    ensures |body| == 8
    ensures forall i, j :: 0 <= i < j < |body| ==> body[i].0 != body[j].0
    ensures forall f :: (FieldName(f), Get(v, f)) in body
  {
    var body := seq(|FieldOrder|, i requires 0 <= i < |FieldOrder| => (FieldName(FieldOrder[i]), Get(v, FieldOrder[i])));
    assert forall f :: body[Position(f)] == (FieldName(f), Get(v, f));
    body
  }

  const DefaultApiUrl := "http://localhost:8000"

  /** `VITE_API_URL || 'http://localhost:8000'`: an unset or empty variable selects the default. */
  function ApiBase(env: Option<string>): (base: string)
    ensures base != ""
    ensures env.Some? && env.value != "" ==> base == env.value
    ensures env.None? || env.value == "" ==> base == DefaultApiUrl
  {
    if env.Some? && env.value != "" then env.value else DefaultApiUrl
  }

  /** `url.replace(/\/$/, '')`: removes one `/` at the very end, if there is one. */
  function StripTrailingSlash(url: string): (r: string)
    ensures r + "/" == url <==> |url| > 0 && url[|url| - 1] == '/'
    ensures r == url <==> !(|url| > 0 && url[|url| - 1] == '/')
  {
    if |url| > 0 && url[|url| - 1] == '/' then url[..|url| - 1] else url
  }

  /** The request target. */
  function PredictUrl(env: Option<string>): (url: string)
    ensures |url| >= |"/predict"| && url[|url| - |"/predict"|..] == "/predict"
  {
    StripTrailingSlash(ApiBase(env)) + "/predict"
  }

  /**
   * The configured base and the endpoint agree: a base ending in `/` shares
   * that slash with the path, any other base is kept whole.
   */
  lemma {:induction false} PredictUrlJoinsBase(env: Option<string>)
    ensures var base := ApiBase(env);
            if base[|base| - 1] == '/' then PredictUrl(env) == base + "predict"
            else PredictUrl(env) == base + "/predict"
  {
    var base := ApiBase(env);
    var stripped := StripTrailingSlash(base);
    if base[|base| - 1] == '/' {
      assert stripped + "/" == base;
      assert stripped + "/predict" == (stripped + "/") + "predict";
    }
  }

  /** Only one slash is removed: a base ending in `//` still yields a doubled slash. */
  lemma OnlyOneSlashRemoved()
    ensures PredictUrl(Some("http://api//")) == "http://api//predict"
  {
    assert StripTrailingSlash("http://api//") == "http://api/";
  }

  /** The `fetch` call the form issues. */
  datatype Request = Request(url: string, httpMethod: string, contentType: string, body: seq<(string, real)>)

  /** What `response.json()` gives: a payload, JSON `null` (`Parsed(None)`), or a parse error. */
  datatype JsonBody = Unparsable | Parsed(value: Option<ResultDisplay.PredictionResult>)

  /** How the request ended: the fetch promise rejected, or a response arrived. */
  datatype FetchOutcome = Rejected | Responded(ok: bool, body: JsonBody)

  /** Only an ok response whose body parses reaches `onPredict`; everything else is caught. */
  predicate Succeeded(outcome: FetchOutcome) {
    outcome.Responded? && outcome.ok && outcome.body.Parsed?
  }

  const ConnectionError :=
    "Unable to connect to the AI engine. Please ensure the backend server is active."

  /**
   * The form component's state. `awaiting` stands for the pending `fetch`
   * between `handleSubmit`'s first statements and its continuation.
   */
  class FormState {
    var formData: Vitals
    var loading: bool
    var error: Option<string>
    var awaiting: bool

    /** While a request is in flight the button is disabled and no error is shown. */
    predicate Valid()
      reads this
    {
      awaiting ==> loading && error.None?
    }

    constructor ()
      ensures Valid()
      ensures formData == InitialFormData() && !loading && error.None? && !awaiting
    {
      formData := InitialFormData();
      loading, error, awaiting := false, None, false;
    }

    /** An input or slider change. */
    method Change(f: Field, parsed: Option<real>)
      requires Valid()
      modifies this
      ensures Valid()
      ensures formData == HandleChange(old(formData), f, parsed)
      ensures loading == old(loading) && error == old(error) && awaiting == old(awaiting)
    {
      formData := HandleChange(formData, f, parsed);
    }

    /**
     * A press of the submit button. A disabled button (while `loading`) does
     * nothing; otherwise the form shows the spinner, clears the error and
     * posts the whole record to the endpoint.
     */
    method Submit(env: Option<string>) returns (request: Option<Request>)
      requires Valid()
      modifies this
      ensures Valid()
      ensures old(loading) ==> request.None? && unchanged(this)
      ensures !old(loading) ==>
        && request == Some(Request(PredictUrl(env), "POST", "application/json", Body(formData)))
        && loading && error.None? && awaiting
        && formData == old(formData)
    {
      if loading {
        request := None;
      } else {
        loading := true;
        error := None;
        awaiting := true;
        request := Some(Request(PredictUrl(env), "POST", "application/json", Body(formData)));
      }
    }

    /**
     * The continuation after the request settles. On success the payload goes
     * to `onPredict` and `loading` is never reset; on any failure the fixed
     * message is shown, `loading` is cleared and `onPredict` is not called.
     */
    method Complete(outcome: FetchOutcome) returns (onPredict: Option<Option<ResultDisplay.PredictionResult>>)
      requires Valid() && awaiting
      modifies this
      ensures Valid() && !awaiting && formData == old(formData)
      ensures Succeeded(outcome) ==>
        onPredict == Some(outcome.body.value) && loading && error.None?
      ensures !Succeeded(outcome) ==>
        onPredict.None? && !loading && error == Some(ConnectionError)
    {
      awaiting := false;
      if outcome.Responded? && outcome.ok && outcome.body.Parsed? {
        onPredict := Some(outcome.body.value);
      } else {
        onPredict := None;
        error := Some(ConnectionError);
        loading := false;
      }
    }
  }
}
