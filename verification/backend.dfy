/**
 * The `/predict` endpoint of the FastAPI backend: it lays the patient record
 * out in the fixed training-column order, asks the loaded classifier for a
 * label and a probability, picks a feature-importance dictionary and labels
 * the risk. The classifier itself is foreign code; its answers are inputs.
 */
module Backend {
  import opened Wrappers
  import opened Importance

  /** The training columns, in the order the classifier expects them. */
  const Features: seq<string> :=
    ["Pregnancies", "Glucose", "BloodPressure", "SkinThickness",
     "Insulin", "BMI", "DiabetesPedigreeFunction", "Age"]

  /** The request body after validation (the `PatientData` schema). */
  datatype PatientData = PatientData(
    pregnancies: int,
    glucose: real,
    bloodPressure: real,
    skinThickness: real,
    insulin: real,
    bmi: real,
    diabetesPedigreeFunction: real,
    age: int)

  /** A classifier loaded from disk: its two prediction calls on one input row and the attributes it may carry. */
  datatype Model = Model(
    predict: seq<real> -> int,
    predictProbability: seq<real> -> real,
    featureImportances: Option<seq<real>>,
    coefficients: Option<seq<real>>)

  /** The JSON object the endpoint returns: always exactly these four keys. */
  datatype Response = Response(
    prediction: int,
    probability: real,
    riskLevel: string,
    featureImportance: seq<Entry>)

  datatype HttpError = HttpError(status: int, detail: string)

  const ModelMissing := HttpError(500, "Model file missing from server.")

  /** The value of `data` under the attribute named `column`, if there is one. */
  function Column(data: PatientData, column: string): Option<real> {
    if column == "Pregnancies" then Some(data.pregnancies as real)
    else if column == "Glucose" then Some(data.glucose)
    else if column == "BloodPressure" then Some(data.bloodPressure)
    else if column == "SkinThickness" then Some(data.skinThickness)
    else if column == "Insulin" then Some(data.insulin)
    else if column == "BMI" then Some(data.bmi)
    else if column == "DiabetesPedigreeFunction" then Some(data.diabetesPedigreeFunction)
    else if column == "Age" then Some(data.age as real)
    else None
  }

  /** The one-row data frame handed to the classifier. */
  function InputRow(data: PatientData): (row: seq<real>)
    ensures |row| == |Features|
    ensures forall i :: 0 <= i < |Features| ==> Column(data, Features[i]) == Some(row[i])
  {
    [data.pregnancies as real, data.glucose, data.bloodPressure, data.skinThickness,
     data.insulin, data.bmi, data.diabetesPedigreeFunction, data.age as real]
  }

  lemma FeaturesAreDistinct()
    ensures forall i, j :: 0 <= i < j < |Features| ==> Features[i] != Features[j]
  {
  }

  /** Python's `zip`: pairs positionally and stops at the shorter input. */
  function Zip(names: seq<string>, values: seq<real>): (r: seq<Entry>)
    ensures |r| == if |names| <= |values| then |names| else |values|
    ensures forall i :: 0 <= i < |r| ==> r[i] == Entry(names[i], values[i])
  {
    if names == [] || values == [] then []
    else [Entry(names[0], values[0])] + Zip(names[1..], values[1..])
  }

  /** `dict(zip(features, values))`: the training columns paired with the weights. */
  function FeatureWeights(values: seq<real>): (imp: seq<Entry>)
    ensures DistinctNames(imp)
    ensures |imp| == if |values| < |Features| then |values| else |Features|
    ensures forall i :: 0 <= i < |imp| ==> imp[i].name == Features[i] && imp[i].weight == values[i]
  {
    FeaturesAreDistinct();
    Zip(Features, values)
  }

  /**
   * The importance dictionary: the tree ensemble's `feature_importances_` when
   * present, else the linear model's first coefficient row, else empty.
   */
  function ImportanceMap(model: Model): (imp: seq<Entry>)
    ensures DistinctNames(imp) && |imp| <= |Features|
    ensures forall e :: e in imp ==> e.name in Features
    ensures model.featureImportances.Some? ==> imp == FeatureWeights(model.featureImportances.value)
    ensures model.featureImportances.None? && model.coefficients.Some? ==>
              imp == FeatureWeights(model.coefficients.value)
    ensures model.featureImportances.None? && model.coefficients.None? ==> imp == []
  {
    match model.featureImportances
    case Some(weights) => FeatureWeights(weights)
    case None =>
      match model.coefficients
      case Some(weights) => FeatureWeights(weights)
      case None => []
  }

  /** The label attached to the probability of the positive class. */
  function RiskLevel(probability: real): (level: string)
    ensures level == "High Risk" <==> probability >= 0.5
    ensures level == "Low Risk" <==> probability < 0.5
    ensures level != "High" && level != "Medium" && level != "Low"
  {
    if probability >= 0.5 then "High Risk" else "Low Risk"
  }

  /** `predict_diabetes`: fails with status 500 when no model was loaded. */
  function PredictDiabetes(model: Option<Model>, data: PatientData): (r: Result<Response, HttpError>)
    ensures r.Failure? <==> model.None?
    ensures r.Failure? ==> r.error.status == 500 && r.error == ModelMissing
    ensures r.Success? ==>
      var row := InputRow(data);
      && r.value.prediction == model.value.predict(row)
      && r.value.probability == model.value.predictProbability(row)
      && (r.value.riskLevel == "High Risk" <==> r.value.probability >= 0.5)
      && (r.value.riskLevel == "Low Risk" <==> r.value.probability < 0.5)
      && r.value.featureImportance == ImportanceMap(model.value)
  {
    match model
    case None => Failure(ModelMissing)
    case Some(m) =>
      var row := InputRow(data);
      var probability := m.predictProbability(row);
      Success(Response(m.predict(row), probability, RiskLevel(probability), ImportanceMap(m)))
  }
}
