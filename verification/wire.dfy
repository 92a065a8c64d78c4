/**
 * How the pieces meet over HTTP: the form's request body against the
 * backend's feature order, and the backend's response as the result screen
 * reads it — including the risk labels the two sides disagree on.
 */
module Wire {
  import opened Wrappers
  import opened Importance
  import Backend
  import PredictionForm
  import ResultDisplay

  /** The backend's JSON object as the result screen destructures it. */
  function Received(response: Backend.Response): ResultDisplay.PredictionResult {
    ResultDisplay.PredictionResult(
      response.prediction, response.probability, response.riskLevel, Some(response.featureImportance))
  }

  /** The form posts exactly the backend's training columns, in the same order. */
  lemma RequestKeysAreBackendFeatures(v: PredictionForm.Vitals)
    ensures |PredictionForm.Body(v)| == |Backend.Features|
    ensures forall i :: 0 <= i < |Backend.Features| ==> PredictionForm.Body(v)[i].0 == Backend.Features[i]
  {
  }

  /** As written: whatever the probability, the backend's label selects the green check-mark theme. */
  lemma BackendResponseThemeIsGreen(model: Option<Backend.Model>, data: Backend.PatientData)
    requires Backend.PredictDiabetes(model, data).Success?
    ensures ResultDisplay.Render(Received(Backend.PredictDiabetes(model, data).value)).theme
            == ResultDisplay.LowTheme
  {
  }

  /** A probability of 0.9 is labelled "High Risk" yet shown green, under the heading "High Risk Risk Level". */
  lemma HighProbabilityShownAsLowRisk()
    ensures
      var model := Backend.Model(row => 1, row => 0.9, None, None);
      var data := Backend.PatientData(6, 148.0, 72.0, 35.0, 0.0, 33.6, 0.627, 50);
      var r := Backend.PredictDiabetes(Some(model), data);
      && r.Success? && r.value.probability >= 0.5 && r.value.riskLevel == "High Risk"
      && ResultDisplay.Render(Received(r.value)).theme == ResultDisplay.LowTheme
      && ResultDisplay.Render(Received(r.value)).heading == "High Risk Risk Level"
  {
  }

  /** The theme selection the two sides evidently intend: it also recognises the backend's own labels. */
  function ThemeForBackendLabel(riskLevel: string): (theme: ResultDisplay.Theme)
    ensures theme == ResultDisplay.HighTheme <==> riskLevel == "High" || riskLevel == "High Risk"
    ensures theme == ResultDisplay.MediumTheme <==> riskLevel == "Medium" || riskLevel == "Medium Risk"
    ensures theme == ResultDisplay.LowTheme <==>
      riskLevel != "High" && riskLevel != "High Risk" && riskLevel != "Medium" && riskLevel != "Medium Risk"
  {
    if riskLevel == "High Risk" then ResultDisplay.HighTheme
    else if riskLevel == "Medium Risk" then ResultDisplay.MediumTheme
    else ResultDisplay.ThemeFor(riskLevel)
  }

  /** With the corrected selection the alarm theme is shown exactly when the probability is at least 0.5. */
  lemma CorrectedThemeTracksProbability(model: Option<Backend.Model>, data: Backend.PatientData)
    requires Backend.PredictDiabetes(model, data).Success?
    ensures var r := Backend.PredictDiabetes(model, data).value;
            && (ThemeForBackendLabel(r.riskLevel) == ResultDisplay.HighTheme <==> r.probability >= 0.5)
            && (ThemeForBackendLabel(r.riskLevel) == ResultDisplay.LowTheme <==> r.probability < 0.5)
  {
  }

  /**
   * The factors chart for a backend response: shown exactly when the model
   * exposes a non-empty weight vector, at most eight bars, each named after a
   * training column.
   */
  lemma {:induction false} BackendFactorsChart(model: Backend.Model, data: Backend.PatientData)
    ensures
      var view := ResultDisplay.Render(Received(Backend.PredictDiabetes(Some(model), data).value));
      && (view.factors.Some? <==> Backend.ImportanceMap(model) != [])
      && (view.factors.Some? ==>
            && |view.factors.value| <= |Backend.Features|
            && forall i :: 0 <= i < |view.factors.value| ==> view.factors.value[i].name in Backend.Features)
  {
    var imp := Backend.ImportanceMap(model);
    var ranked := ResultDisplay.SortedFeatures(Some(imp));
    forall i | 0 <= i < |ranked|
      ensures ranked[i].name in Backend.Features
    {
      assert ranked[i] in multiset(ranked);
      assert ranked[i] in imp;
    }
  }
}
