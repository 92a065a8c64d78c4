/**
 * The top-level screen router: which of the three screens is shown and the
 * prediction payload it holds, changed only by the four click handlers and by
 * the form's `onPredict` callback.
 */
module App {
  import opened Wrappers
  import ResultDisplay
  import PredictionForm

  datatype Page = Landing | Predict | ResultPage

  /** The screen rendered for a page; the result screen is handed the stored payload. */
  datatype Screen = LandingScreen | FormScreen | ResultScreen(result: Option<ResultDisplay.PredictionResult>)

  /** Exactly one screen per page value. */
  function ScreenFor(page: Page, result: Option<ResultDisplay.PredictionResult>): (screen: Screen)
    ensures screen.LandingScreen? <==> page == Landing
    ensures screen.FormScreen? <==> page == Predict
    ensures screen.ResultScreen? <==> page == ResultPage
    ensures screen.ResultScreen? ==> screen.result == result
  {
    match page
    case Landing => LandingScreen
    case Predict => FormScreen
    case ResultPage => ResultScreen(result)
  }

  /**
   * The two state cells `currentPage` and `result` (JSON `null` is `None`),
   * and the form component React keeps mounted while the predict page shows.
   */
  class AppState {
    var currentPage: Page
    var result: Option<ResultDisplay.PredictionResult>
    var form: PredictionForm.FormState?

    /** The result screen is never shown without a payload. */
    predicate ResultPresent()
      reads this
    {
      currentPage == ResultPage ==> result.Some?
    }

    /** A form is mounted exactly on the predict page. */
    predicate FormMounted()
      reads this
    {
      form != null <==> currentPage == Predict
    }

    constructor ()
      ensures currentPage == Landing && result.None? && form == null
      ensures ResultPresent() && FormMounted()
    {
      currentPage, result, form := Landing, None, null;
    }

    /**
     * `handleStart`, the landing page's call to action. Entering the predict
     * page mounts a new form with the default record; the page already
     * showing keeps its form.
     */
    method HandleStart()
      requires FormMounted()
      modifies this
      ensures currentPage == Predict && result == old(result)
      ensures ResultPresent() && FormMounted()
      ensures old(currentPage) != Predict ==>
        && fresh(form) && form.Valid()
        && form.formData == PredictionForm.InitialFormData()
        && !form.loading && form.error.None? && !form.awaiting
      ensures old(currentPage) == Predict ==> form == old(form)
    {
      if currentPage != Predict {
        form := new PredictionForm.FormState();
      }
      currentPage := Predict;
    }

    /**
     * `handlePredict`: stores whatever it is given and shows the result screen,
     * from any page, unmounting the form. The invariant survives exactly when
     * the data is not null.
     */
    method HandlePredict(data: Option<ResultDisplay.PredictionResult>)
      modifies this
      ensures currentPage == ResultPage && result == data && form == null
      ensures FormMounted()
      ensures ResultPresent() <==> data.Some?
    {
      result := data;
      currentPage := ResultPage;
      form := null;
    }

    /** `handleReset`, the "Start New Assessment" button. */
    method HandleReset()
      modifies this
      ensures currentPage == Landing && result.None? && form == null
      ensures ResultPresent() && FormMounted()
    {
      result := None;
      currentPage := Landing;
      form := null;
    }

    /** The navbar logo: back to the landing page, the payload is kept, the form unmounted. */
    method ClickLogo()
      modifies this
      ensures currentPage == Landing && result == old(result) && form == null
      ensures ResultPresent() && FormMounted()
    {
      currentPage := Landing;
      form := null;
    }

    /** The screen currently rendered. */
    function CurrentScreen(): (screen: Screen)
      reads this
      ensures screen == ScreenFor(currentPage, result)
      ensures ResultPresent() && screen.ResultScreen? ==> screen.result.Some?
    {
      ScreenFor(currentPage, result)
    }
  }

  /**
   * "Start New Assessment" followed by the landing page's call to action:
   * the stored result is gone and the form shows its default record again.
   */
  method ResetThenStart(app: AppState)
    modifies app
    ensures app.currentPage == Predict && app.result.None?
    ensures app.ResultPresent() && app.FormMounted()
    ensures fresh(app.form) && app.form.Valid()
    ensures app.form.formData == PredictionForm.InitialFormData()
    ensures !app.form.loading && app.form.error.None?
  {
    app.HandleReset();
    app.HandleStart();
  }

  /**
   * `<PredictionForm onPredict={handlePredict} />`: when a form's request
   * settles, a success moves the app to the result screen with the payload
   * and a failure leaves the app as it was. The form may already have been
   * unmounted (the logo was clicked meanwhile): its continuation still runs.
   */
  method FinishRequest(app: AppState, form: PredictionForm.FormState, outcome: PredictionForm.FetchOutcome)
    requires form.Valid() && form.awaiting
    modifies app, form
    ensures form.Valid() && !form.awaiting && form.formData == old(form.formData)
    ensures PredictionForm.Succeeded(outcome) ==>
      && form.loading && form.error.None?
      && app.currentPage == ResultPage && app.form == null
      && app.result == outcome.body.value
      && (app.ResultPresent() <==> outcome.body.value.Some?)
    ensures !PredictionForm.Succeeded(outcome) ==>
      && !form.loading && form.error == Some(PredictionForm.ConnectionError)
      && app.currentPage == old(app.currentPage) && app.result == old(app.result)
      && app.form == old(app.form)
  {
    var delivered := form.Complete(outcome);
    if delivered.Some? {
      app.HandlePredict(delivered.value);
    }
  }
}
