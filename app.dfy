/** The workflow controller: four pieces of state, the submission handler (split
    at its one await into BeginAnalysis and CompleteAnalysis), the reset handler
    and the choice of panels. */
module App {
  import opened Wrappers
  import opened Text
  import opened Json
  import opened FeedbackForm
  import GeminiService

  const BlankInputMessage: string := "Please enter some feedback to analyze."
  const UnknownErrorMessage: string := "An unknown error occurred during analysis."

  /** What a rejected analysis threw: an Error object with its message, or a
      value of any other kind. */
  datatype Thrown = ErrorObject(message: string) | OtherValue

  /** How the awaited analysis settles. */
  datatype Outcome = Resolved(value: Json) | Rejected(reason: Thrown)

  /** The four state cells. `analysis` holds whatever the analysis resolved to
      (JNull for null); `error` is None for null. */
  datatype AppState = AppState(feedback: string, analysis: Json, isLoading: bool, error: Option<string>)

  const Initial: AppState := AppState("", JNull, false, None)

  /** The message recorded for a rejection. */
  function FailureMessage(t: Thrown): (m: string)
    ensures t.ErrorObject? ==> m == t.message
    ensures t.OtherValue? ==> m == UnknownErrorMessage
  {
    match t
    case ErrorObject(message) => message
    case OtherValue => UnknownErrorMessage
  }

  /** Which panels are rendered below the form. */
  datatype Panels = Panels(loader: bool, errorMessage: bool, analysisDisplay: bool, welcome: bool)

  /** `error && ...`: an error is shown only when it is a non-empty string. */
  predicate ErrorShown(error: Option<string>)
    ensures ErrorShown(error) <==> error != None && error != Some("")
  {
    error.Some? && error.value != ""
  }

  /** The four independent render conditions. They are not a first-match
      chain: the error and the result can show together. */
  function PanelsOf(s: AppState): (p: Panels)
    ensures p.loader <==> s.isLoading
    ensures p.welcome <==> !p.loader && !p.errorMessage && !p.analysisDisplay
    ensures !(p.loader && p.analysisDisplay)
    ensures p.errorMessage <==> ErrorShown(s.error)
    ensures p.analysisDisplay <==> Truthy(s.analysis) && !s.isLoading
    ensures p.welcome <==> !s.isLoading && !ErrorShown(s.error) && !Truthy(s.analysis)
  {
    Panels(
      s.isLoading,
      ErrorShown(s.error),
      Truthy(s.analysis) && !s.isLoading,
      !s.isLoading && !ErrorShown(s.error) && !Truthy(s.analysis))
  }

  /** The state after the synchronous part of the handler, and whether it went
      on to await the analysis. */
  datatype Step = Step(started: bool, state: AppState)

  /** The blank guard and the setup before the await. A blank submission only
      sets the error; otherwise loading starts with error and result cleared,
      so only the loader shows. */
  function Begin(s: AppState): (r: Step)
    ensures r.started <==> !AllTrimmable(s.feedback)
    ensures !r.started ==> r.state == s.(error := Some(BlankInputMessage))
    ensures r.started ==> r.state == s.(isLoading := true, error := None, analysis := JNull)
    ensures r.started ==> PanelsOf(r.state) == Panels(true, false, false, false)
  {
    BlankIffAllTrimmable(s.feedback);
    if IsBlank(s.feedback) then Step(false, s.(error := Some(BlankInputMessage)))
    else Step(true, s.(isLoading := true, error := None, analysis := JNull))
  }

  /** The part after the await: record the result or the failure message, then
      clear the loading flag. What it does not write keeps its value, whatever
      happened while the analysis was outstanding. */
  function Complete(s: AppState, outcome: Outcome): (r: AppState)
    ensures !r.isLoading && r.feedback == s.feedback
    ensures outcome.Resolved? ==> r.analysis == outcome.value && r.error == s.error
    ensures outcome.Rejected? ==> r.error == Some(FailureMessage(outcome.reason)) && r.analysis == s.analysis
  {
    var recorded :=
      match outcome
      case Resolved(value) => s.(analysis := value)
      case Rejected(reason) => s.(error := Some(FailureMessage(reason)));
    recorded.(isLoading := false)
  }

  /** `handleAnalysis` from start to finish, when nothing intervenes at the await. */
  function Submit(s: AppState, outcome: Outcome): (r: AppState)
    ensures AllTrimmable(s.feedback) ==> r == s.(error := Some(BlankInputMessage))
    ensures !AllTrimmable(s.feedback) ==> !r.isLoading && r.feedback == s.feedback
    ensures !AllTrimmable(s.feedback) && outcome.Resolved? ==> r.analysis == outcome.value && r.error == None
    ensures !AllTrimmable(s.feedback) && outcome.Rejected? ==>
      r.analysis == JNull && r.error == Some(FailureMessage(outcome.reason))
  {
    var step := Begin(s);
    if step.started then Complete(step.state, outcome) else step.state
  }

  /** `handleReset`: from any state, back to the initial one, where only the
      welcome panel shows. */
  function Reset(s: AppState): (r: AppState)
    ensures r.feedback == "" && r.analysis == JNull && !r.isLoading && r.error == None
    ensures PanelsOf(r) == Panels(false, false, false, true)
  {
    Initial
  }

  lemma ResetIdempotent(s: AppState)
    ensures Reset(Reset(s)) == Reset(s)
  {
  }

  /** While the Analyze button is enabled, the blank guard cannot fire: both
      use the same trim test. */
  lemma EnabledButtonPassesGuard(s: AppState)
    requires !Form(s.feedback, s.isLoading).buttonDisabled
    ensures Begin(s).started
  {
  }

  /** A blank submission after a success leaves the result in place and adds
      the error, so both panels render. */
  lemma BlankSubmitAfterSuccess(s: AppState, v: Json, blank: string, outcome: Outcome)
    requires !AllTrimmable(s.feedback) && Truthy(v) && AllTrimmable(blank)
    ensures var shown := Submit(Submit(s, Resolved(v)).(feedback := blank), outcome);
      shown.analysis == v && shown.error == Some(BlankInputMessage) &&
      PanelsOf(shown).errorMessage && PanelsOf(shown).analysisDisplay
  {
  }

  /** An Error with an empty message is falsy, so after such a rejection the
      welcome panel shows instead of an error. */
  lemma EmptyMessageShowsWelcome(s: AppState)
    requires !AllTrimmable(s.feedback)
    ensures PanelsOf(Submit(s, Rejected(ErrorObject("")))) == Panels(false, false, false, true)
  {
  }

  /** Nothing tags a request: a reset while it is outstanding does not stop
      its completion from recording the result and showing it. */
  lemma LateCompletionAfterReset(s: AppState, v: Json)
    requires !AllTrimmable(s.feedback) && Truthy(v)
    ensures var late := Complete(Reset(Begin(s).state), Resolved(v));
      late.feedback == "" && late.analysis == v && PanelsOf(late).analysisDisplay
  {
  }

  /** How the service's result settles the await: it throws an Error carrying
      the message. */
  function OutcomeOf(r: Result<Json, string>): (o: Outcome)
    ensures r.Ok? ==> o == Resolved(r.value)
    ensures r.Err? ==> o == Rejected(ErrorObject(r.error))
  {
    match r
    case Ok(value) => Resolved(value)
    case Err(message) => Rejected(ErrorObject(message))
  }

  /** A non-blank submission against the real client ends with exactly one
      panel: the result when the reply passed the check, otherwise the generic
      failure message. */
  lemma SubmitWithService(s: AppState, generate: string -> GeminiService.Generation, parse: string -> Option<Json>)
    requires !AllTrimmable(s.feedback)
    ensures var r := GeminiService.AnalyzeSentiment(s.feedback, generate, parse);
      var after := Submit(s, OutcomeOf(r));
      (r.Ok? ==> after.analysis == r.value && after.error == None &&
                 PanelsOf(after) == Panels(false, false, true, false)) &&
      (r.Err? ==> after.analysis == JNull && after.error == Some(GeminiService.GenericFailureMessage) &&
                  PanelsOf(after) == Panels(false, true, false, false))
  {
    var r := GeminiService.AnalyzeSentiment(s.feedback, generate, parse);
    var after := Submit(s, OutcomeOf(r));
    if r.Ok? {
      assert r.value.JObject?;
      assert Truthy(after.analysis);
    } else {
      assert after.error == Some(GeminiService.GenericFailureMessage);
      assert ErrorShown(after.error);
    }
  }

  /** The component's state cells, updated in place by its handlers. */
  class Workflow {
    var feedback: string
    var analysis: Json
    var isLoading: bool
    var error: Option<string>

    function State(): AppState
      reads this
    {
      AppState(feedback, analysis, isLoading, error)
    }

    /** The initial values of the four cells. */
    constructor ()
      ensures State() == Initial
    {
      feedback := "";
      analysis := JNull;
      isLoading := false;
      error := None;
    }

    /** The textarea's change handler: the new text is stored as it is. */
    method SetFeedback(value: string)
      modifies this
      ensures State() == old(State()).(feedback := value)
    {
      feedback := value;
    }

    /** The handler up to its await. */
    method BeginAnalysis() returns (started: bool)
      modifies this
      ensures Step(started, State()) == Begin(old(State()))
    {
      ghost var before := State();
      if IsBlank(feedback) {
        error := Some(BlankInputMessage);
        assert State() == before.(error := Some(BlankInputMessage));
        return false;
      }
      isLoading := true;
      error := None;
      analysis := JNull;
      started := true;
      assert State() == before.(isLoading := true, error := None, analysis := JNull);
    }

    /** The handler after its await: the try, catch and finally. */
    method CompleteAnalysis(outcome: Outcome)
      modifies this
      ensures State() == Complete(old(State()), outcome)
    {
      match outcome {
        case Resolved(value) =>
          analysis := value;
        case Rejected(reason) =>
          error := Some(FailureMessage(reason));
      }
      isLoading := false;
    }

    /** `handleAnalysis` when nothing else runs at the await. */
    method HandleAnalysis(outcome: Outcome)
      modifies this
      ensures State() == Submit(old(State()), outcome)
    {
      var started := BeginAnalysis();
      if started {
        CompleteAnalysis(outcome);
      }
    }

    /** `handleReset`. */
    method HandleReset()
      modifies this
      ensures State() == Reset(old(State()))
    {
      feedback := "";
      analysis := JNull;
      error := None;
      isLoading := false;
    }
  }
}
