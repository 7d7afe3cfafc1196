/** App.tsx: the view state cells and the `handleClean` click handler. */
module App {
  import opened Wrappers
  import opened Types
  import JsString
  import BriefInput
  import GeminiService

  const Fallback: string := "An unexpected error occurred while processing the brief."

  /** `err.message || fallback`: an absent or empty message gives way to the fallback. */
  function ErrorText(e: GeminiService.Exception): (m: string)
    ensures m != ""
    ensures e.message.Some? && e.message.value != "" ==> m == e.message.value
    ensures e.message.None? || e.message.value == "" ==> m == Fallback
  {
    if e.message.Some? && e.message.value != "" then e.message.value else Fallback
  }

  /** The service's own errors reach the banner word for word. */
  lemma ServiceErrorsShownVerbatim()
    ensures ErrorText(GeminiService.Thrown(GeminiService.ApiKeyMissing)) == GeminiService.ApiKeyMissing
    ensures ErrorText(GeminiService.Thrown(GeminiService.NoResponse)) == GeminiService.NoResponse
    ensures ErrorText(GeminiService.Thrown(GeminiService.InvalidFormat)) == GeminiService.InvalidFormat
  {
  }

  /** The three state cells `status`, `result` and `error`. */
  datatype ViewState = ViewState(status: ProcessingStatus, result: Option<StructuredBrief>, error: Option<string>) {

    /** The `isProcessing` flag handed to the input panel. */
    predicate IsProcessing() {
      status == Loading
    }

    /** Whether the output panel renders the brief. */
    predicate ShowsBrief() {
      status == Success && result.Some?
    }

    /** The combinations of the three cells that the handler produces. */
    predicate Consistent() {
      match status
      case Idle => result.None? && error.None?
      case Loading => result.None? && error.None?
      case Success => result.Some? && error.None?
      case Error => result.None? && error.Some? && error.value != ""
    }
  }

  const Initial: ViewState := ViewState(Idle, None, None)

  /** The state rendered while the request is in flight. */
  const Pending: ViewState := ViewState(Loading, None, None)

  /** A history of rendered states: it starts idle, holds consistent states only, never
      returns to idle, and every settled state comes right after the pending one. */
  ghost predicate WellFormedTrace(t: seq<ViewState>) {
    |t| > 0 && t[0] == Initial &&
    (forall i :: 0 <= i < |t| ==> t[i].Consistent()) &&
    (forall i :: 0 < i < |t| ==> t[i].status != Idle) &&
    (forall i :: 0 < i < |t| && t[i].status != Loading ==> t[i - 1] == Pending)
  }

  /** A history stays well formed when a consistent, non-idle state is rendered next, so long
      as a settled state follows the pending one. */
  lemma ExtendTrace(t: seq<ViewState>, v: ViewState)
    requires WellFormedTrace(t) && v.Consistent() && v.status != Idle
    requires v.status != Loading ==> t[|t| - 1] == Pending
    ensures WellFormedTrace(t + [v]) && (t + [v])[|t|] == v
  {
    var u := t + [v];
    assert forall i :: 0 <= i < |t| ==> u[i] == t[i];
  }

  /** In a consistent state the `result` half of the output guard is implied by the status. */
  lemma ShowsBriefIffSuccess(v: ViewState)
    requires v.Consistent()
    ensures v.ShowsBrief() <==> v.status == Success
  {
  }

  /** While pending, the input panel's button is disabled whatever the text. */
  lemma PendingDisablesButton(rawText: string)
    ensures Pending.IsProcessing() && BriefInput.IsButtonDisabled(rawText, Pending.IsProcessing())
  {
  }

  /** The application component's state. */
  class CleanBriefApp {
    var rawText: string
    var context: BriefContext
    var status: ProcessingStatus
    var result: Option<StructuredBrief>
    var error: Option<string>

    /** Every state of the three cells the page has rendered, oldest first. */
    ghost var Trace: seq<ViewState>

    function View(): ViewState
      reads this
    {
      ViewState(status, result, error)
    }

    ghost predicate Valid()
      reads this
    {
      WellFormedTrace(Trace) && Trace[|Trace| - 1] == View()
    }

    /** The initial state: empty text, the freelance context, idle, no result, no error. */
    constructor ()
      ensures Valid()
      ensures rawText == "" && context == Freelance
      ensures View() == Initial && Trace == [Initial]
    {
      rawText, context := "", Freelance;
      status, result, error := Idle, None, None;
      Trace := [Initial];
    }

    /** `setRawText`, called by the text area. */
    method SetRawText(text: string)
      requires Valid()
      modifies this`rawText
      ensures Valid() && rawText == text
    {
      rawText := text;
    }

    /** `setContext`, called by a context option. */
    method SetContext(c: BriefContext)
      requires Valid()
      modifies this`context
      ensures Valid() && context == c
    {
      context := c;
    }

    /** `handleClean`, with `outcome` standing for what `cleanBrief(rawText, context)`
        resolves to or throws. Blank text changes nothing. Otherwise the cells go to the
        pending state (the one rendered while the request runs) and then settle on the
        outcome. The text and the context are left alone. */
    method HandleClean(outcome: Result<StructuredBrief, GeminiService.Exception>)
      requires Valid()
      modifies this`status, this`result, this`error, this`Trace
      ensures Valid()
      ensures rawText == old(rawText) && context == old(context)
      ensures JsString.IsBlank(rawText) ==> View() == old(View()) && Trace == old(Trace)
      ensures !JsString.IsBlank(rawText) ==> Trace == old(Trace) + [Pending, View()]
      ensures !JsString.IsBlank(rawText) && outcome.Ok? ==>
        View() == ViewState(Success, Some(outcome.value), None)
      ensures !JsString.IsBlank(rawText) && outcome.Err? ==>
        View() == ViewState(Error, None, Some(ErrorText(outcome.error)))
    {
      if JsString.IsBlank(rawText) {
        return;
      }
      status := Loading;
      error := None;
      result := None;
      ExtendTrace(Trace, View());
      Trace := Trace + [View()];
      match outcome {
        case Ok(data) =>
          result := Some(data);
          status := Success;
        case Err(e) =>
          status := Error;
          error := Some(ErrorText(e));
      }
      ExtendTrace(Trace, View());
      Trace := Trace + [View()];
    }
  }
}
