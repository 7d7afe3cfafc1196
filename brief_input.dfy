/** components/BriefInput.tsx with the context options of constants.ts: the submit gating,
    the short-input warning, the button label and the context picker. */
module BriefInput {
  import opened Types
  import JsString

  /** The least number of characters that can be submitted. */
  const MinLength: nat := 10

  /** `isButtonDisabled`: fewer than ten characters once trimmed, or a request in flight.
      JavaScript counts `.length` in UTF-16 code units. The selected context plays no part. */
  function IsButtonDisabled(rawText: string, isProcessing: bool): bool {
    JsString.Utf16Length(JsString.Trim(rawText)) < MinLength || isProcessing
  }

  /** The "at least 10 characters" hint: shown for non-empty text shorter than ten
      characters, measured WITHOUT trimming. */
  predicate ShowsWarning(rawText: string) {
    0 < JsString.Utf16Length(rawText) < MinLength
  }

  /** The submit button's caption. */
  function ButtonLabel(isProcessing: bool): (caption: string)
    ensures caption == "Analyze & Structure..." <==> isProcessing
    ensures caption == "Clean Brief" <==> !isProcessing
  {
    if isProcessing then "Analyze & Structure..." else "Clean Brief"
  }

  /** While a request is in flight the button is disabled whatever the text. */
  lemma ProcessingDisables(rawText: string)
    ensures IsButtonDisabled(rawText, true)
  {
  }

  /** Whenever the warning shows, the button is disabled too: trimming only shortens. */
  lemma WarningImpliesDisabled(rawText: string, isProcessing: bool)
    requires ShowsWarning(rawText)
    ensures IsButtonDisabled(rawText, isProcessing)
  {
    JsString.TrimShortens(rawText);
  }

  /** The two checks part ways on whitespace: text of ten or more whitespace characters
      disables the button but shows no warning. */
  lemma WhitespaceDisablesSilently(rawText: string, isProcessing: bool)
    requires JsString.AllWhitespace(rawText) && |rawText| >= MinLength
    ensures IsButtonDisabled(rawText, isProcessing)
    ensures !ShowsWarning(rawText)
  {
    JsString.TrimEmptyIff(rawText);
  }

  /** Twelve spaces: a disabled button and no warning. */
  lemma TwelveSpaces()
    ensures IsButtonDisabled("            ", false) && !ShowsWarning("            ")
  {
    var s := "            ";
    assert |s| == 12;
    assert forall i :: 0 <= i < |s| ==> s[i] == ' ';
    WhitespaceDisablesSilently(s, false);
  }

  /** The enabled button implies text that is not blank, so a click always gets past the
      blank-text check of the click handler. */
  lemma EnabledImpliesNotBlank(rawText: string, isProcessing: bool)
    requires !IsButtonDisabled(rawText, isProcessing)
    ensures !JsString.IsBlank(rawText) && !isProcessing
  {
  }

  /** The converse fails: "abc" is not blank, yet the button stays disabled. */
  lemma BlankCheckIsWeaker()
    ensures !JsString.IsBlank("abc") && IsButtonDisabled("abc", false)
  {
    var s := "abc";
    assert s[0] == 'a' && !JsString.IsWhitespace(s[0]);
    JsString.TrimEmptyIff(s);
  }

  // ---------------------------------------------------------------- context picker

  /** An entry of `CONTEXT_OPTIONS`: the context it selects and the caption it shows. */
  datatype ContextOption = ContextOption(value: BriefContext, caption: string)

  const Options: seq<ContextOption> := [
    ContextOption(Freelance, "Freelance Client"),
    ContextOption(School, "School Project"),
    ContextOption(Internal, "Internal Team"),
    ContextOption(Personal, "Personal Project")]

  /** Clicking option i selects its context. */
  function ContextAfterClick(i: nat): BriefContext
    requires i < |Options|
  {
    Options[i].value
  }

  /** Option i is drawn highlighted when it is the current context. */
  predicate IsHighlighted(context: BriefContext, i: nat)
    requires i < |Options|
  {
    context == Options[i].value
  }

  /** The option of each context. */
  function OptionIndex(c: BriefContext): (i: nat)
    ensures i < |Options| && Options[i].value == c
  {
    match c
    case Freelance => 0
    case School => 1
    case Internal => 2
    case Personal => 3
  }

  /** Exactly one option is highlighted: the one of the current context. */
  lemma HighlightUnique(context: BriefContext, i: nat)
    requires i < |Options|
    ensures IsHighlighted(context, i) <==> i == OptionIndex(context)
  {
  }

  /** After a click, the clicked option and no other is highlighted. */
  lemma ClickHighlights(i: nat, j: nat)
    requires i < |Options| && j < |Options|
    ensures IsHighlighted(ContextAfterClick(i), j) <==> i == j
  {
  }

  /** Every option shows the same text as the context's value, the text sent in the prompt. */
  lemma CaptionIsLabel(i: nat)
    requires i < |Options|
    ensures Options[i].caption == Label(Options[i].value)
  {
  }
}
