# CleanBrief in Dafny

CleanBrief is a single-page tool. The user pastes rough project notes and picks a project context. The page sends both to a generative model, asking for a JSON document that follows a fixed response schema. The reply comes back as a structured brief: summary, objectives, target audience, deliverables, constraints (technical, timeline, budget), ambiguities, assumptions and risks. The page shows the brief and can export it as markdown.

This project models the deterministic logic around that one call:

- `BriefOutput` (`brief_output.dfy`): the markdown export template and the `ListItems` rendering rule.
- `BriefInput` (`brief_input.dfy`): the submit-button gating, the short-input warning, the button caption and the context picker.
- `App` (`app.dfy`): the `handleClean` click handler, as a class. Its fields are the page's state cells.
- `GeminiService` (`gemini_service.dfy`): the credential check, the prompt, the declared response schema and the ordered error handling of `cleanBrief`. The generation call and `JSON.parse` are function parameters.
- `JsString` (`js_string.dfy`) and `TemplateLiteral` (`template_literal.dfy`) model the JavaScript pieces these rely on:
  - `trim` with the exact ECMAScript whitespace set;
  - `.length` counted in UTF-16 code units;
  - `join('\n')`;
  - the evaluation of template literals.

  `JsString.SplitLines` splits a string at its newlines, as `split('\n')` would. The source never calls `split`: the model uses it only as the inverse of `join`, to state that the bullet text splits back into its items (`BulletsSplit`).
- `Types` and `Wrappers` hold the entities of `types.ts` and the `Option`/`Result` types.

The export and the prompt are both template literals. Each is modelled as a list of literal pieces around a list of interpolated values. `TemplateLiteral` proves where each piece and each value lands in the result. The section and prompt lemmas build on those positions.

`handleClean` is a method of `CleanBriefApp`. It updates the `status`, `result` and `error` fields. A ghost `Trace` records every combination of those cells the page has rendered. The class invariant `Valid()` says the trace:

- starts idle;
- holds only consistent states;
- never returns to idle;
- puts every settled state directly after the pending state.

## Model

| member | source | states |
|---|---|---|
| BriefOutput.Markdown | components/BriefOutput.tsx:44-76 | The text `handleCopyMarkdown` copies: the template evaluated on the brief alone. Its contract is stated by the lemmas from `ExportOpening` to `NoRisksEnding` below |
| BriefOutput.ListItems | components/BriefOutput.tsx:27-39 | The placeholder is shown iff the list is empty, and its text is "None identified."; otherwise there is one entry per item, in order, keyed by its index |
| BriefOutput.Render | components/BriefOutput.tsx:41-181 | Nothing is rendered iff there is no data. Otherwise the summary and audience appear verbatim, each of the five `ListItems` panels renders its own list (objectives, deliverables, technical, timeline, budget) by the `ListItems` rule, and the last three panels list their items directly |
| BriefOutput.Bullets | components/BriefOutput.tsx:52-75 | `items.map(i => `- ${i}`).join('\n')`, the body of each of the eight list sections. Its contract is stated by `BulletsShape` and `BulletsSplit` |
| BriefOutput.BulletsShape | components/BriefOutput.tsx:52 | A list's export body is empty iff the list is empty; otherwise it begins with `- ` and the first item |
| BriefOutput.BulletsSplit | components/BriefOutput.tsx:52-75 | The body of a non-empty list of newline-free items splits on newlines into exactly one `- item` line per item, in order, with no trailing newline |
| BriefOutput.PieceEndsWithHeading | components/BriefOutput.tsx:45-74 | The literal text before each section ends with that section's heading line and a line break |
| BriefOutput.PieceOpensLine | components/BriefOutput.tsx:46-76 | The literal text after each section starts with a line break |
| BriefOutput.ExportOpening | components/BriefOutput.tsx:45-49 | The export starts with `\n# Project Brief\n\n## Summary\n` followed by the summary verbatim |
| BriefOutput.ExportClosing | components/BriefOutput.tsx:75-76 | The export ends with the risks body followed by a line break and four spaces |
| BriefOutput.HeadingAbove | components/BriefOutput.tsx:45-76 | Each section's heading line, with its line break, stands directly before the section's body |
| BriefOutput.SectionAt | components/BriefOutput.tsx:45-76 | Each section's body stands verbatim at its offset, and a line break follows it |
| BriefOutput.HeadedSection | components/BriefOutput.tsx:45-76 | The heading line and the body of each section, each with its line break, form one contiguous stretch of the export |
| BriefOutput.ClarificationsSection | components/BriefOutput.tsx:68-69 | The ambiguities are exported as their bullets directly under the heading "## Clarifications Needed" |
| BriefOutput.HeadingsInOrder | components/BriefOutput.tsx:46-74 | The headings of the ten sections with a body appear in the order Summary, Objectives, Target Audience, Deliverables, Technical, Timeline, Budget, Clarifications Needed, Assumptions, Risks. The Constraints heading, which has no body of its own, is placed in this order by `ConstraintsAbove` and `ConstraintsAfterDeliverables` |
| BriefOutput.PieceEndsWithConstraints | components/BriefOutput.tsx:58-61 | The literal text before the technical constraints ends with the `## Constraints` heading line and then the `### Technical` heading line, and the section before it is the deliverables |
| BriefOutput.ConstraintsAbove | components/BriefOutput.tsx:60-62 | The `## Constraints` heading line stands in the export directly above the `### Technical` heading line, which stands directly above the technical constraints |
| BriefOutput.ConstraintsAfterDeliverables | components/BriefOutput.tsx:58-60 | The `## Constraints` heading line starts after the end of the deliverables body |
| BriefOutput.EmptyListSection | components/BriefOutput.tsx:52-75 | An empty list still gets its heading line. Its body is empty, so the heading line is followed directly by another line break and no `- ` line follows the heading |
| BriefOutput.NoRisksEnding | components/BriefOutput.tsx:74-76 | With no risks, the export ends with `## Risks\n\n    ` |
| BriefInput.IsButtonDisabled | components/BriefInput.tsx:23 | Disabled when the trimmed text has fewer than ten UTF-16 code units, or when processing; it takes no context. Its consequences are stated by the lemmas from `ProcessingDisables` to `BlankCheckIsWeaker` below |
| BriefInput.ShowsWarning | components/BriefInput.tsx:85 | The warning shows when the untrimmed text has between one and nine UTF-16 code units. How it relates to the button is stated by `WarningImpliesDisabled`, `WhitespaceDisablesSilently` and `TwelveSpaces` |
| BriefInput.ButtonLabel | components/BriefInput.tsx:73-83 | The caption is "Analyze & Structure..." iff processing, and "Clean Brief" iff not |
| BriefInput.ProcessingDisables | components/BriefInput.tsx:23 | While processing, the button is disabled for every text |
| BriefInput.WarningImpliesDisabled | components/BriefInput.tsx:23-85 | Whenever the short-input warning shows, the button is disabled as well |
| BriefInput.WhitespaceDisablesSilently | components/BriefInput.tsx:23-85 | Ten or more whitespace characters disable the button but show no warning |
| BriefInput.TwelveSpaces | components/BriefInput.tsx:23-85 | Twelve spaces: disabled button, no warning |
| BriefInput.EnabledImpliesNotBlank | components/BriefInput.tsx:23 | An enabled button means the text is not blank and no request is in flight, so the handler's blank check always passes after a click |
| BriefInput.BlankCheckIsWeaker | App.tsx:17 | The handler's guard is strictly weaker than the button's: "abc" is not blank, yet the button is disabled |
| BriefInput.ContextAfterClick | components/BriefInput.tsx:35 | Clicking an option selects that option's context. Stated with the next rows |
| BriefInput.IsHighlighted | components/BriefInput.tsx:36-37 | An option is highlighted when it is the current context. Stated by `HighlightUnique` and `ClickHighlights` |
| BriefInput.OptionIndex | constants.ts:3-8 | Every context has an option that selects it |
| BriefInput.HighlightUnique | components/BriefInput.tsx:36-37 | An option is highlighted iff it is the option of the current context |
| BriefInput.ClickHighlights | components/BriefInput.tsx:35-37 | After clicking option i, option j is highlighted iff j = i |
| BriefInput.CaptionIsLabel | constants.ts:3-8 | Each option's caption is the string value of the context it selects |
| Types.Label | types.ts:1-6 | Each context's string value is non-empty; `LabelsDiffer` tells them apart |
| Types.LabelsDiffer | types.ts:1-6 | The four context values are pairwise distinct strings |
| JsString.SkipLeading | components/BriefInput.tsx:23 | Skips only whitespace and stops at the first character that is not whitespace, or at the end |
| JsString.SkipTrailing | components/BriefInput.tsx:23 | Steps back over only whitespace and stops just after the last character that is not whitespace, or at the lower bound |
| JsString.Trim | components/BriefInput.tsx:23 | The result is the infix that starts at the first character that is not whitespace, with only whitespace before and after it; it neither starts nor ends with whitespace |
| JsString.IsBlank | App.tsx:17 | `!rawText.trim()`: blank iff the text is all whitespace, stated by `TrimEmptyIff` |
| JsString.TrimEmptyIff | App.tsx:17 | The trimmed text is empty iff the text is all whitespace |
| JsString.TrimIdempotent | components/BriefInput.tsx:23 | A property of `trim` itself: trimming twice equals trimming once. Nothing in the source trims twice |
| JsString.Utf16Length | components/BriefInput.tsx:85 | The UTF-16 length lies between the code point count and twice that count |
| JsString.TrimShortens | components/BriefInput.tsx:23 | Trimming never increases the UTF-16 length |
| JsString.Utf16LengthInfix | components/BriefInput.tsx:23 | An infix of a string is never longer in UTF-16 code units than the string |
| JsString.JoinLines | components/BriefOutput.tsx:52 | `join('\n')`: one newline between neighbours and none at the end. Stated by `JoinOpensWithFirst` and `SplitJoin` |
| JsString.JoinOpensWithFirst | components/BriefOutput.tsx:52 | A join of no lines is empty; a join of one or more lines starts with the first line |
| JsString.SplitJoin | components/BriefOutput.tsx:52 | Splitting on newlines undoes joining, for one or more newline-free lines |
| TemplateLiteral.Fill | components/BriefOutput.tsx:45-76 | The string a template literal evaluates to. Where each piece and value lands is stated by the lemmas from `FillFrom` to `PartsOfTwo` below |
| TemplateLiteral.FillFrom | components/BriefOutput.tsx:45-76 | From the start of piece k onwards, the result is the template cut at piece k |
| TemplateLiteral.ValueAt | components/BriefOutput.tsx:45-76 | Each interpolated value appears verbatim, between its neighbouring literal pieces |
| TemplateLiteral.PiecesInOrder | components/BriefOutput.tsx:45-76 | Literal pieces appear in template order without overlapping |
| TemplateLiteral.FillEnd | components/BriefOutput.tsx:45-76 | The result ends with the last literal piece, at its offset |
| TemplateLiteral.ValueAfter | components/BriefOutput.tsx:45-76 | Whatever the piece before a value ends with stands directly before that value |
| TemplateLiteral.ValueThen | components/BriefOutput.tsx:45-76 | A value is directly followed by the first character of the next piece |
| TemplateLiteral.EndsWithLastValue | components/BriefOutput.tsx:45-76 | The result ends with the last value and the last piece, preceded by whatever the piece before that value ends with |
| TemplateLiteral.PartsOfTwo | services/geminiService.ts:19-26 | A template with two values is its first piece, then the values and the middle piece, then its last piece |
| GeminiService.GetClient | services/geminiService.ts:5-11 | It fails iff the key is undefined or empty, with the fixed missing-key message; otherwise the client carries the key |
| GeminiService.BriefConforms | services/geminiService.ts:34-90 | Every structured brief, written as JSON, satisfies the declared response schema, the constant `BriefSchema` |
| GeminiService.SchemaNamesTheFields | services/geminiService.ts:55-89 | The top-level required list names exactly the declared properties, which are exactly the eight brief fields; the constraints object does the same for technical, timeline and budget |
| GeminiService.Prompt | services/geminiService.ts:19-26 | The prompt, a function of the raw text and the context alone. Stated by the lemmas from `PromptShape` to `PromptInjective` below |
| GeminiService.PromptShape | services/geminiService.ts:19-26 | The prompt is the fixed text with the context's value and the raw text interpolated unescaped |
| GeminiService.PromptShowsContext | services/geminiService.ts:19-21 | The prompt holds `Context: `, then the context's value, then a line break |
| GeminiService.PromptQuotesRawText | services/geminiService.ts:21-24 | The prompt holds the raw text verbatim, unescaped, between two double quotes |
| GeminiService.ParsePromptInverts | services/geminiService.ts:19-26 | The context and the raw text can be read back from the prompt |
| GeminiService.PromptInjective | services/geminiService.ts:19-26 | Different (raw text, context) pairs give different prompts |
| GeminiService.CleanBrief | services/geminiService.ts:13-105 | The checks run in order: missing key (before any request), then the SDK's own failure passed through unchanged, then empty or undefined text, then parse failure, each with its fixed message. Exactly one request is sent when a key is present, with the fixed model, the prompt, the JSON type and the schema. A parsed value is returned as is |
| App.ErrorText | App.tsx:30 | The banner text is the thrown message when it is present and non-empty, else the fixed fallback; it is never empty |
| App.ServiceErrorsShownVerbatim | App.tsx:27-30 | The three service errors reach the banner word for word |
| App.ViewState.IsProcessing | App.tsx:49 | `isProcessing` is exactly the loading status. Stated by `PendingDisablesButton` |
| App.ViewState.ShowsBrief | App.tsx:92 | The brief is shown when the status is success and there is a result. Stated by `ShowsBriefIffSuccess` |
| App.ShowsBriefIffSuccess | App.tsx:92 | In every state the model's handler produces, the brief is shown iff the status is success |
| App.PendingDisablesButton | App.tsx:49 | The pending state counts as processing, so the button is disabled whatever the text |
| App.CleanBriefApp.constructor | App.tsx:10-14 | Empty text, the freelance context, idle, no result, no error |
| App.CleanBriefApp.SetRawText | App.tsx:45 | Sets the text and nothing else |
| App.CleanBriefApp.SetContext | App.tsx:47 | Sets the context and nothing else |
| App.CleanBriefApp.HandleClean | App.tsx:16-32 | Blank text changes nothing. Otherwise the page first renders the pending state (loading, with result and error cleared), then success with the data or error with the message. Text and context are untouched, and the trace invariant is kept |

The button predicate `BriefInput.IsButtonDisabled` has no context parameter: the selected context plays no part in it (components/BriefInput.tsx:23). The prompt is a function of the raw text and the context only.

Two behaviours of the source are easy to miss:

- The ambiguities, assumptions and risks panels map their items directly rather than through `ListItems`. An empty list there shows an empty panel, not "None identified." (components/BriefOutput.tsx:161-179).
- The page never returns to idle after the first request.

## Left out

- The SDK call and the network (services/geminiService.ts:28-92): foreign code. They are the parameter `generate`, which answers with optional text or throws.
- `JSON.parse` (services/geminiService.ts:100): foreign code. It is the parameter `parse`, which yields a brief or fails.
- GeminiService.CleanBrief: `parse` yields a typed brief, so a document that parses but lacks fields, or `null`, is not represented. The source casts such a value without checking it and passes it on.
- The `systemInstruction` text (constants.ts:10-20) and the `description` strings of the schema: prose with no behaviour. They are not part of `Request` or `Schema`.
- `Type.OBJECT`/`Type.ARRAY`/`Type.STRING` are modelled as the `Schema` constructors, not as the SDK's enum values.
- React rendering, JSX layout, CSS classes, the option icons and components/Header.tsx: presentation only.
- The clipboard write, `alert`, `window.print` and `console.error` (components/BriefOutput.tsx:77-82, App.tsx:28, services/geminiService.ts:102): browser side effects. The export is the string that would be copied.
- App.CleanBriefApp.HandleClean: the `await` is one atomic step with a given outcome. Overlapping requests and renders between the state setters are not modelled. The trace records only the two states the page renders.
- App.ShowsBriefIffSuccess: holds only because `parse` yields a typed brief. In the source, a response that parses to a falsy value (`null`, `0`, `false`, `""`) is returned by `cleanBrief` and leaves the status at success with no result, so the guard at App.tsx:92 then hides the brief although the status is success. The model's `Consistent` states exclude that combination.
- BriefOutput.ListItems: the `!items` guard for an absent list is not modelled, because a Dafny sequence is never null.
- JsString.Utf16Length: Dafny characters are Unicode scalar values, so lone surrogates in a JavaScript string cannot be represented.
