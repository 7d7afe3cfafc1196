/** services/geminiService.ts: the credential check, the prompt, the declared response schema
    and the error sequence around the one call to the generation service. The service call
    and `JSON.parse` are foreign code and come in as the functions `generate` and `parse`. */
module GeminiService {
  import opened Wrappers
  import opened Types
  import TemplateLiteral

  const ApiKeyMissing: string := "API_KEY environment variable is missing."
  const NoResponse: string := "No response generated from Gemini."
  const InvalidFormat: string := "The AI generated an invalid format. Please try again."

  const ModelName: string := "gemini-3-flash-preview"
  const JsonMimeType: string := "application/json"

  /** A thrown JavaScript value as a `catch` sees it: its `message`, absent when it has none. */
  datatype Exception = Exception(message: Option<string>)

  /** `new Error(message)` */
  function Thrown(message: string): Exception {
    Exception(Some(message))
  }

  /** The SDK client, reduced to the credential it was made with. */
  datatype Client = Client(apiKey: string)

  /** `getClient`, given the value of `process.env.API_KEY`: an undefined or empty key is
      refused, any other key makes a client. */
  function GetClient(apiKey: Option<string>): (r: Result<Client, Exception>)
    ensures r.Err? <==> apiKey.None? || apiKey.value == ""
    ensures r.Err? ==> r.error == Thrown(ApiKeyMissing)
    ensures r.Ok? ==> r.value.apiKey == apiKey.value
  {
    if apiKey.None? || apiKey.value == "" then Err(Thrown(ApiKeyMissing))
    else Ok(Client(apiKey.value))
  }

  // ---------------------------------------------------------------- response schema

  /** The shape of a response schema: strings, arrays of one item schema, and objects with
      named properties and a list of required names. */
  datatype Schema =
    | StringSchema
    | ArraySchema(items: Schema)
    | ObjectSchema(properties: seq<Property>, required: seq<string>)

  datatype Property = Property(name: string, schema: Schema)

  const StringList: Schema := ArraySchema(StringSchema)

  const ConstraintsSchema: Schema := ObjectSchema(
    [Property("technical", StringList), Property("timeline", StringList),
     Property("budget", StringList)],
    ["technical", "timeline", "budget"])

  /** The `responseSchema` of the request. */
  const BriefSchema: Schema := ObjectSchema(
    [Property("summary", StringSchema), Property("objectives", StringList),
     Property("targetAudience", StringSchema), Property("deliverables", StringList),
     Property("constraints", ConstraintsSchema), Property("ambiguities", StringList),
     Property("assumptions", StringList), Property("risks", StringList)],
    ["summary", "objectives", "targetAudience", "deliverables", "constraints",
     "ambiguities", "assumptions", "risks"])

  /** JSON documents, as far as the schema speaks of them; an object maps member names to
      values. */
  datatype Json = JString(text: string) | JArray(elements: seq<Json>) | JObject(members: map<string, Json>)

  function Names(properties: seq<Property>): seq<string> {
    seq(|properties|, i requires 0 <= i < |properties| => properties[i].name)
  }

  /** A document conforms when it has the schema's type, every required member is present,
      and every present declared member conforms to its own schema. */
  predicate Conforms(j: Json, s: Schema)
    decreases s
  {
    match s
    case StringSchema => j.JString?
    case ArraySchema(item) =>
      j.JArray? && forall i :: 0 <= i < |j.elements| ==> Conforms(j.elements[i], item)
    case ObjectSchema(properties, required) =>
      j.JObject? &&
      (forall k :: k in required ==> k in j.members) &&
      (forall i :: 0 <= i < |properties| && properties[i].name in j.members ==>
        Conforms(j.members[properties[i].name], properties[i].schema))
  }

  function StringsJson(items: seq<string>): Json {
    JArray(seq(|items|, i requires 0 <= i < |items| => JString(items[i])))
  }

  /** The JSON document of a brief, one member per field of the type. */
  function BriefJson(b: StructuredBrief): Json {
    JObject(map[
      "summary" := JString(b.summary),
      "objectives" := StringsJson(b.objectives),
      "targetAudience" := JString(b.targetAudience),
      "deliverables" := StringsJson(b.deliverables),
      "constraints" := JObject(map[
        "technical" := StringsJson(b.constraints.technical),
        "timeline" := StringsJson(b.constraints.timeline),
        "budget" := StringsJson(b.constraints.budget)]),
      "ambiguities" := StringsJson(b.ambiguities),
      "assumptions" := StringsJson(b.assumptions),
      "risks" := StringsJson(b.risks)])
  }

  lemma StringsConform(items: seq<string>)
    ensures Conforms(StringsJson(items), StringList)
  {
  }

  /** Every brief, written as JSON, satisfies the declared schema. */
  lemma BriefConforms(b: StructuredBrief)
    ensures Conforms(BriefJson(b), BriefSchema)
  {
    StringsConform(b.objectives);
    StringsConform(b.deliverables);
    StringsConform(b.constraints.technical);
    StringsConform(b.constraints.timeline);
    StringsConform(b.constraints.budget);
    StringsConform(b.ambiguities);
    StringsConform(b.assumptions);
    StringsConform(b.risks);
  }

  /** The schema declares and requires exactly the eight fields of a brief; its constraints
      object does the same for the three categories. */
  lemma SchemaNamesTheFields(b: StructuredBrief)
    ensures BriefSchema.required == Names(BriefSchema.properties)
    ensures forall k :: k in BriefSchema.required <==> k in BriefJson(b).members
    ensures ConstraintsSchema.required == Names(ConstraintsSchema.properties)
    ensures forall k :: k in ConstraintsSchema.required <==> k in BriefJson(b).members["constraints"].members
  {
  }

  // ---------------------------------------------------------------- prompt

  /** The literal pieces of the prompt template, around the context and the raw text (the
      opening quote and the closing quote are split off only to name them). */
  const PromptPieces: seq<string> := [
    "\n    Context: ",
    "\n    \n    Raw Input Brief:\n    " + "\"",
    "\"" + "\n    \n    Analyze this input and generate a structured brief.\n  "]

  /** The prompt: the context's label and the raw text interpolated as they are, with no
      escaping. */
  function Prompt(rawText: string, context: BriefContext): string {
    TemplateLiteral.Fill(PromptPieces, [Label(context), rawText])
  }

  lemma PromptShape(rawText: string, context: BriefContext)
    ensures Prompt(rawText, context) ==
      PromptPieces[0] + Label(context) + PromptPieces[1] + rawText + PromptPieces[2]
  {
    TemplateLiteral.FillTwo(PromptPieces, [Label(context), rawText]);
  }

  /** The first piece ends with "Context: ", and the raw text has a double quote on each side. */
  lemma PromptPiecesShape()
    ensures TemplateLiteral.EndsWith(PromptPieces[0], "Context: ")
    ensures TemplateLiteral.EndsWith(PromptPieces[1], "\"")
    ensures |PromptPieces[2]| > 0 && PromptPieces[2][0] == '"'
  {
    assert PromptPieces[0][5..5 + 9] == "Context: ";
    var p1 := PromptPieces[1];
    assert p1[|p1| - 1..|p1|] == "\"";
  }

  /** The piece after the context starts a new line. */
  lemma PromptContextLine()
    ensures |PromptPieces[1]| > 0 && PromptPieces[1][0] == '\n'
  {
  }

  /** Where the raw text starts in the prompt. */
  function RawTextStart(context: BriefContext): nat {
    |PromptPieces[0]| + |Label(context)| + |PromptPieces[1]|
  }

  /** The prompt names the context after "Context: ", on a line of its own. */
  lemma PromptShowsContext(rawText: string, context: BriefContext)
    ensures TemplateLiteral.OccursAt(Prompt(rawText, context), 5, "Context: " + (Label(context) + "\n"))
  {
    PromptPiecesShape();
    PromptContextLine();
    TemplateLiteral.ValueBetween(PromptPieces, [Label(context), rawText], 0, "Context: ", '\n');
  }

  /** The prompt holds the raw text verbatim, with no escaping, between double quotes. */
  lemma PromptQuotesRawText(rawText: string, context: BriefContext)
    ensures TemplateLiteral.OccursAt(Prompt(rawText, context), RawTextStart(context) - 1, "\"" + (rawText + "\""))
  {
    var values := [Label(context), rawText];
    PromptPiecesShape();
    assert TemplateLiteral.ValueStart(PromptPieces, values, 1) == RawTextStart(context);
    TemplateLiteral.ValueBetween(PromptPieces, values, 1, "\"", '"');
  }

  /** Reads the context and the raw text back out of a prompt. */
  function ParsePrompt(p: string): Option<(string, BriefContext)> {
    var head, tail := PromptPieces[0], PromptPieces[2];
    if |p| < |head| + |tail| || !TemplateLiteral.OccursAt(p, 0, head) || !TemplateLiteral.EndsWith(p, tail) then None
    else ParseMiddle(p[|head|..|p| - |tail|], [Freelance, School, Internal, Personal])
  }

  /** The first of the candidate contexts whose label, with the piece after it, opens the text
      between the prompt's outer pieces; the rest is the raw text. */
  function ParseMiddle(middle: string, candidates: seq<BriefContext>): Option<(string, BriefContext)> {
    if |candidates| == 0 then None
    else
      var opening := Label(candidates[0]) + PromptPieces[1];
      if |opening| <= |middle| && middle[..|opening|] == opening then Some((middle[|opening|..], candidates[0]))
      else ParseMiddle(middle, candidates[1..])
  }

  lemma {:induction false} ParseMiddleFinds(rawText: string, context: BriefContext, candidates: seq<BriefContext>)
    requires context in candidates
    ensures ParseMiddle(Label(context) + PromptPieces[1] + rawText, candidates) == Some((rawText, context))
  {
    var middle := Label(context) + PromptPieces[1] + rawText;
    var opening := Label(candidates[0]) + PromptPieces[1];
    if candidates[0] == context {
      assert middle[..|opening|] == opening;
      assert middle[|opening|..] == rawText;
    } else {
      LabelsDiffer(context, candidates[0]);
      assert middle[0] == Label(context)[0];
      if |opening| <= |middle| {
        assert middle[..|opening|][0] != opening[0];
      }
      ParseMiddleFinds(rawText, context, candidates[1..]);
    }
  }

  /** The prompt loses nothing: the context and the raw text can be read back out of it. */
  lemma ParsePromptInverts(rawText: string, context: BriefContext)
    ensures ParsePrompt(Prompt(rawText, context)) == Some((rawText, context))
  {
    var p := Prompt(rawText, context);
    var head, tail := PromptPieces[0], PromptPieces[2];
    var middle := Label(context) + PromptPieces[1] + rawText;
    TemplateLiteral.PartsOfTwo(PromptPieces, [Label(context), rawText]);
    assert p[|head|..|p| - |tail|] == middle;
    ParseMiddleFinds(rawText, context, [Freelance, School, Internal, Personal]);
  }

  /** Different inputs give different prompts. */
  lemma PromptInjective(raw1: string, context1: BriefContext, raw2: string, context2: BriefContext)
    requires Prompt(raw1, context1) == Prompt(raw2, context2)
    ensures raw1 == raw2 && context1 == context2
  {
    ParsePromptInverts(raw1, context1);
    ParsePromptInverts(raw2, context2);
  }

  // ---------------------------------------------------------------- the service call

  /** What `generateContent` is given: the credential of the client, the model, the prompt,
      the JSON mime type and the response schema. */
  datatype Request = Request(
    apiKey: string, model: string, contents: string, responseMimeType: string, responseSchema: Schema)

  /** What the service reads of the SDK's answer: `response.text`, which may be undefined. */
  datatype Response = Response(text: Option<string>)

  /** `cleanBrief`. `apiKey` is the environment's credential, `generate` the SDK call (it
      answers or throws) and `parse` `JSON.parse` (it yields a value or throws). `sent` lists
      the requests made, in order. The checks come in the order `cleanBrief` makes them:
      the credential before any request, then the SDK's own failure, then an empty text,
      then a parse failure; a parsed value is returned as it is. */
  method CleanBrief(
    rawText: string, context: BriefContext, apiKey: Option<string>,
    generate: Request -> Result<Response, Exception>, parse: string -> Option<StructuredBrief>)
    returns (r: Result<StructuredBrief, Exception>, sent: seq<Request>)
    ensures apiKey.None? || apiKey.value == "" ==> r == Err(Thrown(ApiKeyMissing)) && sent == []
    ensures apiKey.Some? && apiKey.value != "" ==>
      sent == [Request(apiKey.value, ModelName, Prompt(rawText, context), JsonMimeType, BriefSchema)]
    ensures |sent| == 1 && generate(sent[0]).Err? ==> r == Err(generate(sent[0]).error)
    ensures |sent| == 1 && generate(sent[0]).Ok? ==>
      var text := generate(sent[0]).value.text;
      if text.None? || text.value == "" then r == Err(Thrown(NoResponse))
      else if parse(text.value).None? then r == Err(Thrown(InvalidFormat))
      else r == Ok(parse(text.value).value)
  {
    sent := [];
    var client := GetClient(apiKey);
    if client.Err? {
      return Err(client.error), sent;
    }
    var request := Request(client.value.apiKey, ModelName, Prompt(rawText, context), JsonMimeType, BriefSchema);
    var response := generate(request);
    sent := sent + [request];
    if response.Err? {
      return Err(response.error), sent;
    }
    var text := response.value.text;
    if text.None? || text.value == "" {
      return Err(Thrown(NoResponse)), sent;
    }
    var parsed := parse(text.value);
    if parsed.None? {
      return Err(Thrown(InvalidFormat)), sent;
    }
    r := Ok(parsed.value);
  }
}
