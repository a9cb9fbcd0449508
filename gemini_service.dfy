/** The plan-generation adapter: turns a board URL into one request to the
    generative-AI service and the service's reply into the parsed value or one
    of three failures. The service call and the JSON parser are parameters. */
module GeminiService {
  import opened Wrappers
  import opened Types

  const GeminiModel := "gemini-3-flash-preview"
  const JsonMimeType := "application/json"

  // ---------------------------------------------------------------------------
  // The prompt
  // ---------------------------------------------------------------------------

  /** The prompt text up to and including the quote that opens the URL. */
  const PromptHead := "\n    Analyze this Pinterest board URL: " + ['"']

  /** The prompt text from the quote that closes the URL to the end. */
  const PromptTail := ['"'] + ". \n    Based on the words in the URL and common aesthetic trends, imagine what kind of life inspiration this board represents (e.g., fitness, home decor, mindfulness, productivity, fashion).\n    \n    Create a detailed \"Life Action Plan\" that turns this visual inspiration into real-world reality.\n    Be encouraging, \"bestie-like\", and actionable.\n    \n    The response must be in JSON format.\n  "

  /** The prompt for a board URL: the fixed instructions with the URL spliced
      in. The URL can be read back out of it unchanged. */
  function Prompt(boardUrl: string): (p: string)
    ensures UrlInPrompt(p) == Some(boardUrl)
  {
    PromptHead + boardUrl + PromptTail
  }

  /** Reads the board URL back out of a prompt; None for text that is not a
      prompt. Whatever it reads back rebuilds the prompt it was read from. */
  function UrlInPrompt(prompt: string): (url: Option<string>)
    ensures url.Some? ==> prompt == PromptHead + url.value + PromptTail
  {
    var h, t := |PromptHead|, |PromptTail|;
    if h + t <= |prompt| && prompt[..h] == PromptHead && prompt[|prompt| - t..] == PromptTail
    then
      var middle := prompt[h..|prompt| - t];
      SplitInThree(prompt, h, |prompt| - t);
      Some(middle)
    else None
  }

  /** A text is its prefix, its middle and its suffix, put back together. */
  lemma SplitInThree(s: string, i: nat, j: nat)
    requires i <= j <= |s|
    ensures s == s[..i] + s[i..j] + s[j..]
  {
    assert s[..j] == s[..i] + s[i..j];
    assert s == s[..j] + s[j..];
  }

  /** Different board URLs give different prompts. */
  lemma PromptInjective(url1: string, url2: string)
    ensures Prompt(url1) == Prompt(url2) ==> url1 == url2
  {
  }

  /** The URL appears verbatim in the prompt, directly between two double quotes. */
  lemma PromptQuotesUrl(boardUrl: string)
    ensures var p, i := Prompt(boardUrl), |PromptHead|;
      i + |boardUrl| < |p| && p[i - 1] == '"' && p[i..i + |boardUrl|] == boardUrl && p[i + |boardUrl|] == '"'
  {
  }

  // ---------------------------------------------------------------------------
  // The response schema and the request
  // ---------------------------------------------------------------------------

  /** The subset of the service's response-schema language the adapter uses. */
  datatype Schema =
    | StringType(description: Option<string>)
    | ArrayType(items: Schema, description: Option<string>)
    | ObjectType(properties: seq<Property>, required: seq<string>)

  datatype Property = Property(name: string, schema: Schema)

  function Names(properties: seq<Property>): (names: seq<string>)
    ensures |names| == |properties|
    ensures forall i :: 0 <= i < |properties| ==> names[i] == properties[i].name
  {
    if properties == [] then [] else [properties[0].name] + Names(properties[1..])
  }

  /** Every object in the schema, at any depth, lists exactly its own properties,
      in order, as required. */
  predicate EveryPropertyRequired(s: Schema)
  {
    match s
    case StringType(_) => true
    case ArrayType(items, _) => EveryPropertyRequired(items)
    case ObjectType(properties, required) =>
      required == Names(properties) &&
      forall i :: 0 <= i < |properties| ==> EveryPropertyRequired(properties[i].schema)
  }

  const DayPlanSchema: Schema := ObjectType(
    [ Property("day", StringType(None)),
      Property("actions", ArrayType(StringType(None), None)) ],
    ["day", "actions"])

  /** The response schema pinned on every generation request. */
  const PlanSchema: Schema := ObjectType(
    [ Property("goal", StringType(Some("A catchy, motivating summary of the detected goal."))),
      Property("weeklyPlan", ArrayType(DayPlanSchema, None)),
      Property("firstSteps", ArrayType(StringType(None), Some("3-5 very small, immediate actions."))),
      Property("suggestedHabits", ArrayType(StringType(None), Some("2-3 long-term habits."))) ],
    ["goal", "weeklyPlan", "firstSteps", "suggestedHabits"])

  /** The schema names ActionPlan's four fields and a day entry's two fields,
      and marks every one of them as required. */
  lemma PlanSchemaRequiresEveryField()
    ensures PlanSchema.ObjectType? && Names(PlanSchema.properties) == PlanFields
    ensures PlanSchema.properties[1].schema == ArrayType(DayPlanSchema, None)
    ensures DayPlanSchema.ObjectType? && Names(DayPlanSchema.properties) == DayPlanFields
    ensures EveryPropertyRequired(PlanSchema)
  {
  }

  /** What the adapter sends to the service. */
  datatype GenerateRequest = GenerateRequest(
    model: string,
    contents: string,
    responseMimeType: string,
    responseSchema: Schema)

  /** The one request: the prompt for the URL, a JSON reply, and the plan schema
      with every field required. */
  function BuildRequest(boardUrl: string): (request: GenerateRequest)
    ensures UrlInPrompt(request.contents) == Some(boardUrl)
    ensures request.model == GeminiModel && request.responseMimeType == JsonMimeType
    ensures request.responseSchema == PlanSchema && EveryPropertyRequired(request.responseSchema)
  {
    PlanSchemaRequiresEveryField();
    GenerateRequest(GeminiModel, Prompt(boardUrl), JsonMimeType, PlanSchema)
  }

  // ---------------------------------------------------------------------------
  // Handling the reply
  // ---------------------------------------------------------------------------

  /** The outcome of the awaited service call: the promise rejects, or it
      resolves to a response whose `text` may be absent. */
  datatype Reply = Rejected(message: string) | Replied(text: Option<string>)

  /** The adapter's failures: the two errors it throws itself, and a rejected
      service call, which it lets through. None carries the reply's text. */
  datatype GenerationError = NoResponse | InvalidFormat | CallFailed(message: string)

  /** The message of the error that reaches the caller for each failure; the
      adapter's own two are fixed, non-empty and distinct. */
  function ErrorMessage(e: GenerationError): (m: string)
    ensures !e.CallFailed? ==> m != "" && (e == NoResponse <==> m == "No response from AI")
    ensures e == InvalidFormat ==> m == "Invalid AI response format"
    ensures e.CallFailed? ==> m == e.message
  {
    match e
    case NoResponse => "No response from AI"
    case InvalidFormat => "Invalid AI response format"
    case CallFailed(message) => message
  }

  /** JavaScript's `!text` on the reply's text: absent or empty. */
  predicate NoText(text: Option<string>)
  {
    text.None? || text.value == ""
  }

  /** One run of the adapter: the requests it sent, the texts it handed to the
      parser, the texts it logged for diagnostics, and its outcome. A success
      carries whatever the parser produced. */
  datatype Generation = Generation(
    requests: seq<GenerateRequest>,
    parsed: seq<string>,
    logged: seq<string>,
    result: Result<PlanValue, GenerationError>)

  /** generatePlanFromBoard: one call with the prompt and the schema; a rejected
      call fails, "no text" fails, unparsable text fails, and any value that
      parses is returned as it is. */
  function GeneratePlanFromBoard(
    boardUrl: string,
    generateContent: GenerateRequest -> Reply,
    parse: string -> Option<PlanValue>): (g: Generation)
    ensures |g.requests| == 1 && UrlInPrompt(g.requests[0].contents) == Some(boardUrl)
    ensures g.requests[0].responseSchema == PlanSchema
  {
    var request := BuildRequest(boardUrl);
    match generateContent(request)
    case Rejected(message) => Generation([request], [], [], Failure(CallFailed(message)))
    case Replied(text) =>
      if NoText(text) then
        Generation([request], [], [], Failure(NoResponse))
      else
        match parse(text.value)
        case Some(value) => Generation([request], [text.value], [], Success(value))
        case None => Generation([request], [text.value], [text.value], Failure(InvalidFormat))
  }

  /** What the service answers for a URL's request. */
  function ServiceReply(boardUrl: string, generateContent: GenerateRequest -> Reply): (reply: Reply)
  {
    generateContent(BuildRequest(boardUrl))
  }

  /** A rejected call fails with its own error, and only a rejected call does;
      nothing is parsed or logged. */
  lemma CallFailedExactlyWhenRejected(
    boardUrl: string, generateContent: GenerateRequest -> Reply, parse: string -> Option<PlanValue>)
    ensures var g, reply := GeneratePlanFromBoard(boardUrl, generateContent, parse), ServiceReply(boardUrl, generateContent);
      (g.result.Failure? && g.result.error.CallFailed? <==> reply.Rejected?) &&
      (reply.Rejected? ==> g.result == Failure(CallFailed(reply.message)) && g.parsed == [] && g.logged == [])
  {
  }

  /** An absent or empty reply text fails with NoResponse, and only such a reply
      does; the parser is then never consulted. */
  lemma NoResponseExactlyWithoutText(
    boardUrl: string, generateContent: GenerateRequest -> Reply, parse: string -> Option<PlanValue>)
    ensures var g, reply := GeneratePlanFromBoard(boardUrl, generateContent, parse), ServiceReply(boardUrl, generateContent);
      (g.result == Failure(NoResponse) <==> reply.Replied? && NoText(reply.text)) &&
      (g.result == Failure(NoResponse) ==> g.parsed == [] && g.logged == [])
  {
  }

  /** Text that is present but does not parse fails with InvalidFormat, and only
      such text does; the raw text goes to the log, not into the result. */
  lemma InvalidFormatExactlyWhenParseFails(
    boardUrl: string, generateContent: GenerateRequest -> Reply, parse: string -> Option<PlanValue>)
    ensures var g, reply := GeneratePlanFromBoard(boardUrl, generateContent, parse), ServiceReply(boardUrl, generateContent);
      (g.result == Failure(InvalidFormat) <==> reply.Replied? && !NoText(reply.text) && parse(reply.text.value).None?) &&
      (g.result == Failure(InvalidFormat) ==> g.logged == [reply.text.value])
  {
  }

  /** Success exactly when there is text and it parses; the result is the
      parsed value unchanged, with no check of its fields, so a falsy or
      incomplete value is a success too. */
  lemma SuccessIsParsedValue(
    boardUrl: string, generateContent: GenerateRequest -> Reply, parse: string -> Option<PlanValue>)
    ensures var g, reply := GeneratePlanFromBoard(boardUrl, generateContent, parse), ServiceReply(boardUrl, generateContent);
      (g.result.Success? <==> reply.Replied? && !NoText(reply.text) && parse(reply.text.value).Some?) &&
      (g.result.Success? ==> g.result.value == parse(reply.text.value).value && g.parsed == [reply.text.value] && g.logged == [])
  {
  }

  // ---------------------------------------------------------------------------
  // The adapter with the missing check added
  // ---------------------------------------------------------------------------

  /** An outcome whose success, if any, is a complete plan. */
  predicate ValidatedOutcome(outcome: Result<PlanValue, GenerationError>)
  {
    outcome.Success? ==> outcome.value.Complete?
  }

  /** generatePlanFromBoard with the parsed value checked: a value that is not a
      complete plan is reported as InvalidFormat. It sends the same one request
      and agrees with the unchecked adapter on every reply that parses to a
      complete plan and on every failure. */
  function GeneratePlanValidated(
    boardUrl: string,
    generateContent: GenerateRequest -> Reply,
    parse: string -> Option<PlanValue>): (g: Generation)
    ensures ValidatedOutcome(g.result)
    ensures var unchecked := GeneratePlanFromBoard(boardUrl, generateContent, parse);
      g.requests == unchecked.requests &&
      (ValidatedOutcome(unchecked.result) ==> g == unchecked) &&
      (!ValidatedOutcome(unchecked.result) ==> g.result == Failure(InvalidFormat))
  {
    var unchecked := GeneratePlanFromBoard(boardUrl, generateContent, parse);
    if ValidatedOutcome(unchecked.result) then unchecked
    else unchecked.(result := Failure(InvalidFormat))
  }
}
