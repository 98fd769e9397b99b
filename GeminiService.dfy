/**
 * The generation request and the handling of its response. The SDK call
 * itself is a parameter: a function from the request to what the call
 * produced. Parsing the response text as a plan is a parameter as well, a
 * function that may fail with a message.
 */
module GeminiService {
  import opened Wrappers
  import opened Types
  import Schema
  import Prompt

  const ModelId: string := "gemini-2.5-flash"
  const JsonMimeType: string := "application/json"
  const NoResponseMessage: string := "No response from AI"

  datatype Request = Request(
    model: string,
    contents: string,
    responseMimeType: string,
    responseSchema: Schema.Schema)

  /** What the SDK call produced: a response whose text may be absent, or a thrown error's message. */
  datatype CallOutcome = Responded(text: Option<string>) | Threw(message: string)

  /** The request for one niche, language and region; only the contents depend on them. */
  function BuildRequest(segment: string, language: string, region: string): (r: Request)
    ensures r.model == ModelId && r.responseMimeType == JsonMimeType
    ensures r.responseSchema == Schema.MarketingPlanSchema
    ensures r.contents == Prompt.BuildPrompt(segment, language, region)
  {
    Request(ModelId, Prompt.BuildPrompt(segment, language, region), JsonMimeType, Schema.MarketingPlanSchema)
  }

  /** `!text`: the response text is absent or empty. */
  predicate NoText(text: Option<string>)
  {
    text == None || text == Some("")
  }

  /** The guard and the parse after the call returned. */
  function ReadResponse(text: Option<string>, parse: string -> Result<MarketingPlan, string>): Result<MarketingPlan, string>
  {
    if NoText(text) then Failure(NoResponseMessage) else parse(text.value)
  }

  /** One generation: build the request, call the backend, read the response; errors propagate as they are. */
  function GenerateMarketingPlan(
    segment: string, language: string, region: string,
    backend: Request -> CallOutcome,
    parse: string -> Result<MarketingPlan, string>): Result<MarketingPlan, string>
  {
    match backend(BuildRequest(segment, language, region))
    case Threw(message) => Failure(message)
    case Responded(text) => ReadResponse(text, parse)
  }

  /**
   * An absent or empty text fails with "No response from AI" whatever the
   * parser would have said: the parser is never consulted.
   */
  lemma EmptyResponseIsNotParsed(text: Option<string>, parse: string -> Result<MarketingPlan, string>, other: string -> Result<MarketingPlan, string>)
    requires NoText(text)
    ensures ReadResponse(text, parse) == Failure(NoResponseMessage)
    ensures ReadResponse(text, parse) == ReadResponse(text, other)
  {
  }

  /** A non-empty text yields exactly what parsing that text yields, success or error. */
  lemma TextIsParsedAsIs(t: string, parse: string -> Result<MarketingPlan, string>)
    requires t != ""
    ensures ReadResponse(Some(t), parse) == parse(t)
  {
  }

  /**
   * Every outcome of a generation traces back to the backend: a plan is the
   * parse of a non-empty response text, and an error is either the empty-response
   * error, the backend's own error, or the parser's error, with its message unchanged.
   */
  lemma GenerationOutcomes(
    segment: string, language: string, region: string,
    backend: Request -> CallOutcome,
    parse: string -> Result<MarketingPlan, string>)
    ensures var call := backend(BuildRequest(segment, language, region));
            var r := GenerateMarketingPlan(segment, language, region, backend, parse);
            && (r.Success? ==> call.Responded? && !NoText(call.text) && parse(call.text.value) == r)
            && (r.Failure? ==>
                 || call == Threw(r.error)
                 || (call.Responded? && NoText(call.text) && r.error == NoResponseMessage)
                 || (call.Responded? && !NoText(call.text) && parse(call.text.value) == r))
  {
  }
}
