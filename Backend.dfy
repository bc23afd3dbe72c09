/** The two calls the services make to the outside world, as values: the
    managed generation API and an HTTP POST to a chat-completions endpoint.
    What they answer is a parameter of the model. */
module Backend {
  import opened Wrappers

  /** Sampling temperature both services request, in tenths (0.1). */
  const TemperatureTenths: nat := 1

  /** Output-token ceiling both services request. */
  const MaxOutputTokens: nat := 8192

  /** The key the managed-API client was built with: one from the
      configuration, or the one the build environment supplies. */
  datatype Credential = ConfiguredKey(key: string) | EnvironmentKey

  /** `ai.models.generateContent({ model, contents, config })`. */
  datatype GenerateRequest = GenerateRequest(
    credential: Credential,
    model: string,
    contents: string,
    systemInstruction: string,
    temperatureTenths: nat,
    maxOutputTokens: nat)

  /** The awaited call either yields a response whose `.text` may be unset,
      or throws an error with a message. */
  datatype GenerateOutcome = Generated(text: Option<string>) | GenerateThrew(message: string)

  /** One entry of the `messages` array of a chat-completions body. */
  datatype ChatMessage = ChatMessage(role: string, content: string)

  /** `fetch(url, { method: 'POST', headers, body })` against a
      chat-completions endpoint. */
  datatype ChatRequest = ChatRequest(
    url: string,
    contentType: string,
    authorization: string,
    model: string,
    messages: seq<ChatMessage>,
    temperatureTenths: nat,
    maxTokens: nat)

  /** What `response.json()` gives: a parse failure with its message, or the
      two fields the service reads, `error.message` and
      `choices[0].message.content`, either of which may be absent. */
  datatype ResponseBody =
    | Unparseable(parseError: string)
    | Parsed(errorMessage: Option<string>, firstChoiceContent: Option<string>)

  /** The awaited `fetch`: an HTTP response, or a thrown network error. */
  datatype FetchOutcome =
    | Responded(status: nat, statusText: string, body: ResponseBody)
    | FetchThrew(message: string)

  /** `response.ok`: a 2xx status. */
  predicate IsOk(status: nat) {
    200 <= status <= 299
  }

  /** The raw text the managed API produced (`response.text || ''`), or the
      message of what it threw. */
  function GeneratedText(o: GenerateOutcome): (r: Result<string, string>)
    ensures r.Success? <==> o.Generated?
    ensures o.Generated? ==> r.value == o.text.GetOr("")
    ensures o.GenerateThrew? ==> r.error == o.message
  {
    match o
    case Generated(text) => Success(text.GetOr(""))
    case GenerateThrew(message) => Failure(message)
  }

  /** The one call a conversion makes: to the managed API or to the
      chat-completions endpoint. */
  datatype Call = GenerateCall(generateRequest: GenerateRequest) | FetchCall(chatRequest: ChatRequest)

  /** What the awaited call gave. */
  datatype Reply = GenerateReply(generated: GenerateOutcome) | FetchReply(fetched: FetchOutcome)

  /** The reply to `call` from the given behaviour of the two services. */
  function Answer(call: Call, generate: GenerateRequest -> GenerateOutcome,
                  fetch: ChatRequest -> FetchOutcome): (reply: Reply)
    ensures reply.GenerateReply? <==> call.GenerateCall?
  {
    match call
    case GenerateCall(request) => GenerateReply(generate(request))
    case FetchCall(request) => FetchReply(fetch(request))
  }
}
