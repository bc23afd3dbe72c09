/** The configurable conversion service: one prompt, sent either to the
    managed generation API or to any chat-completions endpoint, the answer
    cleaned of code fences. The two network calls are parameters. */
module LlmService {
  import opened Wrappers
  import opened JsString
  import opened Types
  import opened Prompt
  import opened Backend
  import opened Sanitizer

  const MissingKeyMessage: string := "API Key is missing. Please check Settings."
  const FallbackMessage: string := "Failed to convert content. Please check your settings."
  const DefaultModel: string := "gemini-2.5-flash"
  const DefaultBaseUrl: string := "https://api.openai.com/v1"
  const VersionPath: string := "/v1"
  const CompletionsPath: string := "/chat/completions"
  /** This file's template continuation lines are indented by two spaces. */
  const Indent: string := "  "

  /** The address looks like a server on this machine or the local network. */
  predicate IsLocalAddress(url: string)
    ensures IsLocalAddress(url) ==> |url| >= 5
  {
    || Includes(url, "localhost") || Includes(url, "127.0.0.1") || Includes(url, "192.168.")
    || Includes(url, ":1234") || Includes(url, ":11434")
  }

  /** `replace(/\/$/, '')`: one trailing slash goes, no more. */
  function DropTrailingSlash(s: string): (r: string)
    ensures |s| > 0 && s[|s| - 1] == '/' ==> r + "/" == s
    ensures !(|s| > 0 && s[|s| - 1] == '/') ==> r == s
  {
    if |s| > 0 && s[|s| - 1] == '/' then s[..|s| - 1] else s
  }

  /** The configured address trimmed, the default when blank, one trailing
      slash dropped: the address before the local-server fix. */
  function CleanedBaseUrl(configured: string): (b: string)
    ensures b == [] || !IsWhitespace(b[0])
    ensures IsBlank(configured) ==> b == DefaultBaseUrl
    ensures !IsBlank(configured) && EndsWith(Trim(configured), "/") ==> b + "/" == Trim(configured)
    ensures !IsBlank(configured) && !EndsWith(Trim(configured), "/") ==> b == Trim(configured)
  {
    var t := Trim(configured);
    assert DefaultBaseUrl[|DefaultBaseUrl| - 1] == '1';
    EndsWithChar(t, '/');
    DropTrailingSlash(if t == [] then DefaultBaseUrl else t)
  }

  /** The base address the chat request goes to. A blank setting means the
      public endpoint; a local server always ends up with the version path;
      the result never starts with whitespace. */
  function NormalizedBaseUrl(configured: string): (u: string)
    ensures IsBlank(configured) ==> u == DefaultBaseUrl
    ensures IsLocalAddress(u) ==> EndsWith(u, VersionPath)
    ensures u == [] || !IsWhitespace(u[0])
    ensures u == CleanedBaseUrl(configured) || u == CleanedBaseUrl(configured) + VersionPath
    ensures u != CleanedBaseUrl(configured) <==>
      IsLocalAddress(CleanedBaseUrl(configured)) && !EndsWith(CleanedBaseUrl(configured), VersionPath)
  {
    var b := CleanedBaseUrl(configured);
    if IsLocalAddress(b) && !EndsWith(b, VersionPath) then
      LocalAfterAppend(b, VersionPath);
      assert |b + VersionPath| > |b|;
      b + VersionPath
    else
      b
  }

  /** Only the trimmed setting matters. */
  lemma {:induction false} NormalizeTrimmed(configured: string)
    ensures NormalizedBaseUrl(configured) == NormalizedBaseUrl(Trim(configured))
  {
    TrimOfTrimmed(Trim(configured));
  }

  /** Appending keeps an address local. */
  lemma {:induction false} LocalAfterAppend(b: string, t: string)
    requires IsLocalAddress(b)
    ensures IsLocalAddress(b + t)
  {
    if Includes(b, "localhost") { IncludesAppend(b, t, "localhost"); }
    else if Includes(b, "127.0.0.1") { IncludesAppend(b, t, "127.0.0.1"); }
    else if Includes(b, "192.168.") { IncludesAppend(b, t, "192.168."); }
    else if Includes(b, ":1234") { IncludesAppend(b, t, ":1234"); }
    else { IncludesAppend(b, t, ":11434"); }
  }

  /** The normalisation as the service writes it, one reassignment per step. */
  method NormalizeBaseUrl(configured: string) returns (baseUrl: string)
    ensures baseUrl == NormalizedBaseUrl(configured)
  {
    baseUrl := Trim(configured);
    if baseUrl == [] {
      baseUrl := DefaultBaseUrl;
    }
    baseUrl := DropTrailingSlash(baseUrl);
    if IsLocalAddress(baseUrl) && !EndsWith(baseUrl, VersionPath) {
      baseUrl := baseUrl + VersionPath;
    }
  }

  /** Normalising an address that already names a local server changes
      nothing. */
  lemma {:induction false} NormalizeLocalIdempotent(configured: string)
    requires IsLocalAddress(NormalizedBaseUrl(configured))
    ensures NormalizedBaseUrl(NormalizedBaseUrl(configured)) == NormalizedBaseUrl(configured)
  {
    var u := NormalizedBaseUrl(configured);
    CleanAddressFixed(u);
  }

  /** An address that does not end in a slash or whitespace and does not
      start with whitespace is left alone unless it is a local server
      without the version path. */
  lemma {:induction false} CleanAddressFixed(u: string)
    requires u != [] && !IsWhitespace(u[0]) && !IsWhitespace(u[|u| - 1]) && u[|u| - 1] != '/'
    requires IsLocalAddress(u) ==> EndsWith(u, VersionPath)
    ensures NormalizedBaseUrl(u) == u
  {
    TrimOfTrimmed(u);
    assert CleanedBaseUrl(u) == u;
  }

  /** Normalising the result again changes nothing when it ends in neither
      a slash nor whitespace. */
  lemma {:induction false} NormalizeIdempotentWhenClean(configured: string)
    requires var u := NormalizedBaseUrl(configured);
      u != [] && !IsWhitespace(u[|u| - 1]) && u[|u| - 1] != '/'
    ensures NormalizedBaseUrl(NormalizedBaseUrl(configured)) == NormalizedBaseUrl(configured)
  {
    CleanAddressFixed(NormalizedBaseUrl(configured));
  }

  /** Only one trailing slash is dropped, so normalising twice can differ
      from normalising once: an address that is not a local server and ends
      in two slashes loses one slash the first time and the other the
      second time. */
  lemma {:induction false} NormalizeNotIdempotent(a: string)
    requires a != [] && IsTrimmed(a) && a[|a| - 1] != '/'
    requires !IsLocalAddress(a + "/")
    ensures NormalizedBaseUrl(a + "//") == a + "/"
    ensures NormalizedBaseUrl(a + "/") == a
  {
    if IsLocalAddress(a) {
      LocalAfterAppend(a, "/");
    }
    TrimOfTrimmed(a + "//");
    TrimOfTrimmed(a + "/");
    assert (a + "//")[..|a| + 1] == a + "/";
    assert (a + "/")[..|a|] == a;
  }

  /** The default applies before the slash is dropped, so a setting of a
      single slash gives the empty base address, which normalises in turn to
      the public endpoint. */
  lemma {:induction false} SlashOnlyBaseUrl()
    ensures NormalizedBaseUrl("/") == []
    ensures NormalizedBaseUrl([]) == DefaultBaseUrl
  {
    var slash: string := "/";
    assert IsTrimmed(slash) && !IsBlank(slash);
    TrimOfTrimmed(slash);
    assert DropTrailingSlash(slash) == [];
    var b := CleanedBaseUrl(slash);
    assert b == [];
    assert !Includes(b, "localhost") && !Includes(b, "127.0.0.1") && !Includes(b, "192.168.")
      && !Includes(b, ":1234") && !Includes(b, ":11434");
    assert IsBlank([]);
  }

  /** With a base address of a single slash the chat request goes to the
      relative address `/chat/completions`, on the page's own origin. */
  lemma {:induction false} SlashOnlyRequestIsRelative(config: LLMConfig, prompt: string)
    requires config.baseUrl == "/"
    ensures ChatRequestFor(config, prompt).url == CompletionsPath
  {
    SlashOnlyBaseUrl();
  }

  /** A local server address given without the version path, such as
      `http://localhost:1234`, gets it appended, with or without one
      trailing slash. */
  lemma {:induction false} LocalServerGetsVersion(u: string)
    requires u != [] && IsTrimmed(u) && u[|u| - 1] != '/'
    requires IsLocalAddress(u) && !EndsWith(u, VersionPath)
    ensures NormalizedBaseUrl(u) == u + VersionPath
    ensures NormalizedBaseUrl(u + "/") == u + VersionPath
  {
    TrimOfTrimmed(u);
    TrimOfTrimmed(u + "/");
    assert (u + "/")[..|u|] == u;
  }

  /** The request to the managed API: the configured key, the configured
      model or the default one, the prompt and the fixed generation settings. */
  function GeminiRequest(config: LLMConfig, prompt: string): (q: GenerateRequest)
    ensures q.credential == ConfiguredKey(config.apiKey) && q.contents == prompt
    ensures config.model != [] ==> q.model == config.model
    ensures config.model == [] ==> q.model == DefaultModel
    ensures q.systemInstruction == SystemInstruction
    ensures q.temperatureTenths == TemperatureTenths && q.maxOutputTokens == MaxOutputTokens
  {
    GenerateRequest(
      ConfiguredKey(config.apiKey),
      if config.model == [] then DefaultModel else config.model,
      prompt, SystemInstruction, TemperatureTenths, MaxOutputTokens)
  }

  /** The POST to the chat-completions endpoint under the normalised base
      address, with a bearer token, the configured model, the instruction
      as system message and the prompt as user message. */
  function ChatRequestFor(config: LLMConfig, prompt: string): (q: ChatRequest)
    ensures q.url == NormalizedBaseUrl(config.baseUrl) + CompletionsPath
    ensures q.contentType == "application/json" && q.authorization == "Bearer " + config.apiKey
    ensures q.model == config.model
    ensures q.messages == [ChatMessage("system", SystemInstruction), ChatMessage("user", prompt)]
    ensures q.temperatureTenths == TemperatureTenths && q.maxTokens == MaxOutputTokens
  {
    ChatRequest(
      NormalizedBaseUrl(config.baseUrl) + CompletionsPath,
      "application/json",
      "Bearer " + config.apiKey,
      config.model,
      [ChatMessage("system", SystemInstruction), ChatMessage("user", prompt)],
      TemperatureTenths, MaxOutputTokens)
  }

  /** The error a non-2xx answer is turned into: the body's `error.message`
      when it has a non-empty one, else the status line. */
  function HttpErrorMessage(status: nat, statusText: string, body: ResponseBody): (m: string)
    ensures m != []
    ensures body.Parsed? && body.errorMessage.Some? && body.errorMessage.value != [] ==> m == body.errorMessage.value
    ensures !(body.Parsed? && body.errorMessage.Some? && body.errorMessage.value != []) ==>
      m == "API Error: " + NatToString(status) + " " + statusText
  {
    match body
    case Parsed(Some(message), _) =>
      if message != [] then message else "API Error: " + NatToString(status) + " " + statusText
    case _ => "API Error: " + NatToString(status) + " " + statusText
  }

  /** The raw text of a chat-completions answer (`choices[0].message.content`,
      empty when absent), or what was thrown on the way: the network error,
      the error of a non-2xx answer, or the parse error of a 2xx body. */
  function FetchedText(o: FetchOutcome): (r: Result<string, string>)
    ensures r.Success? <==> o.Responded? && IsOk(o.status) && o.body.Parsed?
    ensures r.Success? ==> r.value == o.body.firstChoiceContent.GetOr("")
    ensures o.Responded? && !IsOk(o.status) ==> r == Failure(HttpErrorMessage(o.status, o.statusText, o.body))
    ensures o.FetchThrew? ==> r == Failure(o.message)
    ensures o.Responded? && IsOk(o.status) && o.body.Unparseable? ==> r == Failure(o.body.parseError)
  {
    match o
    case FetchThrew(message) => Failure(message)
    case Responded(status, statusText, body) =>
      if !IsOk(status) then Failure(HttpErrorMessage(status, statusText, body))
      else match body
        case Unparseable(parseError) => Failure(parseError)
        case Parsed(_, content) => Success(content.GetOr(""))
  }

  /** The catch block: the caught message, or the fallback when it is empty. */
  function Rethrown(message: string): (m: string)
    ensures m != []
    ensures message != [] ==> m == message
    ensures message == [] ==> m == FallbackMessage
  {
    if message == [] then FallbackMessage else message
  }

  /** The raw text a reply carries, or the message of what was thrown. */
  function ReplyText(reply: Reply): (r: Result<string, string>)
    ensures r.Success? <==>
      || (reply.GenerateReply? && reply.generated.Generated?)
      || (reply.FetchReply? && reply.fetched.Responded? && IsOk(reply.fetched.status) && reply.fetched.body.Parsed?)
  {
    match reply
    case GenerateReply(o) => GeneratedText(o)
    case FetchReply(o) => FetchedText(o)
  }

  /** The call the configuration's provider selects for a prompt: the
      managed API under `gemini`, the chat endpoint otherwise (with or
      without a key). Both carry the prompt and the instruction. */
  function SelectedCall(config: LLMConfig, prompt: string): (c: Call)
    ensures c.GenerateCall? <==> config.provider == Gemini
    ensures c.GenerateCall? ==> c.generateRequest.contents == prompt && c.generateRequest.model != []
    ensures c.GenerateCall? ==> c.generateRequest.credential == ConfiguredKey(config.apiKey)
    ensures c.GenerateCall? && config.model != [] ==> c.generateRequest.model == config.model
    ensures c.GenerateCall? && config.model == [] ==> c.generateRequest.model == DefaultModel
    ensures c.FetchCall? ==> |c.chatRequest.messages| == 2 && c.chatRequest.messages[1] == ChatMessage("user", prompt)
    ensures c.FetchCall? ==> c.chatRequest.url == NormalizedBaseUrl(config.baseUrl) + CompletionsPath
    ensures c.FetchCall? ==> c.chatRequest.authorization == "Bearer " + config.apiKey && c.chatRequest.model == config.model
    ensures c.FetchCall? && IsBlank(config.baseUrl) ==> c.chatRequest.url == DefaultBaseUrl + CompletionsPath
  {
    if config.provider == Gemini then GenerateCall(GeminiRequest(config, prompt))
    else FetchCall(ChatRequestFor(config, prompt))
  }

  /** The part of the service inside `try`, after the backend answered: a
      thrown message is rethrown, the raw text is cleaned of fences; the
      result is trimmed and a failure carries a non-empty message. */
  function Finished(raw: Result<string, string>): (r: Result<string, string>)
    ensures r.Success? ==> raw.Success? && Sanitized(raw.value) == r && IsTrimmed(r.value)
    ensures r.Failure? ==> r.error != []
    ensures raw.Failure? ==> r == Failure(Rethrown(raw.error))
  {
    match raw
    case Failure(message) => Failure(Rethrown(message))
    case Success(text) =>
      match Sanitized(text)
      case Failure(message) => Failure(Rethrown(message))
      case Success(clean) => Success(clean)
  }

  /** `convertContent(content, fromFormat, toFormat, config)` given the reply
      to the call it makes (see `SelectedCall`): blank input gives the empty
      text and a missing key for the managed API is refused, both whatever
      the reply, since no call is made; otherwise the reply is cleaned of
      fences and trimmed, and every failure carries a non-empty message. */
  function Converted(content: string, config: LLMConfig, reply: Reply): (r: Result<string, string>)
    ensures IsBlank(content) ==> r == Success("")
    ensures !IsBlank(content) && config.provider == Gemini && config.apiKey == [] ==> r == Failure(MissingKeyMessage)
    ensures r.Failure? ==> r.error != []
    ensures r.Success? ==> IsTrimmed(r.value)
  {
    if Trim(content) == [] then Success("")
    else if config.apiKey == [] && config.provider == Gemini then Failure(MissingKeyMessage)
    else Finished(ReplyText(reply))
  }

  /** The service body step by step: the checks before `try`, then the one
      backend call, the fence clean-up and the catch block. */
  method ConvertContent(content: string, from: FormatType, to: FormatType, config: LLMConfig,
                        generate: GenerateRequest -> GenerateOutcome,
                        fetch: ChatRequest -> FetchOutcome) returns (r: Result<string, string>)
    ensures r == Converted(content, config, Answer(SelectedCall(config, BuildPrompt(Indent, content, from, to)), generate, fetch))
  {
    ghost var reply := Answer(SelectedCall(config, BuildPrompt(Indent, content, from, to)), generate, fetch);
    if Trim(content) == [] {
      return Success("");
    }
    if config.apiKey == [] && config.provider == Gemini {
      return Failure(MissingKeyMessage);
    }
    var prompt := BuildPrompt(Indent, content, from, to);
    var raw := AwaitRawText(config, prompt, generate, fetch);
    ConvertedAfterChecks(content, config, reply);
    if raw.Failure? {
      return Failure(Rethrown(raw.error));
    }
    r := Sanitize(raw.value);
    FinishedAfterCleanUp(raw.value);
    if r.Failure? {
      r := Failure(Rethrown(r.error));
    }
  }

  /** A raw text that arrived is cleaned up, and a clean-up failure is
      rethrown. */
  lemma {:induction false} FinishedAfterCleanUp(text: string)
    ensures Finished(Success(text)) ==
      if Sanitized(text).Failure? then Failure(Rethrown(Sanitized(text).error)) else Sanitized(text)
  {
  }

  /** The awaited backend call of the configuration's provider, with the
      base address normalised step by step for the chat endpoint. */
  method AwaitRawText(config: LLMConfig, prompt: string,
                      generate: GenerateRequest -> GenerateOutcome,
                      fetch: ChatRequest -> FetchOutcome) returns (raw: Result<string, string>)
    ensures raw == ReplyText(Answer(SelectedCall(config, prompt), generate, fetch))
  {
    if config.provider == Gemini {
      var response := generate(GeminiRequest(config, prompt));
      if response.GenerateThrew? {
        return Failure(response.message);
      }
      return Success(response.text.GetOr(""));
    }
    var baseUrl := NormalizeBaseUrl(config.baseUrl);
    var request := ChatRequest(
      baseUrl + CompletionsPath, "application/json", "Bearer " + config.apiKey, config.model,
      [ChatMessage("system", SystemInstruction), ChatMessage("user", prompt)],
      TemperatureTenths, MaxOutputTokens);
    assert request == ChatRequestFor(config, prompt);
    var response := fetch(request);
    if response.FetchThrew? {
      return Failure(response.message);
    }
    if !IsOk(response.status) {
      return Failure(HttpErrorMessage(response.status, response.statusText, response.body));
    }
    if response.body.Unparseable? {
      return Failure(response.body.parseError);
    }
    raw := Success(response.body.firstChoiceContent.GetOr(""));
  }

  /** Past the two checks (under the chat provider an empty key passes), the
      result is the reply's text cleaned up. */
  lemma {:induction false} ConvertedAfterChecks(content: string, config: LLMConfig, reply: Reply)
    requires !IsBlank(content)
    requires config.provider == OpenAI || config.apiKey != []
    ensures Converted(content, config, reply) == Finished(ReplyText(reply))
  {
    assert Trim(content) != [];
  }

  /** An endpoint answering 2xx with a fenced answer: the fenced content
      comes back without its fences. */
  lemma {:induction false} FencedAnswerFromEndpoint(content: string, config: LLMConfig, tag: string, answer: string)
    requires !IsBlank(content) && config.provider == OpenAI
    requires '\n' !in tag && IsTrimmed(answer)
    ensures var body := Parsed(None, Some(Fence + tag + "\n" + answer + "\n" + Fence));
      Converted(content, config, FetchReply(Responded(200, "OK", body))) == Success(answer)
  {
    var raw := Fence + tag + "\n" + answer + "\n" + Fence;
    ConvertedAfterChecks(content, config, FetchReply(Responded(200, "OK", Parsed(None, Some(raw)))));
    FenceRoundTrip(tag, answer);
    assert Finished(Success(raw)) == Success(answer);
  }

  /** A non-2xx answer fails with the body's error message when it has a
      non-empty one, else with the status line. */
  lemma {:induction false} HttpErrorSurfaces(content: string, config: LLMConfig, status: nat, statusText: string, body: ResponseBody)
    requires !IsBlank(content) && config.provider == OpenAI && !IsOk(status)
    ensures Converted(content, config, FetchReply(Responded(status, statusText, body)))
      == Failure(HttpErrorMessage(status, statusText, body))
  {
    ConvertedAfterChecks(content, config, FetchReply(Responded(status, statusText, body)));
  }

  /** A managed-API response without text converts to the empty text. */
  lemma {:induction false} MissingTextIsEmpty(content: string, config: LLMConfig)
    requires !IsBlank(content) && config.provider == Gemini && config.apiKey != []
    ensures Converted(content, config, GenerateReply(Generated(None))) == Success("")
  {
    ConvertedAfterChecks(content, config, GenerateReply(Generated(None)));
    assert Sanitized("") == Success("");
  }
}
