/** The conversion service the application calls: a fixed model of the
    managed generation API under the build environment's key, and one
    catch-all failure message. */
module GeminiService {
  import opened Wrappers
  import opened JsString
  import opened Types
  import opened Prompt
  import opened Backend
  import opened Sanitizer

  const FailureMessage: string := "Failed to convert content. Please check your API key or input size."
  const Model: string := "gemini-2.5-flash"
  /** This file's template continuation lines are indented by four spaces. */
  const Indent: string := "    "

  /** The one request a conversion sends: always the same model, key,
      instruction and generation settings; only the prompt varies. */
  function RequestFor(content: string, from: FormatType, to: FormatType): (q: GenerateRequest)
    ensures q.credential == EnvironmentKey && q.model == Model
    ensures q.contents == BuildPrompt(Indent, content, from, to)
    ensures q.systemInstruction == SystemInstruction
    ensures q.temperatureTenths == TemperatureTenths && q.maxOutputTokens == MaxOutputTokens
  {
    GenerateRequest(EnvironmentKey, Model, BuildPrompt(Indent, content, from, to), SystemInstruction,
                    TemperatureTenths, MaxOutputTokens)
  }

  /** `convertContent(content, fromFormat, toFormat)` given what the call
      gave: blank input gives the empty text whatever the reply, since no
      call is made; otherwise the reply's text, cleaned of fences and
      trimmed; anything thrown on the way, the API's error or the clean-up's,
      becomes the one fixed message. */
  function Converted(content: string, outcome: GenerateOutcome): (r: Result<string, string>)
    ensures IsBlank(content) ==> r == Success("")
    ensures r.Failure? ==> r.error == FailureMessage
    ensures r.Success? ==> IsTrimmed(r.value)
    ensures !IsBlank(content) && outcome.GenerateThrew? ==> r == Failure(FailureMessage)
  {
    if Trim(content) == [] then Success("")
    else match GeneratedText(outcome)
      case Failure(_) => Failure(FailureMessage)
      case Success(text) =>
        match Sanitized(text)
        case Failure(_) => Failure(FailureMessage)
        case Success(clean) => Success(clean)
  }

  /** The service body step by step, awaiting the one call. */
  method ConvertContent(content: string, from: FormatType, to: FormatType,
                        generate: GenerateRequest -> GenerateOutcome) returns (r: Result<string, string>)
    ensures r == Converted(content, generate(RequestFor(content, from, to)))
  {
    if Trim(content) == [] {
      return Success("");
    }
    var response := generate(RequestFor(content, from, to));
    ConvertedAfterCheck(content, response);
    if response.GenerateThrew? {
      return Failure(FailureMessage);
    }
    var text := response.text.GetOr("");
    r := Sanitize(text);
    if r.Failure? {
      r := Failure(FailureMessage);
    }
  }

  /** Past the blank check, a thrown call fails with the fixed message and
      a response's text is cleaned up, a clean-up failure becoming the
      fixed message too. */
  lemma {:induction false} ConvertedAfterCheck(content: string, outcome: GenerateOutcome)
    requires Trim(content) != []
    ensures outcome.GenerateThrew? ==> Converted(content, outcome) == Failure(FailureMessage)
    ensures outcome.Generated? ==> var s := Sanitized(outcome.text.GetOr(""));
      Converted(content, outcome) == if s.Failure? then Failure(FailureMessage) else s
  {
  }

  /** A response whose text is fenced converts to the fenced content. */
  lemma {:induction false} FencedAnswer(content: string, tag: string, answer: string)
    requires !IsBlank(content) && '\n' !in tag && IsTrimmed(answer)
    ensures Converted(content, Generated(Some(Fence + tag + "\n" + answer + "\n" + Fence))) == Success(answer)
  {
    FenceRoundTrip(tag, answer);
    assert Trim(content) != [];
  }

  /** A response without text converts to the empty text. */
  lemma {:induction false} MissingTextIsEmpty(content: string)
    requires !IsBlank(content)
    ensures Converted(content, Generated(None)) == Success("")
  {
    assert Trim(content) != [];
    assert Sanitized("") == Success("");
  }

  /** A one-line fenced response makes the clean-up throw, which surfaces
      as the fixed message. */
  lemma {:induction false} OneLineFenceFails(content: string, tag: string)
    requires !IsBlank(content) && '\n' !in tag
    ensures Converted(content, Generated(Some(Fence + tag))) == Failure(FailureMessage)
  {
    OneLineFenceThrows(tag);
    assert Trim(content) != [];
  }
}
