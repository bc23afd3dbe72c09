/** How the two service files relate on the same reply. */
module ServiceAgreement {
  import opened Wrappers
  import opened JsString
  import opened Types
  import opened Backend
  import LlmService
  import GeminiService

  /** Under a configured key for the managed API, both services turn the
      same response into the same text; they differ only in the message
      of a failure. */
  lemma {:induction false} SameCleanUp(content: string, config: LLMConfig, outcome: GenerateOutcome)
    requires !IsBlank(content) && config.provider == Gemini && config.apiKey != []
    ensures var l := LlmService.Converted(content, config, GenerateReply(outcome));
      var g := GeminiService.Converted(content, outcome);
      && (l.Success? <==> g.Success?)
      && (g.Success? ==> l == g)
      && (g.Failure? ==> g.error == GeminiService.FailureMessage && l.error != [])
  {
    LlmService.ConvertedAfterChecks(content, config, GenerateReply(outcome));
    assert Trim(content) != [];
    GeminiService.ConvertedAfterCheck(content, outcome);
  }
}
