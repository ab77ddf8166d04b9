/**
 * The standalone package's `SummarizationService`: no configuration check,
 * a default limit of 8000 characters, and no short-circuit for empty text.
 */
module SrcSummarization {
  import opened Wrappers
  import opened Text
  import opened PyValues
  import opened Summarization

  const DefaultMaxChars := 8000

  /**
   * `SummarizationService()`: reads `OLLAMA_MODEL`, then `OLLAMA_BASE_URL`,
   * without checking their values; an unbound one raises `AttributeError`.
   */
  function NewService(s: Settings): (r: Result<Service, Exc>)
    ensures r.Ok? <==> s.ollamaModel.Defined? && s.ollamaBaseUrl.Defined?
    ensures r.Ok? ==> r.value.llmConfig == ChatConfig(s.ollamaModel.value, s.ollamaBaseUrl.value)
    ensures r.Err? ==> r.error.cls == AttributeError
  {
    match ReadSetting(s.ollamaModel, "OLLAMA_MODEL")
    case Err(e) => Err(e)
    case Ok(model) =>
      match ReadSetting(s.ollamaBaseUrl, "OLLAMA_BASE_URL")
      case Err(e) => Err(e)
      case Ok(base) => Ok(Service(ChatConfig(model, base)))
  }

  /**
   * `svc.summarize(text)` (with `maxChars` as `None`) or
   * `svc.summarize(text, max_chars)`. The model is always asked, about a
   * prefix of the text no longer than the limit.
   */
  function Summarize(svc: Service, text: string, maxChars: Option<int>, llm: Llm): (r: Summary)
    ensures r.prompt.Some?
    ensures Embedded(r.prompt.value) <= text
    ensures maxChars.None? ==> |Embedded(r.prompt.value)| <= DefaultMaxChars
    ensures maxChars.Some? && maxChars.value >= 0 ==> |Embedded(r.prompt.value)| <= maxChars.value
    ensures maxChars.Some? ==> r.prompt == Some(Prompt(Slice(text, maxChars.value)))
    ensures r.result.Ok? <==> llm(svc.llmConfig, r.prompt.value).Ok?
    ensures r.result.Ok? ==> r.result.value == NormalizeContent(llm(svc.llmConfig, r.prompt.value).value)
    ensures r.result.Err? ==> r.result.error == llm(svc.llmConfig, r.prompt.value).error
  {
    var n := match maxChars case Some(m) => m case None => DefaultMaxChars;
    var t := Slice(text, n);
    var r := Ask(svc.llmConfig, t, llm);
    assert Embedded(r.prompt.value) <= t <= text;
    r
  }

  /** Even the empty text is sent to the model. */
  lemma EmptyTextAsked(svc: Service, llm: Llm)
    ensures Summarize(svc, "", None, llm).prompt == Some(Prompt(""))
  {
  }

  /**
   * Under the default limit, a text of at most 8000 characters that does not
   * contain "\n\n要約は" is embedded whole; a longer one is cut to its first
   * 8000 characters.
   */
  lemma DefaultLimit(svc: Service, text: string, llm: Llm)
    ensures |text| <= DefaultMaxChars ==> Summarize(svc, text, None, llm).prompt == Some(Prompt(text))
    ensures |text| > DefaultMaxChars ==> Summarize(svc, text, None, llm).prompt == Some(Prompt(text[..DefaultMaxChars]))
    ensures |text| <= DefaultMaxChars && !Contains(text, EndMarker) ==>
      Embedded(Summarize(svc, text, None, llm).prompt.value) == text
  {
    PromptRoundTrip(text);
  }
}
