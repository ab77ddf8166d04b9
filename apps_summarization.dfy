/**
 * The Django app's `SummarizationService`: a configuration check when it is
 * built, then `summarize`, which skips the model for empty text, resolves
 * the character limit from its argument or from `SUMMARY_MAX_CHARS`, cuts
 * the text, and asks the model.
 */
module AppsSummarization {
  import opened Wrappers
  import opened Text
  import opened PyValues
  import opened Summarization

  const ConfigMessage := "OLLAMA_BASE_URL / OLLAMA_MODEL is not configured."
  const MaxCharsMessage := "settings.SUMMARY_MAX_CHARS is not defined."

  /** The two Ollama settings are both bound and truthy. */
  predicate Configured(s: Settings) {
    s.ollamaBaseUrl.Defined? && Truthy(s.ollamaBaseUrl.value)
    && s.ollamaModel.Defined? && Truthy(s.ollamaModel.value)
  }

  /**
   * `_ensure_ollama_config()`: the exception it raises, if any. The `or`
   * reads `OLLAMA_MODEL` only once `OLLAMA_BASE_URL` has proved truthy, and
   * reading an unbound setting raises `AttributeError` before any check.
   */
  function EnsureConfig(s: Settings): (r: Option<Exc>)
    ensures r.None? <==> Configured(s)
    ensures r == Some(Exc(ImproperlyConfigured, ConfigMessage)) <==>
      (s.ollamaBaseUrl.Defined? && !Truthy(s.ollamaBaseUrl.value))
      || (s.ollamaBaseUrl.Defined? && Truthy(s.ollamaBaseUrl.value)
          && s.ollamaModel.Defined? && !Truthy(s.ollamaModel.value))
    ensures r.Some? && r.value.cls != ImproperlyConfigured ==>
      r.value.cls == AttributeError
      && (s.ollamaBaseUrl.Undefined? || s.ollamaModel.Undefined?)
  {
    match ReadSetting(s.ollamaBaseUrl, "OLLAMA_BASE_URL")
    case Err(e) => Some(e)
    case Ok(base) =>
      if !Truthy(base) then Some(Exc(ImproperlyConfigured, ConfigMessage))
      else
        match ReadSetting(s.ollamaModel, "OLLAMA_MODEL")
        case Err(e) => Some(e)
        case Ok(model) =>
          if !Truthy(model) then Some(Exc(ImproperlyConfigured, ConfigMessage)) else None
  }

  /**
   * `SummarizationService()`: the service, holding a chat model built from
   * the two settings, or the configuration error.
   */
  function NewService(s: Settings): (r: Result<Service, Exc>)
    ensures r.Ok? <==> Configured(s)
    ensures r.Ok? ==> r.value.llmConfig == ChatConfig(s.ollamaModel.value, s.ollamaBaseUrl.value)
    ensures r.Err? ==> Some(r.error) == EnsureConfig(s)
  {
    match EnsureConfig(s)
    case Some(e) => Err(e)
    case None => Ok(Service(ChatConfig(s.ollamaModel.value, s.ollamaBaseUrl.value)))
  }

  /**
   * The limit `text[:max_chars]` uses: the argument when one is given,
   * otherwise the value bound to `SUMMARY_MAX_CHARS`, whose absence raises
   * `AttributeError`.
   */
  function Limit(s: Settings, maxChars: Option<int>): (r: Result<Value, Exc>)
    ensures maxChars.Some? ==> r == Ok(Int(maxChars.value))
    ensures maxChars.None? && s.summaryMaxChars.Defined? ==> r == Ok(s.summaryMaxChars.value)
    ensures r.Err? <==> maxChars.None? && s.summaryMaxChars.Undefined?
    ensures r.Err? ==> r.error == Exc(AttributeError, MaxCharsMessage)
  {
    match maxChars
    case Some(n) => Ok(Int(n))
    case None =>
      match s.summaryMaxChars
      case Undefined => Err(Exc(AttributeError, MaxCharsMessage))
      case Defined(v) => Ok(v)
  }

  /**
   * `svc.summarize(text, max_chars)` with `settings` as `s`. Only the empty
   * string is short-circuited; the model is otherwise skipped only when the
   * limit cannot be resolved or used, and then the call raises.
   */
  function Summarize(svc: Service, s: Settings, text: string, maxChars: Option<int>, llm: Llm): (r: Summary)
    ensures text == "" ==> r == Summary(Ok(""), None)
    ensures text != "" && r.prompt.None? ==> r.result.Err?
    ensures r.prompt.Some? ==> text != "" && Embedded(r.prompt.value) <= text
    ensures r.prompt.Some? ==>
      (r.result.Ok? <==> llm(svc.llmConfig, r.prompt.value).Ok?)
      && (r.result.Ok? ==> r.result.value == NormalizeContent(llm(svc.llmConfig, r.prompt.value).value))
      && (r.result.Err? ==> r.result.error == llm(svc.llmConfig, r.prompt.value).error)
    ensures text != "" && maxChars.Some? ==> r.prompt == Some(Prompt(Slice(text, maxChars.value)))
    ensures text != "" && maxChars.None? && s.summaryMaxChars.Undefined? ==>
      r == Summary(Err(Exc(AttributeError, MaxCharsMessage)), None)
  {
    if text == "" then Summary(Ok(""), None)
    else
      match Limit(s, maxChars)
      case Err(e) => Summary(Err(e), None)
      case Ok(v) =>
        match SliceBy(text, v)
        case Err(e) => Summary(Err(e), None)
        case Ok(t) => Ask(svc.llmConfig, t, llm)
  }

  /**
   * Text made only of whitespace is not short-circuited: the model is asked
   * about it like any other non-empty text.
   */
  lemma WhitespaceReachesModel(svc: Service, s: Settings, text: string, n: int, llm: Llm)
    requires text != "" && AllSpace(text)
    ensures Summarize(svc, s, text, Some(n), llm).prompt.Some?
  {
  }

  /**
   * With no argument the limit comes from `SUMMARY_MAX_CHARS`: an integer
   * cuts the text, `None` keeps all of it, and a value of another type
   * raises `TypeError` before the model is asked.
   */
  lemma SettingLimitUsed(svc: Service, s: Settings, text: string, llm: Llm)
    requires text != "" && s.summaryMaxChars.Defined?
    ensures s.summaryMaxChars.value.Int? ==>
      Summarize(svc, s, text, None, llm).prompt == Some(Prompt(Slice(text, s.summaryMaxChars.value.i)))
    ensures s.summaryMaxChars.value.NoneValue? ==>
      Summarize(svc, s, text, None, llm).prompt == Some(Prompt(text))
    ensures s.summaryMaxChars.value.Str? ==>
      Summarize(svc, s, text, None, llm) == Summary(Err(Exc(TypeError, SliceTypeMessage)), None)
  {
  }

  /**
   * When the limit covers the whole text and the text does not contain
   * "\n\n要約は", the model's prompt gives back the text exactly.
   */
  lemma WholeTextRecovered(svc: Service, s: Settings, text: string, n: int, llm: Llm)
    requires text != "" && |text| <= n && !Contains(text, EndMarker)
    ensures Embedded(Summarize(svc, s, text, Some(n), llm).prompt.value) == text
  {
    SliceShort(text, n);
  }
}
