/**
 * What the two `SummarizationService` variants share: the Django settings
 * they read, the chat model as an uninterpreted function, the prompt
 * template that frames the page text, Python's prefix slice `text[:n]`, and
 * the conversion of the model's `content` to a string.
 */
module Summarization {
  import opened Wrappers
  import opened Text
  import opened PyValues

  /** An attribute of `django.conf.settings`: absent, or bound to a value. */
  datatype Setting = Undefined | Defined(value: Value)

  /** The settings the summarizers read. */
  datatype Settings = Settings(
    ollamaBaseUrl: Setting,
    ollamaModel: Setting,
    summaryMaxChars: Setting)

  /** `settings.<name>`: the bound value, or the `AttributeError` Django raises. */
  function ReadSetting(s: Setting, name: string): (r: Result<Value, Exc>)
    ensures r.Ok? <==> s.Defined?
    ensures r.Ok? ==> r.value == s.value
    ensures r.Err? ==> r.error.cls == AttributeError
  {
    match s
    case Defined(v) => Ok(v)
    case Undefined => Err(Exc(AttributeError, "'Settings' object has no attribute '" + name + "'"))
  }

  /** The arguments `ChatOllama(model=…, base_url=…)` was built with. */
  datatype ChatConfig = ChatConfig(model: Value, baseUrl: Value)

  /**
   * `ChatOllama(...).invoke(prompt).content`: the model's reply content, or
   * the exception the call raised. The model itself is not modelled.
   */
  type Llm = (ChatConfig, string) -> Result<Value, Exc>

  /**
   * What one `summarize` call did: the string it returned or the exception
   * it raised, and the prompt it sent to the model, if it invoked the model.
   */
  datatype Summary = Summary(result: Result<string, Exc>, prompt: Option<string>)

  // The template, cut where the page text goes and where it ends.
  const Lead := "以下のテキストを日本語で要約してください。\n\n"
  const TextMarker := "テキスト:\n"
  const EndMarker := "\n\n要約は"
  const Instructions := "以下の形式で出力してください。\nタイトル: 記事の内容を一行で表すタイトルを1つ生成してください。\n要点: 記事の最も重要なポイントを3つを目安として、最大5つまでの箇条書きで簡潔にまとめてください。各箇条書きは100字以内にしてください。\n"

  /** The prompt sent to the model for the (already truncated) text `t`. */
  function Prompt(t: string): string {
    Lead + TextMarker + t + EndMarker + Instructions
  }

  /**
   * The text between the first `open` of `s` and the first `close` after
   * it: what a reader gets by splitting at `open` and then at `close`.
   */
  function Between(s: string, open: string, close: string): string {
    var (_, _, after) := Partition(s, open);
    Partition(after, close).0
  }

  /** The text a reader recovers from a prompt. */
  function Embedded(prompt: string): string {
    Between(prompt, TextMarker, EndMarker)
  }

  /**
   * Framing `t` between an `open` that does not occur before it and a
   * `close` gives back `t` exactly when `t` does not contain `close`, and a
   * prefix of `t` in any case.
   */
  lemma BetweenFramed(lead: string, open: string, t: string, close: string, rest: string)
    requires |open| > 0 && Unbordered(open) && !Contains(lead, open)
    requires |close| > 0 && Unbordered(close)
    ensures Between(lead + open + t + close + rest, open, close) <= t
    ensures Between(lead + open + t + close + rest, open, close) == t <==> !Contains(t, close)
  {
    var after := t + close + rest;
    assert lead + open + t + close + rest == lead + open + after;
    PartitionAt(lead, open, after);
    UpToClose(t, close, rest);
  }

  /** The text before the first `close` of `t + close + rest`. */
  lemma UpToClose(t: string, close: string, rest: string)
    requires |close| > 0 && Unbordered(close)
    ensures Partition(t + close + rest, close).0 <= t
    ensures Partition(t + close + rest, close).0 == t <==> !Contains(t, close)
  {
    if Contains(t, close) {
      var after := t + close + rest;
      IndexOfExtends(t, close + rest, close);
      assert after == t + (close + rest);
      var k := IndexOf(t, close).value;
      assert Partition(after, close).0 == after[..k] == t[..k];
    } else {
      PartitionAt(t, close, rest);
    }
  }

  /** Neither marker has a border. */
  lemma MarkersUnbordered()
    ensures Unbordered(TextMarker) && Unbordered(EndMarker)
  {
    assert TextMarker == "テキスト:" + ['\n'];
    UnborderedEndingIn("テキスト:", '\n');
    assert EndMarker == "\n\n要約" + ['は'];
    UnborderedEndingIn("\n\n要約", 'は');
  }

  /** The lead-in sentence does not contain "テキスト:\n". */
  lemma LeadLacksTextMarker()
    ensures !Contains(Lead, TextMarker)
  {
    assert ':' !in Lead;
    LacksChar(Lead, TextMarker, ':');
  }

  /**
   * The prompt embeds the text verbatim: splitting it back out gives the
   * text exactly when the text does not itself contain "\n\n要約は", and
   * a prefix of the text whatever it holds.
   */
  lemma PromptRoundTrip(t: string)
    ensures Embedded(Prompt(t)) <= t
    ensures Embedded(Prompt(t)) == t <==> !Contains(t, EndMarker)
  {
    MarkersUnbordered();
    LeadLacksTextMarker();
    BetweenFramed(Lead, TextMarker, t, EndMarker, Instructions);
  }

  /**
   * Python's `text[:n]` for an integer `n`: the first `n` characters, or all
   * but the last `-n` when `n` is negative.
   */
  function Slice(text: string, n: int): (r: string)
    ensures r <= text
    ensures n >= 0 ==> |r| == if n < |text| then n else |text|
    ensures n < 0 ==> |r| == if |text| + n > 0 then |text| + n else 0
  {
    if n >= 0 then
      if n < |text| then text[..n] else text
    else
      if |text| + n > 0 then text[..|text| + n] else ""
  }

  /** A text no longer than the limit is not cut. */
  lemma SliceShort(text: string, n: int)
    requires |text| <= n
    ensures Slice(text, n) == text
  {
  }

  /** Cutting twice at the same non-negative limit cuts no more than once. */
  lemma SliceIdempotent(text: string, n: int)
    requires n >= 0
    ensures Slice(Slice(text, n), n) == Slice(text, n)
  {
  }

  const SliceTypeMessage := "slice indices must be integers or None or have an __index__ method"

  /**
   * `text[:v]` for any value bound to the limit: `None` keeps the whole
   * text, an integer (a `bool` counting as 0 or 1) cuts, and any other value
   * raises `TypeError`.
   */
  function SliceBy(text: string, v: Value): (r: Result<string, Exc>)
    ensures r.Ok? <==> v.NoneValue? || v.Int? || v.Bool?
    ensures v.NoneValue? ==> r == Ok(text)
    ensures v.Int? ==> r == Ok(Slice(text, v.i))
    ensures v.Bool? ==> r == Ok(Slice(text, if v.b then 1 else 0))
    ensures r.Err? ==> r.error == Exc(TypeError, SliceTypeMessage)
  {
    match v
    case NoneValue => Ok(text)
    case Int(i) => Ok(Slice(text, i))
    case Bool(b) => Ok(Slice(text, if b then 1 else 0))
    case _ => Err(Exc(TypeError, SliceTypeMessage))
  }

  /** `str(item)` for each item of a list. */
  function ItemTexts(items: seq<Value>): (r: seq<string>)
    ensures |r| == |items|
    ensures forall k :: 0 <= k < |items| ==> r[k] == PyStr(items[k])
  {
    seq(|items|, k requires 0 <= k < |items| => PyStr(items[k]))
  }

  /**
   * The string `summarize` returns for the model's reply content: a string
   * as it is, a list as its items' `str()` joined by newlines, anything else
   * as its `str()`.
   */
  function NormalizeContent(content: Value): string {
    match content
    case Str(s) => s
    case List(items) => Join("\n", ItemTexts(items))
    case _ => PyStr(content)
  }

  /**
   * List content keeps its items apart: splitting the result at newlines
   * gives back each item's `str()`, provided there is at least one item and
   * none contains a newline.
   */
  lemma ListContentLines(items: seq<Value>)
    requires |items| >= 1
    requires forall k :: 0 <= k < |items| ==> '\n' !in PyStr(items[k])
    ensures SplitChar(NormalizeContent(List(items)), '\n') == ItemTexts(items)
  {
    SplitCharJoin(ItemTexts(items), '\n');
  }

  /** A constructed `SummarizationService`: the chat model it holds in `self.llm`. */
  datatype Service = Service(llmConfig: ChatConfig)

  /**
   * The common tail of both `summarize` variants: build the prompt for the
   * truncated text `t`, invoke the model once, and turn its reply content
   * into a string. The model's exception, if any, propagates.
   */
  function Ask(config: ChatConfig, t: string, llm: Llm): (r: Summary)
    ensures r.prompt.Some? && Embedded(r.prompt.value) <= t
    ensures !Contains(t, EndMarker) ==> Embedded(r.prompt.value) == t
    ensures r.result.Ok? <==> llm(config, r.prompt.value).Ok?
    ensures r.result.Ok? ==> r.result.value == NormalizeContent(llm(config, r.prompt.value).value)
    ensures r.result.Err? ==> r.result.error == llm(config, r.prompt.value).error
  {
    var p := Prompt(t);
    PromptRoundTrip(t);
    match llm(config, p)
    case Ok(content) => Summary(Ok(NormalizeContent(content)), Some(p))
    case Err(e) => Summary(Err(e), Some(p))
  }
}
