/**
 * The Celery task `process_url_task`: two progress updates around scraping
 * and summarizing, the title/summary split of the model's reply, and the
 * two failure paths. The task's recorded state updates are a field of the
 * bound task object.
 */
module Tasks {
  import opened Wrappers
  import opened Text
  import opened PyValues
  import opened Summarization
  import AppsSummarization

  const TitleMarker := "タイトル:"
  const PointsMarker := "要点:"
  const DefaultTitle := "要約結果"

  /** The title and the summary points the task reports. */
  datatype Parsed = Parsed(title: string, summary: string)

  /** The first line of `s`: `s.split('\n')[0]`. */
  function FirstLine(s: string): (r: string)
    ensures r <= s && '\n' !in r
    ensures |r| < |s| ==> s[|r|] == '\n'
  {
    SplitCharHead(s, '\n');
    SplitChar(s, '\n')[0]
  }

  /** The first line ends at the first newline. */
  lemma FirstLineOf(line: string, rest: string)
    requires '\n' !in line
    ensures FirstLine(line + "\n" + rest) == line
    ensures (line + "\n" + rest)[|line|..] == "\n" + rest
  {
    assert line + "\n" + rest == line + ['\n'] + rest;
    SplitCharPrefix(line, rest, '\n');
  }

  /**
   * Lines 31-42 of the task: without "タイトル:" the whole reply is the
   * summary under the default title. Otherwise, when the text before the
   * first marker holds "要点:", that text (without any "要点:") is the
   * title and the text after the marker the summary; failing that, the
   * first line gives the title if it starts with the marker, and the text
   * after the first line is the summary.
   */
  function SplitTitle(reply: string): (r: Parsed)
    ensures r.title == DefaultTitle || Trimmed(r.title)
    ensures !Contains(reply, TitleMarker) ==> r.summary == reply
    ensures Contains(reply, TitleMarker) ==> Trimmed(r.summary)
  {
    if !Contains(reply, TitleMarker) then Parsed(DefaultTitle, reply)
    else
      var (before, _, after) := Partition(reply, TitleMarker);
      if Contains(before, PointsMarker) then
        StripSpec(RemoveAll(before, PointsMarker));
        StripSpec(after);
        Parsed(Strip(RemoveAll(before, PointsMarker)), Strip(after))
      else
        var titleLine := FirstLine(reply);
        StripSpec(RemoveAll(titleLine, TitleMarker));
        StripSpec(reply[|titleLine|..]);
        var title := if TitleMarker <= titleLine then Strip(RemoveAll(titleLine, TitleMarker)) else DefaultTitle;
        Parsed(title, Strip(reply[|titleLine|..]))
  }

  /** The reply format the prompt asks for: a title line, then the points. */
  function FormatReply(title: string, points: string): string {
    TitleMarker + " " + title + "\n" + points
  }

  /** "タイトル:" has no border. */
  lemma TitleMarkerUnbordered()
    ensures Unbordered(TitleMarker)
  {
    assert TitleMarker == "タイトル" + [':'];
    UnborderedEndingIn("タイトル", ':');
  }

  /** A reply without "タイトル:" is the summary, whole and unstripped, under the default title. */
  lemma NoMarkerKeepsReply(reply: string)
    requires !Contains(reply, TitleMarker)
    ensures SplitTitle(reply) == Parsed(DefaultTitle, reply)
  {
  }

  /** A reply with no colon at all, the marker's last character, has no marker. */
  lemma ColonFreeReplyKept(reply: string)
    requires ':' !in reply
    ensures SplitTitle(reply) == Parsed(DefaultTitle, reply)
  {
    LacksChar(reply, TitleMarker, ':');
  }

  /** The marker at the very start of a reply is its first occurrence, with nothing before it. */
  lemma MarkerFirst(reply: string)
    requires TitleMarker <= reply
    ensures Contains(reply, TitleMarker) && Partition(reply, TitleMarker).0 == []
  {
    assert OccursAt(reply, TitleMarker, 0);
    IndexOfIs(reply, TitleMarker, 0);
  }

  /**
   * A first line starting with "タイトル:" gives the title: that line
   * without any "タイトル:", stripped; the summary is the rest, stripped.
   */
  lemma TitleLineSplits(line: string, rest: string)
    requires '\n' !in line && TitleMarker <= line
    ensures SplitTitle(line + "\n" + rest) == Parsed(Strip(RemoveAll(line, TitleMarker)), Strip(rest))
  {
    MarkerFirst(line + "\n" + rest);
    FirstLineOf(line, rest);
    StripLeadingSpace('\n', rest);
  }

  /** A reply of one line starting with "タイトル:" is all title, with an empty summary. */
  lemma TitleOnlyReply(line: string)
    requires '\n' !in line && TitleMarker <= line
    ensures SplitTitle(line) == Parsed(Strip(RemoveAll(line, TitleMarker)), "")
  {
    MarkerFirst(line);
    assert FirstLine(line) == line;
  }

  /**
   * A reply in the requested format splits back into its title and its
   * points, once both are stripped, provided the title is one line and
   * holds no colon.
   */
  lemma {:induction false} FormattedReplySplits(title: string, points: string)
    requires '\n' !in title && ':' !in title
    ensures SplitTitle(FormatReply(title, points)) == Parsed(Strip(title), Strip(points))
  {
    var line := " " + title;
    FormattedPartition(title, points);
    FirstLineOf(TitleMarker + line, points);
    assert TitleMarker + " " + title == TitleMarker + line;
    assert ':' !in line;
    LacksChar(line, TitleMarker, ':');
    RemoveAllLeading(TitleMarker, line);
    StripLeadingSpace(' ', title);
    StripLeadingSpace('\n', points);
  }

  /** The marker of a formatted reply is its very first text. */
  lemma FormattedPartition(title: string, points: string)
    requires ':' !in title
    ensures Partition(FormatReply(title, points), TitleMarker) == ([], true, " " + title + "\n" + points)
  {
    var none: string := [];
    assert FormatReply(title, points) == none + TitleMarker + (" " + title + "\n" + points);
    LacksChar(none, TitleMarker, ':');
    TitleMarkerUnbordered();
    PartitionAt(none, TitleMarker, " " + title + "\n" + points);
  }

  /**
   * When "要点:" comes before the first "タイトル:", the text before the
   * marker, without any "要点:", is the title, and everything after the
   * marker is the summary.
   */
  lemma PointsFirstSplits(head: string, rest: string)
    requires !Contains(head, TitleMarker) && Contains(head, PointsMarker)
    ensures SplitTitle(head + TitleMarker + rest) == Parsed(Strip(RemoveAll(head, PointsMarker)), Strip(rest))
  {
    TitleMarkerUnbordered();
    PartitionAt(head, TitleMarker, rest);
  }

  /**
   * When the marker occurs but not at the start of the first line, and
   * "要点:" does not occur before the marker, the title stays the default
   * and the summary is the text after the first line, stripped.
   */
  lemma LateMarkerKeepsDefaultTitle(line: string, rest: string)
    requires '\n' !in line && !(TitleMarker <= line)
    requires Contains(line + "\n" + rest, TitleMarker)
    requires !Contains(Partition(line + "\n" + rest, TitleMarker).0, PointsMarker)
    ensures SplitTitle(line + "\n" + rest) == Parsed(DefaultTitle, Strip(rest))
  {
    FirstLineOf(line, rest);
    StripLeadingSpace('\n', rest);
  }

  /** The same for a reply of one line: the default title and an empty summary. */
  lemma LateMarkerOneLine(line: string)
    requires '\n' !in line && !(TitleMarker <= line)
    requires Contains(line, TitleMarker)
    requires !Contains(Partition(line, TitleMarker).0, PointsMarker)
    ensures SplitTitle(line) == Parsed(DefaultTitle, "")
  {
    assert FirstLine(line) == line;
  }

  /**
   * A colon-free line before a reply in the requested format hides its
   * title: the title is the default, and the whole formatted reply,
   * marker included, is the summary.
   */
  lemma PreambleHidesTitle(pre: string, title: string, points: string)
    requires '\n' !in pre && ':' !in pre
    ensures SplitTitle(pre + "\n" + FormatReply(title, points)) == Parsed(DefaultTitle, Strip(FormatReply(title, points)))
  {
    var head := pre + "\n";
    var tail := " " + title + "\n" + points;
    assert pre + "\n" + FormatReply(title, points) == head + TitleMarker + tail;
    assert ':' !in head;
    LacksChar(head, TitleMarker, ':');
    LacksChar(head, PointsMarker, ':');
    TitleMarkerUnbordered();
    PartitionAt(head, TitleMarker, tail);
    assert TitleMarker[|TitleMarker| - 1] == ':';
    LateMarkerKeepsDefaultTitle(pre, FormatReply(title, points));
  }

  /**
   * Whenever the reply holds the marker, the summary is a piece of the
   * reply: the split may cut and strip it, but never adds to it.
   */
  lemma SummaryFromReply(reply: string)
    requires Contains(reply, TitleMarker)
    ensures exists i, j :: 0 <= i <= j <= |reply| && SplitTitle(reply).summary == reply[i..j]
  {
    var (before, _, after) := Partition(reply, TitleMarker);
    if Contains(before, PointsMarker) {
      assert after == reply[|before| + |TitleMarker|..];
      StripOfSuffix(reply, |before| + |TitleMarker|);
    } else {
      StripOfSuffix(reply, |FirstLine(reply)|);
    }
  }

  const ExampleReply := "タイトル: テスト\n要点:\n- テストです"

  /** The worked example is a reply in the requested format. */
  lemma ExampleIsFormatted()
    ensures ExampleReply == FormatReply("テスト", "要点:\n- テストです")
  {
  }

  /** The reply of the worked example: a title line, then the points. */
  lemma ExampleReplySplits()
    ensures SplitTitle(ExampleReply) == Parsed("テスト", "要点:\n- テストです")
  {
    ExampleIsFormatted();
    FormattedReplySplits("テスト", "要点:\n- テストです");
    ExampleStripped();
  }

  /** Neither part of the worked example has whitespace to strip. */
  lemma ExampleStripped()
    ensures Strip("テスト") == "テスト" && Strip("要点:\n- テストです") == "要点:\n- テストです"
  {
    StripUnchanged("テスト");
    StripUnchanged("要点:\n- テストです");
  }

  const ProgressState := "PROGRESS"
  const FailureState := "FAILURE"
  const ScrapingMessage := "スクレイピング中..."
  const SummarizingMessage := "要約中..."
  const UnexpectedMessage := "処理中に予期せぬエラーが発生しました。"
  const NoContentTitle := "コンテンツがありません"
  const NoContentSummary := "このURLからは有効なコンテンツを取得できませんでした。"

  /** One `self.update_state(state=…, meta={"message": …})` call. */
  datatype Update = Update(state: string, message: string)

  /** `ScrapingService.scrape(url)`: the page text, or the exception it raised. */
  type Scraper = string -> Result<string, Exc>

  /**
   * What one run of the task does: the state updates it records, in order,
   * and the value it returns or the exception it raises.
   */
  datatype Run = Run(updates: seq<Update>, outcome: Result<Value, Exc>)

  /** The dictionary the task returns. */
  function ResultDict(title: string, summary: string): Value {
    Dict([Entry("title", Str(title)), Entry("summary", Str(summary))])
  }

  /** The message both the FAILURE update and the re-raised exception carry. */
  function FailureMessage(e: Exc): string {
    if IsValueError(e) then e.message else UnexpectedMessage
  }

  /** The two `except` clauses, after the updates in `done`. */
  function Failed(done: seq<Update>, e: Exc): Run {
    Run(done + [Update(FailureState, FailureMessage(e))], Err(Exc(Exception, FailureMessage(e))))
  }

  /**
   * The run of `process_url_task(url)` with the scraper, the Django settings
   * and the chat model given: the specification the task object's method
   * is proved against. Every run starts with the scraping update and has
   * at most three, the summarizing update second when there are three; it
   * ends in a FAILURE update exactly when it raises, and what it raises is
   * a plain `Exception` whose message is that update's message.
   */
  function TaskRun(url: string, scrape: Scraper, s: Settings, llm: Llm): (r: Run)
    ensures 1 <= |r.updates| <= 3
    ensures r.updates[0] == Update(ProgressState, ScrapingMessage)
    ensures |r.updates| == 3 ==> r.updates[1] == Update(ProgressState, SummarizingMessage)
    ensures r.outcome.Err? <==> r.updates[|r.updates| - 1].state == FailureState
    ensures r.outcome.Err? ==> r.outcome.error == Exc(Exception, r.updates[|r.updates| - 1].message)
  {
    assert ProgressState != FailureState by {
      assert ProgressState[0] != FailureState[0];
    }
    var first := [Update(ProgressState, ScrapingMessage)];
    match scrape(url)
    case Err(e) => Failed(first, e)
    case Ok(text) =>
      if text == "" then Run(first, Ok(ResultDict(NoContentTitle, NoContentSummary)))
      else
        var both := first + [Update(ProgressState, SummarizingMessage)];
        match AppsSummarization.NewService(s)
        case Err(e) => Failed(both, e)
        case Ok(svc) =>
          match AppsSummarization.Summarize(svc, s, text, None, llm).result
          case Err(e) => Failed(both, e)
          case Ok(reply) =>
            var p := SplitTitle(reply);
            Run(both, Ok(ResultDict(p.title, p.summary)))
  }

  /**
   * Empty page text ends the run after the scraping update with the
   * placeholder result; neither the settings nor the chat model play a part.
   */
  lemma EmptyPageShortCircuits(url: string, scrape: Scraper, s: Settings, llm: Llm, s': Settings, llm': Llm)
    requires scrape(url) == Ok("")
    ensures TaskRun(url, scrape, s, llm) == Run([Update(ProgressState, ScrapingMessage)], Ok(ResultDict(NoContentTitle, NoContentSummary)))
    ensures TaskRun(url, scrape, s, llm) == TaskRun(url, scrape, s', llm')
  {
  }

  /** A `ValueError` from scraping is reported, and re-raised, with its own message. */
  lemma ValueErrorSurfaces(url: string, scrape: Scraper, s: Settings, llm: Llm)
    requires scrape(url).Err? && IsValueError(scrape(url).error)
    ensures var m := scrape(url).error.message;
      TaskRun(url, scrape, s, llm)
      == Run([Update(ProgressState, ScrapingMessage), Update(FailureState, m)], Err(Exc(Exception, m)))
  {
  }

  /**
   * An exception of the chat model is caught like one of the scraper, after
   * both progress updates: a `ValueError` surfaces with its own message,
   * any other exception under the fixed message.
   */
  lemma ModelErrorSurfaces(url: string, scrape: Scraper, s: Settings, llm: Llm, e: Exc)
    requires scrape(url).Ok? && scrape(url).value != ""
    requires AppsSummarization.Configured(s)
    requires s.summaryMaxChars.Defined? && s.summaryMaxChars.value.Int?
    requires llm(ChatConfig(s.ollamaModel.value, s.ollamaBaseUrl.value),
                 Prompt(Slice(scrape(url).value, s.summaryMaxChars.value.i))) == Err(e)
    ensures var m := if IsValueError(e) then e.message else UnexpectedMessage;
      TaskRun(url, scrape, s, llm) == Run(
        [Update(ProgressState, ScrapingMessage), Update(ProgressState, SummarizingMessage), Update(FailureState, m)],
        Err(Exc(Exception, m)))
  {
    var text := scrape(url).value;
    var svc := AppsSummarization.NewService(s).value;
    assert svc.llmConfig == ChatConfig(s.ollamaModel.value, s.ollamaBaseUrl.value);
    AppsSummarization.SettingLimitUsed(svc, s, text, llm);
    assert AppsSummarization.Summarize(svc, s, text, None, llm).result == Err(e);
    SummarizeFailureFails(url, scrape, s, llm, svc, e);
  }

  /** A scraper that raises ends the run through the `except` clauses, after the first update. */
  lemma ScrapeFailureFails(url: string, scrape: Scraper, s: Settings, llm: Llm)
    requires scrape(url).Err?
    ensures TaskRun(url, scrape, s, llm) == Failed([Update(ProgressState, ScrapingMessage)], scrape(url).error)
  {
  }

  /** A service that cannot be built ends the run through the `except` clauses, after both updates. */
  lemma ServiceFailureFails(url: string, scrape: Scraper, s: Settings, llm: Llm)
    requires scrape(url).Ok? && scrape(url).value != ""
    requires AppsSummarization.NewService(s).Err?
    ensures TaskRun(url, scrape, s, llm)
      == Failed([Update(ProgressState, ScrapingMessage), Update(ProgressState, SummarizingMessage)], AppsSummarization.NewService(s).error)
  {
  }

  /** A reply from `summarize` is split and returned, after both updates. */
  lemma SplitReplyReturned(url: string, scrape: Scraper, s: Settings, llm: Llm, svc: Service)
    requires scrape(url).Ok? && scrape(url).value != ""
    requires AppsSummarization.NewService(s) == Ok(svc)
    requires AppsSummarization.Summarize(svc, s, scrape(url).value, None, llm).result.Ok?
    ensures var p := SplitTitle(AppsSummarization.Summarize(svc, s, scrape(url).value, None, llm).result.value);
      TaskRun(url, scrape, s, llm)
      == Run([Update(ProgressState, ScrapingMessage), Update(ProgressState, SummarizingMessage)], Ok(ResultDict(p.title, p.summary)))
  {
  }

  /** A `summarize` that raises `e` ends the run through the `except` clauses, after both updates. */
  lemma SummarizeFailureFails(url: string, scrape: Scraper, s: Settings, llm: Llm, svc: Service, e: Exc)
    requires scrape(url).Ok? && scrape(url).value != ""
    requires AppsSummarization.NewService(s) == Ok(svc)
    requires AppsSummarization.Summarize(svc, s, scrape(url).value, None, llm).result == Err(e)
    ensures TaskRun(url, scrape, s, llm)
      == Failed([Update(ProgressState, ScrapingMessage), Update(ProgressState, SummarizingMessage)], e)
  {
  }

  /**
   * Any other exception, at any step, is reported under the fixed message:
   * two runs that fail with such exceptions at the same step look the same,
   * whatever the exceptions said.
   */
  lemma UnexpectedErrorHidden(done: seq<Update>, e: Exc, e': Exc)
    requires !IsValueError(e) && !IsValueError(e')
    ensures Failed(done, e) == Failed(done, e')
    ensures Failed(done, e).outcome == Err(Exc(Exception, UnexpectedMessage))
  {
  }

  /**
   * Missing or empty Ollama settings fail the run after both progress
   * updates, under the fixed message, since neither `ImproperlyConfigured`
   * nor `AttributeError` is a `ValueError`.
   */
  lemma MisconfigurationIsUnexpected(url: string, scrape: Scraper, s: Settings, llm: Llm)
    requires scrape(url).Ok? && scrape(url).value != ""
    requires !AppsSummarization.Configured(s)
    ensures TaskRun(url, scrape, s, llm) == Run(
      [Update(ProgressState, ScrapingMessage), Update(ProgressState, SummarizingMessage), Update(FailureState, UnexpectedMessage)],
      Err(Exc(Exception, UnexpectedMessage)))
  {
    var e := AppsSummarization.NewService(s).error;
    assert e.cls == ImproperlyConfigured || e.cls == AttributeError;
  }

  /**
   * With a configured service and an integer `SUMMARY_MAX_CHARS`, the model
   * is asked about the cut page text, and its reply, once normalised and
   * split, is the task's result.
   */
  lemma SuccessReturnsSplitReply(url: string, scrape: Scraper, s: Settings, llm: Llm, content: Value)
    requires scrape(url).Ok? && scrape(url).value != ""
    requires AppsSummarization.Configured(s)
    requires s.summaryMaxChars.Defined? && s.summaryMaxChars.value.Int?
    requires llm(ChatConfig(s.ollamaModel.value, s.ollamaBaseUrl.value),
                 Prompt(Slice(scrape(url).value, s.summaryMaxChars.value.i))) == Ok(content)
    ensures var p := SplitTitle(NormalizeContent(content));
      TaskRun(url, scrape, s, llm) == Run(
        [Update(ProgressState, ScrapingMessage), Update(ProgressState, SummarizingMessage)],
        Ok(ResultDict(p.title, p.summary)))
  {
    var text := scrape(url).value;
    var svc := AppsSummarization.NewService(s).value;
    assert svc.llmConfig == ChatConfig(s.ollamaModel.value, s.ollamaBaseUrl.value);
    AppsSummarization.SettingLimitUsed(svc, s, text, llm);
    assert AppsSummarization.Summarize(svc, s, text, None, llm).result == Ok(NormalizeContent(content));
    SplitReplyReturned(url, scrape, s, llm, svc);
  }

  /** The bound Celery task object, with the state updates recorded on it. */
  class BoundTask {
    var updates: seq<Update>

    constructor()
      ensures updates == []
    {
      updates := [];
    }

    /** `self.update_state(state=state, meta={"message": message})`. */
    method UpdateState(state: string, message: string)
      modifies this
      ensures updates == old(updates) + [Update(state, message)]
    {
      updates := updates + [Update(state, message)];
    }

    /** The `except` clauses: record the FAILURE update and raise. */
    method Fail(e: Exc) returns (raised: Exc)
      modifies this
      ensures Failed(old(updates), e) == Run(updates, Err(raised))
    {
      var message := if IsValueError(e) then e.message else UnexpectedMessage;
      UpdateState(FailureState, message);
      raised := Exc(Exception, message);
    }

    /** `process_url_task(url)`: returns the task's value or the exception it raises. */
    method ProcessUrl(url: string, scrape: Scraper, s: Settings, llm: Llm) returns (outcome: Result<Value, Exc>)
      modifies this
      ensures updates == old(updates) + TaskRun(url, scrape, s, llm).updates
      ensures outcome == TaskRun(url, scrape, s, llm).outcome
    {
      ghost var start := updates;
      UpdateState(ProgressState, ScrapingMessage);
      var scraped := scrape(url);
      if scraped.Err? {
        ScrapeFailureFails(url, scrape, s, llm);
        var raised := Fail(scraped.error);
        return Err(raised);
      }
      var text := scraped.value;
      if text == "" {
        EmptyPageShortCircuits(url, scrape, s, llm, s, llm);
        return Ok(ResultDict(NoContentTitle, NoContentSummary));
      }
      UpdateState(ProgressState, SummarizingMessage);
      assert updates == start + [Update(ProgressState, ScrapingMessage), Update(ProgressState, SummarizingMessage)];
      var service := AppsSummarization.NewService(s);
      if service.Err? {
        ServiceFailureFails(url, scrape, s, llm);
        var raised := Fail(service.error);
        return Err(raised);
      }
      var summary := AppsSummarization.Summarize(service.value, s, text, None, llm);
      if summary.result.Err? {
        SummarizeFailureFails(url, scrape, s, llm, service.value, summary.result.error);
        var raised := Fail(summary.result.error);
        return Err(raised);
      }
      SplitReplyReturned(url, scrape, s, llm, service.value);
      var parsed := SplitTitle(summary.result.value);
      outcome := Ok(ResultDict(parsed.title, parsed.summary));
    }
  }
}
