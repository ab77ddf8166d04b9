/**
 * The two JSON endpoints of the gist app: `start_task`, which takes a URL
 * from the request, checks it and queues the summarising job, and
 * `get_status`, which turns a job's Celery state into the response the page
 * polls.
 *
 * The URL check (`ScrapingService.validate_url`), the queue
 * (`process_url_task.delay`) and the Celery result lookup are inputs: the
 * check and the queue as functions, the lookup as the task snapshot it
 * returns. A response is Django's `JsonResponse`: an HTTP status and the
 * dictionary it serialises. `Err(e)` stands for an exception escaping the
 * view, which Django answers with a server error.
 */
module Views {
  import opened Wrappers
  import opened Text
  import opened PyValues
  import Tasks
  import Summarization

  const InvalidJsonMessage := "無効なJSONです。"
  const MissingUrlMessage := "URLを入力してください。"
  const EnqueueFailedMessage := "タスクをキューに登録できませんでした。しばらくしてから再試行してください。"

  const PendingMessage := "タスクは待機中です。"
  const WorkingMessage := "処理中..."
  const RetryMessage := "再試行中です..."
  const RevokedMessage := "タスクは取り消されました。"
  const DefaultTitle := "要約結果"

  /** A `JsonResponse`: the HTTP status and the entries of the dictionary it sends. */
  datatype Response = Response(status: int, body: seq<Entry>)

  function ErrorResponse(status: int, message: string): Response {
    Response(status, [Entry("error", Str(message))])
  }

  // ---- start_task ----

  /**
   * What `json.loads(request.body)` does: return the decoded value, raise
   * `JSONDecodeError`, or raise another exception (a body that is not
   * UTF-8 raises `UnicodeDecodeError`, which the view does not catch).
   */
  datatype JsonBody = Decoded(value: Value) | DecodeError | LoadRaises(exc: Exc)

  /**
   * What `start_task` reads of a POST request: its content type, what
   * `json.loads` makes of its body, and the form field `url`.
   */
  datatype Request = Request(contentType: Option<string>, json: JsonBody, formUrl: Option<string>)

  /** `ScrapingService.validate_url`: `None` when it returns, `Some(e)` when it raises `e`. */
  type Validator = string -> Option<Exc>

  /** `process_url_task.delay`: the new task's id, or the exception it raises. */
  type Enqueuer = string -> Result<string, Exc>

  /** The calls `start_task` makes of its two collaborators, in order. */
  datatype Call = Validate(url: string) | Enqueue(url: string)

  /** The view's answer (or escaping exception) and the calls it made on the way. */
  datatype Submission = Submission(outcome: Result<Response, Exc>, calls: seq<Call>)

  /** `(request.content_type or "").startswith("application/json")`. */
  predicate IsJson(req: Request) {
    var ct := match req.contentType case Some(c) => c case None => "";
    "application/json" <= ct
  }

  /** The `url` value read from the body, before stripping. */
  datatype Extracted = Found(url: Value) | BadJson | Raises(exc: Exc)

  /**
   * The JSON body's `data.get("url")`, or the form's `request.POST.get("url")`.
   * Only `JSONDecodeError` is caught: another exception of `json.loads`
   * escapes, and so does the `AttributeError` of a decoded value that is
   * not an object and has no `get`.
   */
  function ExtractUrl(req: Request): (r: Extracted)
    ensures r.BadJson? <==> IsJson(req) && req.json.DecodeError?
    ensures r.Raises? <==> IsJson(req) && (req.json.LoadRaises? || (req.json.Decoded? && !req.json.value.Dict?))
    ensures IsJson(req) && req.json.LoadRaises? ==> r == Raises(req.json.exc)
    ensures IsJson(req) && req.json.Decoded? && req.json.value.Dict? ==>
      r == Found(GetOr(req.json.value.entries, "url", NoneValue))
    ensures !IsJson(req) ==> r == Found(match req.formUrl case Some(u) => Str(u) case None => NoneValue)
  {
    if IsJson(req) then
      match req.json
      case DecodeError => BadJson
      case LoadRaises(e) => Raises(e)
      case Decoded(Dict(entries)) => Found(GetOr(entries, "url", NoneValue))
      case Decoded(v) => Raises(NoAttribute(v, "get"))
    else
      match req.formUrl
      case Some(u) => Found(Str(u))
      case None => Found(NoneValue)
  }

  /** `(url or "").strip()`: a falsy value reads as the empty URL; a truthy non-string has no `strip`. */
  function StripUrl(v: Value): (r: Result<string, Exc>)
    ensures r.Ok? ==> r.value == "" || (!IsSpace(r.value[0]) && !IsSpace(r.value[|r.value| - 1]))
    ensures r.Err? <==> Truthy(v) && !v.Str?
    ensures v.Str? ==> r == Ok(Strip(v.s))
    ensures !Truthy(v) ==> r == Ok("")
  {
    if !Truthy(v) then Ok("")
    else
      match v
      case Str(s) => StripSpec(s); Ok(Strip(s))
      case _ => Err(NoAttribute(v, "strip"))
  }

  /** A URL value the view treats as missing: falsy, or a string of whitespace only. */
  predicate IsBlank(v: Value) {
    !Truthy(v) || (v.Str? && AllSpace(v.s))
  }

  /**
   * The last part of `start_task`, once the URL is read and stripped: an
   * empty URL is answered 400, then the URL is checked, and only a URL the
   * check accepts is queued.
   */
  function Dispatch(url: string, validate: Validator, enqueue: Enqueuer): (r: Submission)
    ensures r.outcome.Ok? ==> r.outcome.value.status in {202, 400, 503}
    ensures url == "" ==> r.calls == []
    ensures url != "" ==> r.calls == [Validate(url)] || r.calls == [Validate(url), Enqueue(url)]
    ensures Enqueue(url) in r.calls <==> url != "" && validate(url).None?
  {
    if url == "" then Submission(Ok(ErrorResponse(400, MissingUrlMessage)), [])
    else
      match validate(url)
      case Some(e) =>
        if IsValueError(e) then Submission(Ok(ErrorResponse(400, e.message)), [Validate(url)])
        else Submission(Err(e), [Validate(url)])
      case None =>
        match enqueue(url)
        case Err(_) => Submission(Ok(ErrorResponse(503, EnqueueFailedMessage)), [Validate(url), Enqueue(url)])
        case Ok(id) => Submission(Ok(Response(202, [Entry("task_id", Str(id))])), [Validate(url), Enqueue(url)])
  }

  /** `start_task`: read the URL from the JSON or form body, strip it, then dispatch it. */
  function StartTask(req: Request, validate: Validator, enqueue: Enqueuer): (r: Submission)
    ensures r.outcome.Ok? ==> r.outcome.value.status in {202, 400, 503}
    ensures UrlOf(req).None? ==> r.calls == []
  {
    match ExtractUrl(req)
    case BadJson => Submission(Ok(ErrorResponse(400, InvalidJsonMessage)), [])
    case Raises(e) => Submission(Err(e), [])
    case Found(v) =>
      match StripUrl(v)
      case Err(e) => Submission(Err(e), [])
      case Ok(url) => Dispatch(url, validate, enqueue)
  }

  /** The stripped URL of a request whose body yields one. */
  function UrlOf(req: Request): Option<string> {
    match ExtractUrl(req)
    case Found(v) => (match StripUrl(v) case Ok(u) => Some(u) case Err(_) => None)
    case _ => None
  }

  /** A request the body of which yields a URL is answered by dispatching exactly that URL. */
  lemma StartTaskDispatches(req: Request, validate: Validator, enqueue: Enqueuer)
    requires UrlOf(req).Some?
    ensures StartTask(req, validate, enqueue) == Dispatch(UrlOf(req).value, validate, enqueue)
  {
  }

  /**
   * Nothing reaches the queue unchecked: whenever `start_task` queues a URL,
   * it is the request's stripped, non-blank URL, the check accepted it, and
   * the check came first.
   */
  lemma QueuedOnlyAfterCheck(req: Request, validate: Validator, enqueue: Enqueuer, u: string)
    requires Enqueue(u) in StartTask(req, validate, enqueue).calls
    ensures UrlOf(req) == Some(u)
    ensures StartTask(req, validate, enqueue).calls == [Validate(u), Enqueue(u)]
    ensures validate(u).None?
    ensures u != "" && !IsSpace(u[0]) && !IsSpace(u[|u| - 1])
  {
    var url := UrlOf(req).value;
    StartTaskDispatches(req, validate, enqueue);
    assert Enqueue(u) in Dispatch(url, validate, enqueue).calls;
  }

  /**
   * The URL that is checked and queued is the submitted string with its
   * surrounding whitespace removed.
   */
  lemma QueuedUrlIsStripped(req: Request, validate: Validator, enqueue: Enqueuer, s: string, u: string)
    requires ExtractUrl(req) == Found(Str(s))
    requires Enqueue(u) in StartTask(req, validate, enqueue).calls
    ensures u == Strip(s)
    ensures StartTask(req, validate, enqueue).calls == [Validate(Strip(s)), Enqueue(Strip(s))]
  {
    QueuedOnlyAfterCheck(req, validate, enqueue, u);
  }

  /** An undecodable JSON body is answered 400 before anything is checked. */
  lemma InvalidJsonRejected(req: Request, validate: Validator, enqueue: Enqueuer)
    requires IsJson(req) && req.json.DecodeError?
    ensures StartTask(req, validate, enqueue) == Submission(Ok(ErrorResponse(400, InvalidJsonMessage)), [])
  {
  }

  /**
   * Any other exception of `json.loads`, such as the `UnicodeDecodeError`
   * of a body that is not UTF-8, escapes the view before anything is checked.
   */
  lemma LoadErrorEscapes(req: Request, validate: Validator, enqueue: Enqueuer)
    requires IsJson(req) && req.json.LoadRaises?
    ensures StartTask(req, validate, enqueue) == Submission(Err(req.json.exc), [])
  {
  }

  /** A missing, falsy or blank URL is answered 400 without checking or queueing anything. */
  lemma BlankUrlRejected(req: Request, validate: Validator, enqueue: Enqueuer)
    requires ExtractUrl(req).Found? && IsBlank(ExtractUrl(req).url)
    ensures StartTask(req, validate, enqueue) == Submission(Ok(ErrorResponse(400, MissingUrlMessage)), [])
  {
    var v := ExtractUrl(req).url;
    if v.Str? && Truthy(v) {
      StripEmptyIff(v.s);
    }
    assert UrlOf(req) == Some("");
    StartTaskDispatches(req, validate, enqueue);
  }

  /** Conversely, a URL the view checks is never blank. */
  lemma CheckedUrlNotBlank(req: Request, validate: Validator, enqueue: Enqueuer)
    requires StartTask(req, validate, enqueue).calls != []
    ensures ExtractUrl(req).Found? && !IsBlank(ExtractUrl(req).url)
  {
    var v := ExtractUrl(req).url;
    StartTaskDispatches(req, validate, enqueue);
    if v.Str? && AllSpace(v.s) {
      StripEmptyIff(v.s);
    }
  }

  /**
   * A `ValueError` from the check is answered 400 with exactly its message,
   * and nothing is queued.
   */
  lemma ValidationErrorReturned(req: Request, validate: Validator, enqueue: Enqueuer, url: string)
    requires UrlOf(req) == Some(url) && url != ""
    requires validate(url).Some? && IsValueError(validate(url).value)
    ensures StartTask(req, validate, enqueue) == Submission(Ok(ErrorResponse(400, validate(url).value.message)), [Validate(url)])
  {
  }

  /** Any other exception from the check escapes the view; nothing is queued. */
  lemma OtherValidationErrorEscapes(req: Request, validate: Validator, enqueue: Enqueuer, url: string)
    requires UrlOf(req) == Some(url) && url != ""
    requires validate(url).Some? && !IsValueError(validate(url).value)
    ensures StartTask(req, validate, enqueue) == Submission(Err(validate(url).value), [Validate(url)])
  {
  }

  /** A queue failure is answered 503 with the fixed message and no task id. */
  lemma EnqueueFailureIs503(req: Request, validate: Validator, enqueue: Enqueuer, url: string)
    requires UrlOf(req) == Some(url) && url != "" && validate(url).None? && enqueue(url).Err?
    ensures StartTask(req, validate, enqueue).outcome == Ok(ErrorResponse(503, EnqueueFailedMessage))
    ensures Get(StartTask(req, validate, enqueue).outcome.value.body, "task_id").None?
  {
  }

  /** An accepted URL is queued as stripped and answered 202 with the new task's id. */
  lemma AcceptedIs202(req: Request, validate: Validator, enqueue: Enqueuer, url: string)
    requires UrlOf(req) == Some(url) && url != "" && validate(url).None? && enqueue(url).Ok?
    ensures StartTask(req, validate, enqueue).outcome.Ok?
    ensures StartTask(req, validate, enqueue).outcome.value.status == 202
    ensures Get(StartTask(req, validate, enqueue).outcome.value.body, "task_id") == Some(Str(enqueue(url).value))
    ensures StartTask(req, validate, enqueue).calls == [Validate(url), Enqueue(url)]
  {
  }

  /** Stripping a URL value twice is stripping it once. */
  lemma StripUrlStripped(u: string)
    ensures StripUrl(Str(u)) == StripUrl(Str(Strip(u)))
  {
    if u == "" {
      assert StripUrl(Str(u)) == Ok("");
      assert Strip(u) == "";
    } else if Strip(u) == "" {
      assert StripUrl(Str(u)) == Ok("");
    } else {
      StripIdempotent(u);
      assert StripUrl(Str(u)) == Ok(Strip(u));
      assert StripUrl(Str(Strip(u))) == Ok(Strip(Strip(u)));
    }
  }

  /** Spaces around a form URL make no difference: the request is answered as if they were not there. */
  lemma SurroundingSpaceIgnored(ct: Option<string>, json: JsonBody, u: string, validate: Validator, enqueue: Enqueuer)
    requires !IsJson(Request(ct, json, Some(u)))
    ensures StartTask(Request(ct, json, Some(u)), validate, enqueue) == StartTask(Request(ct, json, Some(Strip(u))), validate, enqueue)
  {
    var r1 := Request(ct, json, Some(u));
    var r2 := Request(ct, json, Some(Strip(u)));
    StripUrlStripped(u);
    assert UrlOf(r1) == UrlOf(r2);
    StartTaskDispatches(r1, validate, enqueue);
    StartTaskDispatches(r2, validate, enqueue);
  }

  /**
   * The view lets an exception escape in exactly four cases: `json.loads`
   * raising something other than `JSONDecodeError`, a JSON body that is not
   * an object, a truthy `url` that is not a string, and a check failing with
   * something other than a `ValueError`.
   */
  lemma EscapesExactly(req: Request, validate: Validator, enqueue: Enqueuer)
    ensures StartTask(req, validate, enqueue).outcome.Err? <==>
      || ExtractUrl(req).Raises?
      || (ExtractUrl(req).Found? && Truthy(ExtractUrl(req).url) && !ExtractUrl(req).url.Str?)
      || (UrlOf(req).Some? && UrlOf(req).value != "" && validate(UrlOf(req).value).Some? && !IsValueError(validate(UrlOf(req).value).value))
  {
  }

  // ---- get_status ----

  /**
   * What `AsyncResult(task_id)` reports: the state name, `info` and
   * `result`. (Celery serves both attributes from the same stored value;
   * the model lets them differ, which covers that case.)
   */
  datatype TaskSnapshot = TaskSnapshot(state: TaskState, info: Value, result: Value)

  /**
   * Celery's state names: `PENDING`, the `PROGRESS` state the job publishes,
   * `STARTED`, `SUCCESS`, `FAILURE`, `RETRY`, `REVOKED`, and any other name.
   */
  datatype TaskState = Pending | Progress | Started | Success | Failure | Retry | Revoked | OtherState(name: string)

  const NamedStates := ["PENDING", "PROGRESS", "STARTED", "SUCCESS", "FAILURE", "RETRY", "REVOKED"]

  /** A state as Celery names it: `OtherState` holds only a name outside the seven. */
  predicate WellNamed(state: TaskState) {
    state.OtherState? ==> state.name !in NamedStates
  }

  /** The state that `task_result.state == …` comparisons see for a state name. */
  function StateOf(name: string): (r: TaskState)
    ensures WellNamed(r)
    ensures r.OtherState? <==> name !in NamedStates
    ensures NameOf(r) == name
  {
    if name == "PENDING" then Pending
    else if name == "PROGRESS" then Progress
    else if name == "STARTED" then Started
    else if name == "SUCCESS" then Success
    else if name == "FAILURE" then Failure
    else if name == "RETRY" then Retry
    else if name == "REVOKED" then Revoked
    else OtherState(name)
  }

  /** The name Celery gives a state. */
  function NameOf(state: TaskState): string {
    match state
    case Pending => "PENDING"
    case Progress => "PROGRESS"
    case Started => "STARTED"
    case Success => "SUCCESS"
    case Failure => "FAILURE"
    case Retry => "RETRY"
    case Revoked => "REVOKED"
    case OtherState(name) => name
  }

  /** Every well-named state is the state of its own name. */
  lemma StateNameRoundTrip(state: TaskState)
    requires WellNamed(state)
    ensures StateOf(NameOf(state)) == state
  {
  }

  function Processing(message: Value): seq<Entry> {
    [Entry("status", Str("processing")), Entry("message", message)]
  }

  function Failed(message: Value): seq<Entry> {
    [Entry("status", Str("error")), Entry("message", message)]
  }

  function Succeeded(title: Value, summary: Value): seq<Entry> {
    [Entry("status", Str("success")), Entry("title", title), Entry("summary", summary)]
  }

  /** The fields of the three response shapes. */
  lemma ResponseFields(m: Value, title: Value, summary: Value)
    ensures Get(Processing(m), "status") == Some(Str("processing")) && Get(Processing(m), "message") == Some(m)
    ensures Get(Failed(m), "status") == Some(Str("error")) && Get(Failed(m), "message") == Some(m)
    ensures Get(Succeeded(title, summary), "status") == Some(Str("success"))
    ensures Get(Succeeded(title, summary), "title") == Some(title)
    ensures Get(Succeeded(title, summary), "summary") == Some(summary)
  {
    GetFirst(Processing(m), "message", 1);
    GetFirst(Failed(m), "message", 1);
    GetFirst(Succeeded(title, summary), "title", 1);
    GetFirst(Succeeded(title, summary), "summary", 2);
  }

  /** `(task_result.info or {}).get("message", "処理中...")`; a truthy non-dictionary has no `get`. */
  function ProgressMessage(info: Value): (r: Result<Value, Exc>)
    ensures r.Err? <==> Truthy(info) && !info.Dict?
    ensures r.Err? ==> r.error == NoAttribute(info, "get")
    ensures r.Ok? ==> r.value == Str(WorkingMessage) || (info.Dict? && Get(info.entries, "message") == Some(r.value))
    ensures r.Ok? && info.Dict? && Get(info.entries, "message").Some? ==> Get(info.entries, "message") == Some(r.value)
  {
    if !Truthy(info) then Ok(Str(WorkingMessage))
    else
      match info
      case Dict(entries) => Ok(GetOr(entries, "message", Str(WorkingMessage)))
      case _ => Err(NoAttribute(info, "get"))
  }

  /** The message of a failed task: a truthy `message` in a dictionary `info`, else `str(result)`. */
  function FailureMessage(info: Value, result: Value): (r: Value)
    ensures r == Str(PyStr(result)) || (info.Dict? && Get(info.entries, "message") == Some(r) && Truthy(r))
    ensures info.Dict? && Get(info.entries, "message").Some? && Truthy(Get(info.entries, "message").value) ==>
      Some(r) == Get(info.entries, "message")
  {
    if info.Dict? && Get(info.entries, "message").Some? && Truthy(Get(info.entries, "message").value) then
      Get(info.entries, "message").value
    else Str(PyStr(result))
  }

  /** `get_status`: the response dictionary for the task's current state. */
  function GetStatus(t: TaskSnapshot): (r: Result<Response, Exc>)
    ensures r.Ok? ==> r.value.status == 200
    ensures r.Ok? ==> Get(r.value.body, "status") in {Some(Str("processing")), Some(Str("success")), Some(Str("error"))}
    ensures r.Ok? ==> (Get(r.value.body, "status") == Some(Str("success")) <==> t.state == Success)
    ensures r.Ok? ==> (Get(r.value.body, "status") == Some(Str("error")) <==> t.state == Failure || t.state == Revoked)
    ensures r.Err? <==> (t.state == Progress || t.state == Started) && Truthy(t.info) && !t.info.Dict?
  {
    if t.state == Pending then Ok(Response(200, Processing(Str(PendingMessage))))
    else if t.state == Progress || t.state == Started then
      match ProgressMessage(t.info)
      case Ok(m) => Ok(Response(200, Processing(m)))
      case Err(e) => Err(e)
    else if t.state == Success then
      match t.result
      case Dict(entries) =>
        Ok(Response(200, Succeeded(GetOr(entries, "title", NoneValue), GetOr(entries, "summary", NoneValue))))
      case _ =>
        Ok(Response(200, Succeeded(Str(DefaultTitle), Str(if t.result.NoneValue? then "" else PyStr(t.result)))))
    else if t.state == Failure then Ok(Response(200, Failed(FailureMessage(t.info, t.result))))
    else if t.state == Retry then Ok(Response(200, Processing(Str(RetryMessage))))
    else if t.state == Revoked then Ok(Response(200, Failed(Str(RevokedMessage))))
    else Ok(Response(200, Processing(Str(WorkingMessage))))
  }

  /** A waiting task, and so an unknown id (which Celery reports as waiting), reads as processing. */
  lemma PendingIsWaiting(info: Value, result: Value)
    ensures GetStatus(TaskSnapshot(Pending, info, result)) == Ok(Response(200, Processing(Str(PendingMessage))))
  {
  }

  /** A running task shows the progress message it published, or the default one. */
  lemma ProgressShowsMessage(t: TaskSnapshot)
    requires t.state == Progress || t.state == Started
    requires !Truthy(t.info) || t.info.Dict?
    ensures GetStatus(t).Ok?
    ensures Get(GetStatus(t).value.body, "message") ==
      Some(if t.info.Dict? then GetOr(t.info.entries, "message", Str(WorkingMessage)) else Str(WorkingMessage))
  {
    var m := if t.info.Dict? then GetOr(t.info.entries, "message", Str(WorkingMessage)) else Str(WorkingMessage);
    assert ProgressMessage(t.info) == Ok(m);
    assert GetStatus(t) == Ok(Response(200, Processing(m)));
    ResponseFields(m, NoneValue, NoneValue);
  }

  /** A finished task with a dictionary result passes on its `title` and `summary`, `None` where absent. */
  lemma SuccessPassesResult(t: TaskSnapshot)
    requires t.state == Success && t.result.Dict?
    ensures GetStatus(t).Ok?
    ensures Get(GetStatus(t).value.body, "title") == Some(GetOr(t.result.entries, "title", NoneValue))
    ensures Get(GetStatus(t).value.body, "summary") == Some(GetOr(t.result.entries, "summary", NoneValue))
  {
    var title := GetOr(t.result.entries, "title", NoneValue);
    var summary := GetOr(t.result.entries, "summary", NoneValue);
    assert GetStatus(t) == Ok(Response(200, Succeeded(title, summary)));
    ResponseFields(NoneValue, title, summary);
  }

  /** A finished task with any other result gets the default title and the result's text as summary. */
  lemma SuccessOtherResult(t: TaskSnapshot)
    requires t.state == Success && !t.result.Dict?
    ensures GetStatus(t).Ok?
    ensures Get(GetStatus(t).value.body, "title") == Some(Str(DefaultTitle))
    ensures Get(GetStatus(t).value.body, "summary") == Some(Str(if t.result.NoneValue? then "" else PyStr(t.result)))
  {
    var summary := Str(if t.result.NoneValue? then "" else PyStr(t.result));
    assert GetStatus(t) == Ok(Response(200, Succeeded(Str(DefaultTitle), summary)));
    ResponseFields(NoneValue, Str(DefaultTitle), summary);
  }

  /** A failed task shows its `info` message when that is a truthy dictionary entry, else `str(result)`. */
  lemma FailureShowsMessage(t: TaskSnapshot)
    requires t.state == Failure
    ensures GetStatus(t).Ok?
    ensures t.info.Dict? && Get(t.info.entries, "message").Some? && Truthy(Get(t.info.entries, "message").value) ==>
      Get(GetStatus(t).value.body, "message") == Get(t.info.entries, "message")
    ensures !(t.info.Dict? && Get(t.info.entries, "message").Some? && Truthy(Get(t.info.entries, "message").value)) ==>
      Get(GetStatus(t).value.body, "message") == Some(Str(PyStr(t.result)))
  {
    var m := FailureMessage(t.info, t.result);
    assert GetStatus(t) == Ok(Response(200, Failed(m)));
    ResponseFields(m, NoneValue, NoneValue);
  }

  /** The remaining states: retrying and revoked have fixed messages; any other state reads as processing. */
  lemma OtherStates(t: TaskSnapshot)
    requires t.state !in {Pending, Progress, Started, Success, Failure}
    ensures t.state == Retry ==> GetStatus(t) == Ok(Response(200, Processing(Str(RetryMessage))))
    ensures t.state == Revoked ==> GetStatus(t) == Ok(Response(200, Failed(Str(RevokedMessage))))
    ensures t.state != Retry && t.state != Revoked ==> GetStatus(t) == Ok(Response(200, Processing(Str(WorkingMessage))))
  {
  }

  /**
   * The snapshot `get_status` reads once a run of `process_url_task` has
   * finished, as Celery stores it: the returned value as the result of a
   * SUCCESS, or the raised exception as both the result and the info of a
   * FAILURE.
   */
  function Stored(outcome: Result<Value, Exc>): TaskSnapshot {
    match outcome
    case Ok(v) => TaskSnapshot(Success, NoneValue, v)
    case Err(e) => TaskSnapshot(Failure, Raised(e), Raised(e))
  }

  /** The title and summary a run returns are the ones the status shows. */
  lemma TaskResultShown(title: string, summary: string)
    ensures var r := GetStatus(Stored(Ok(Tasks.ResultDict(title, summary))));
      r.Ok?
      && Get(r.value.body, "status") == Some(Str("success"))
      && Get(r.value.body, "title") == Some(Str(title))
      && Get(r.value.body, "summary") == Some(Str(summary))
  {
    var entries := Tasks.ResultDict(title, summary).entries;
    GetFirst(entries, "title", 0);
    GetFirst(entries, "summary", 1);
    SuccessPassesResult(Stored(Ok(Tasks.ResultDict(title, summary))));
  }

  /** A stored exception is shown as an error carrying its message. */
  lemma RaisedShown(e: Exc)
    ensures var r := GetStatus(Stored(Err(e)));
      r.Ok?
      && Get(r.value.body, "status") == Some(Str("error"))
      && Get(r.value.body, "message") == Some(Str(e.message))
  {
    var t := Stored(Err(e));
    assert GetStatus(t) == Ok(Response(200, Failed(Str(e.message))));
    ResponseFields(Str(e.message), NoneValue, NoneValue);
  }

  /**
   * A run that raises is shown as an error whose message is the one the
   * run's last FAILURE update carried.
   */
  lemma FailedRunShown(url: string, scrape: Tasks.Scraper, s: Summarization.Settings, llm: Summarization.Llm)
    requires Tasks.TaskRun(url, scrape, s, llm).outcome.Err?
    ensures var run := Tasks.TaskRun(url, scrape, s, llm);
      var r := GetStatus(Stored(run.outcome));
      r.Ok?
      && Get(r.value.body, "status") == Some(Str("error"))
      && Get(r.value.body, "message") == Some(Str(run.updates[|run.updates| - 1].message))
  {
    RaisedShown(Tasks.TaskRun(url, scrape, s, llm).outcome.error);
  }
}
