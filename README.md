# gist core in Dafny

A model of the self-contained logic of the *gist* web application. The
application is a Django and Celery service. It takes a URL, checks it
against server-side request forgery, scrapes the page in a background task,
asks a local Ollama chat model for a Japanese summary, and reports the
task's status as JSON. The network, HTML parsing, DNS, the IP address
parser, JSON decoding, Celery and the chat model are foreign. They enter the
model as function parameters or as values.

Modules, one per source concern:

- `UrlGate` (`url_gate.dfy`) models `ScrapingService.validate_url` and
  `_is_private_host`.
  - It includes the part of `urllib.parse.urlsplit` the gate reads: C0/space
    stripping, tab and line-break removal, the scheme rule, the authority
    after `//`, the bracket checks, and `hostname` (lowered in ASCII only).
  - `_is_private_host` is a method with the source's nested collection
    loops and its early-exit scan.
  - `validate_url` is a method that checks the scheme, then the host, then
    the resolved addresses.
- `IpClass` (`ip_class.dfy`) holds the address categories that
  `ipaddress.ip_address(...).is_private`, `is_loopback`, `is_link_local`,
  `is_reserved`, `is_multicast` and `is_unspecified` report.
  - The tables of
    Python 3.12 are written as prefix blocks over 32-bit and 128-bit
    integers.
  - This covers the special-purpose registries of RFC 6890, RFC 1918
    section 3, and RFC 4291 sections 2.5.2, 2.5.3, 2.5.5.2, 2.5.6 and 2.7.
- `Views` (`views.dfy`) models `start_task` and `get_status`.
  - Both are functions over a request or a task snapshot.
  - The validator and the enqueuer are parameters.
  - A trace records the calls `start_task` makes of them.
- `Tasks` (`tasks.dfy`) models `process_url_task`.
  - The title/summary split is a function.
  - The task object is a class whose `updates` field records the
    `update_state` calls.
  - Its method is proved against the function `TaskRun`.
- `Summarization`, `AppsSummarization` and `SrcSummarization` model the two
  `SummarizationService` variants.
  - `Summarization` holds what they share: the prompt template and its
    round trip, Python's prefix slice, and content normalisation.
- `PyValues`, `Text` and `Wrappers` hold the shared pieces:
  - `PyValues`: Python values, truthiness, `dict.get`, `str()` and exception
    objects.
  - `Text`: the `str` methods the code calls (`strip`, `in`, `find`,
    `partition`, `split`, `replace`, `join`), and `lower` for ASCII letters.
  - `Wrappers`: `Option` and `Result`.

Three behaviours of the code are easy to misread, and the model states them
as the code has them:

- The app's `summarize` short-circuits only the empty string (`not text`).
  Text made only of whitespace is sent to the model
  (`AppsSummarization.WhitespaceReachesModel`).
- `_is_private_host` refuses a host as soon as *any* of its addresses is
  blocked, not only when all of them are
  (`UrlGate.BlockedAddressNeverAccepted`).
- The title split strips only the text before "タイトル:" and the title
  line, so the summary of "タイトル: テスト\n要点:\n- テストです" keeps its
  "要点:" (`Tasks.ExampleReplySplits`). A line before the title line hides
  the title (`Tasks.PreambleHidesTitle`).

## Model

| member | source | states |
|---|---|---|
| UrlGate.SplitScheme | src/gist/services/scraping_service.py:10 | A scheme, when present, is the lowered text before the first `:`, and the rest follows that colon; with no scheme nothing is cut |
| UrlGate.UrlSplit | src/gist/services/scraping_service.py:10 | Every error `urlsplit` raises here is a ValueError. The authority holds no `/`, `?` or `#`, and holds `[` exactly when it holds `]` |
| UrlGate.Hostname | src/gist/services/scraping_service.py:13 | A hostname, when present, is non-empty and never holds the `@` of user information |
| UrlGate.SyntaxCheck | src/gist/services/scraping_service.py:10-14 | Passes exactly when the URL splits, the scheme is `http` or `https` and a hostname is present; every failure is a ValueError; the host passed on is non-empty and `@`-free |
| UrlGate.SchemeCheckedFirst | src/gist/services/scraping_service.py:10-12 | Whenever the URL splits and its scheme is not exactly `http` or `https`, the result is the scheme error, whatever the host |
| UrlGate.OtherSchemeRefused | src/gist/services/scraping_service.py:10-12 | Any valid scheme other than http/https, in any letter case, with any rest free of brackets (`ftp://…`, `file:///etc/passwd`), gets the scheme error |
| UrlGate.SchemelessRefused | src/gist/services/scraping_service.py:10-12 | A URL with no `:` and no brackets (`just-a-string`) gets the scheme error |
| UrlGate.EmptyHostSplit | src/gist/services/scraping_service.py:10 | `http://` or `https://` followed by nothing or by a path, query or fragment splits into that scheme with an empty authority |
| UrlGate.EmptyHostRefused | src/gist/services/scraping_service.py:13-14 | `http://`, `http:///path` and the like fail with the hostname error |
| UrlGate.PlainUrlSplit | src/gist/services/scraping_service.py:10 | An http(s) URL with a plain host name, an optional numeric port and a path, query or fragment splits into exactly that scheme and authority |
| UrlGate.PlainHostname | src/gist/services/scraping_service.py:13 | The hostname of `host[:port]` with a plain lower-case host is that host |
| UrlGate.PlainUrlPassesSyntax | src/gist/services/scraping_service.py:10-15 | Such a URL passes both syntactic checks, and its host is what gets resolved |
| UrlGate.IsPrivateHost | src/gist/services/scraping_service.py:19-32 | Lookups are IPv4 then IPv6, and stop when an IPv4 lookup raises something other than gaierror. A raising lookup's exception is passed on. Otherwise the answer is true only if some collected address is blocked, false only if all parse and none is blocked, and an error only for an address that does not parse |
| UrlGate.ValidateUrl | src/gist/services/scraping_service.py:9-16 | Syntax errors come first and then no lookup is made. Otherwise the lookups are those of the host check, a resolver failure is passed on, and the verdict over the gathered set is accepted, blocked or a parse error |
| UrlGate.NoAddressesAccepted | src/gist/services/scraping_service.py:27-32 | A host with no addresses at all is accepted, and only accepted |
| UrlGate.VerdictWhenAllParse | src/gist/services/scraping_service.py:27-32 | When every address parses, the only verdict is "blocked" if some address is blocked and "accepted" otherwise |
| UrlGate.BlockedAddressNeverAccepted | src/gist/services/scraping_service.py:27-31 | One blocked address among any others makes acceptance impossible |
| UrlGate.Gathered | src/gist/services/scraping_service.py:20-26 | Fails exactly when a lookup raises something other than gaierror, with the IPv4 exception first. Otherwise an address is collected exactly when one of the two lookups answered it |
| UrlGate.GaiErrorTolerated | src/gist/services/scraping_service.py:21-26 | A gaierror for IPv4 is skipped: the set is exactly the IPv6 answers, and both families are asked |
| UrlGate.ResolverFailurePassedOn | src/gist/services/scraping_service.py:21-26 | Any other IPv4 failure propagates unchanged, and IPv6 is not asked |
| UrlGate.SingleAddressHost | src/gist/services/scraping_service.py:20-32 | A host with one address is refused exactly when that address is blocked |
| UrlGate.StripZoneWith | src/gist/services/scraping_service.py:28 | Everything from the first `%` on is dropped before parsing |
| UrlGate.ZonedLinkLocalRefused | src/gist/services/scraping_service.py:28-31 | A zone-qualified link-local address such as `fe80::1%lo0` is refused |
| UrlGate.LoopbackHostRefused | src/gist/services/scraping_service.py:27-31 | A host resolving to 127.0.0.1 is refused with the blocked-host error and nothing else |
| UrlGate.PublicHostAccepted | src/gist/services/scraping_service.py:27-32 | A host resolving to 93.184.216.34 is accepted and nothing else |
| UrlGate.UnparsableAddressRaises | src/gist/services/scraping_service.py:28 | A host whose one address does not parse gets exactly the parser's ValueError for that address without its zone |
| IpClass.IsBlocked | src/gist/services/scraping_service.py:29-30 | The six categories the code tests. It has no contract of its own; the IpClass lemmas below state its blocks |
| IpClass.V4LoopbackBlocked | src/gist/services/scraping_service.py:29-30 | Every address in 127.0.0.0/8 is loopback and blocked |
| IpClass.Rfc1918Blocked | src/gist/services/scraping_service.py:29-30 | Every address in 10/8, 172.16/12 and 192.168/16 is private and blocked |
| IpClass.V6LoopbackAndUnspecifiedBlocked | src/gist/services/scraping_service.py:29-30 | `::1` is loopback, `::` is unspecified, and both are blocked |
| IpClass.V6LinkLocalBlocked | src/gist/services/scraping_service.py:29-30 | Every address in fe80::/10 is link-local and blocked |
| IpClass.V4MappedAlwaysBlocked | src/gist/services/scraping_service.py:29-30 | Every IPv4-mapped IPv6 address is reserved and so blocked |
| IpClass.V4MappedPrivacy | src/gist/services/scraping_service.py:29-30 | An IPv4-mapped address is private exactly when the IPv4 address it maps is |
| IpClass.PublicV4Accepted | src/gist/services/scraping_service.py:29-30 | 93.184.216.34 falls in no blocked category |
| IpClass.SharedAddressSpaceAccepted | src/gist/services/scraping_service.py:29-30 | 100.64.0.1 (shared address space) is in none of the categories the code tests |
| IpClass.PrivateExceptionAccepted | src/gist/services/scraping_service.py:29-30 | 192.0.0.9, an exception inside 192.0.0.0/24, is not blocked |
| Views.ExtractUrl | apps/gist/views.py:24-31 | A request is read as JSON exactly when its content type starts with `application/json`. Only a `JSONDecodeError` gives the invalid-JSON answer. Any other exception of `json.loads`, and the missing `get` of a decoded non-object, is raised. An object gives its `url` entry, and any other request gives the form field |
| Views.StripUrl | apps/gist/views.py:34 | The stripped URL has no whitespace at either end; only a truthy non-string raises; a string URL reads as its `strip()`, a falsy value as `""` |
| Views.QueuedUrlIsStripped | apps/gist/views.py:34-44 | The URL checked and queued is exactly the submitted string with surrounding whitespace removed |
| Views.Dispatch | apps/gist/views.py:35-53 | Statuses are 202/400/503; an empty URL calls nothing; otherwise validation comes first, and the URL is queued exactly when it is non-empty and validation passes |
| Views.StartTask | apps/gist/views.py:21-53 | Every answer is 202, 400 or 503, and a request yielding no URL calls neither collaborator |
| Views.StartTaskDispatches | apps/gist/views.py:33-53 | A request that yields a URL is answered by dispatching that stripped URL |
| Views.QueuedOnlyAfterCheck | apps/gist/views.py:38-46 | A URL is queued only after it was validated and accepted, and it is the non-blank stripped URL read from the request |
| Views.InvalidJsonRejected | apps/gist/views.py:24-29 | An undecodable JSON body gives 400 "無効なJSONです。" and no calls |
| Views.LoadErrorEscapes | apps/gist/views.py:25-29 | Any other exception of `json.loads`, such as the `UnicodeDecodeError` of a body that is not UTF-8, escapes the view before anything is called |
| Views.BlankUrlRejected | apps/gist/views.py:34-36 | A missing, falsy or all-whitespace URL gives 400 "URLを入力してください。" with no validation and no enqueue |
| Views.CheckedUrlNotBlank | apps/gist/views.py:34-40 | Any call to a collaborator implies the request held a non-blank URL |
| Views.ValidationErrorReturned | apps/gist/views.py:38-42 | A ValueError from validation gives 400 whose error is exactly the exception's message, and nothing is queued |
| Views.OtherValidationErrorEscapes | apps/gist/views.py:38-42 | Any other exception from validation escapes the view, and nothing is queued |
| Views.EnqueueFailureIs503 | apps/gist/views.py:45-52 | A raising enqueue gives 503 with the fixed message and no task id |
| Views.AcceptedIs202 | apps/gist/views.py:45-53 | A successful enqueue gives 202 whose `task_id` is the new task's id, after exactly one validation and one enqueue |
| Views.StripUrlStripped | apps/gist/views.py:34 | Stripping is idempotent: a URL and its stripped form read the same |
| Views.SurroundingSpaceIgnored | apps/gist/views.py:31-34 | Surrounding whitespace in the form field changes nothing about the answer or the calls |
| Views.EscapesExactly | apps/gist/views.py:21-53 | The view raises exactly when `json.loads` raises something other than `JSONDecodeError`, a decoded body is not an object, the URL is a truthy non-string, or validation raises a non-ValueError |
| Views.GetStatus | apps/gist/views.py:56-100 | The status is 200 and `status` is processing, success or error. It is success iff the state is SUCCESS and error iff FAILURE or REVOKED. It raises iff a PROGRESS/STARTED info is truthy but not a dict |
| Views.PendingIsWaiting | apps/gist/views.py:61-65 | PENDING, which also stands for an unknown id, is processing "タスクは待機中です。" |
| Views.ProgressShowsMessage | apps/gist/views.py:66-70 | PROGRESS or STARTED shows `info["message"]` when present, else "処理中..." |
| Views.SuccessPassesResult | apps/gist/views.py:71-78 | A dict result's `title` and `summary` (None when absent) are passed through |
| Views.SuccessOtherResult | apps/gist/views.py:79-84 | A non-dict result gets title "要約結果" and summary "" for None, else `str(result)` |
| Views.FailureShowsMessage | apps/gist/views.py:85-91 | FAILURE shows a truthy `info["message"]` of a dict info, else `str(result)` |
| Views.OtherStates | apps/gist/views.py:92-98 | RETRY is processing "再試行中です...", REVOKED is error "タスクは取り消されました。", and any other state is processing "処理中..." |
| Views.StateOf | apps/gist/views.py:64-98 | Each of the seven names the view compares against maps to its own state, any other name to the fallback state, and the name is kept |
| Views.StateNameRoundTrip | apps/gist/views.py:64-98 | Every state whose fallback name is none of the seven is the state of its own name |
| Views.ProgressMessage | apps/gist/views.py:69 | Raises exactly for a truthy info that is not a dict. Otherwise gives the info's `message` entry when there is one, and "処理中..." when there is none |
| Views.FailureMessage | apps/gist/views.py:86-90 | The message is a dict info's truthy `message` entry exactly when there is one, and otherwise `str(result)` |
| Views.TaskResultShown | apps/gist/views.py:71-78 | The title and summary a finished task returned are exactly the ones the status shows |
| Views.RaisedShown | apps/gist/views.py:85-91 | A failed task whose stored result is an exception shows that exception's message |
| Views.FailedRunShown | apps/gist/views.py:85-91 | A failed run of the task is shown with the message of its last FAILURE update |
| Tasks.FirstLine | apps/gist/tasks.py:39 | The first line is a newline-free prefix ended by the first newline or by the end of the text |
| Tasks.SplitTitle | apps/gist/tasks.py:31-42 | The title is the default "要約結果" or has no whitespace at either end. Without "タイトル:" the summary is the reply itself; with it, the summary has no whitespace at either end |
| Tasks.NoMarkerKeepsReply | apps/gist/tasks.py:31-33 | Any reply without "タイトル:" gets title "要約結果" and is itself the summary, unstripped |
| Tasks.ColonFreeReplyKept | apps/gist/tasks.py:31-33 | So does any reply without a colon |
| Tasks.TitleLineSplits | apps/gist/tasks.py:33-42 | A first line starting with "タイトル:" gives the title: that line without any "タイトル:", stripped. The summary is the rest after the line, stripped |
| Tasks.TitleOnlyReply | apps/gist/tasks.py:33-42 | A one-line reply starting with "タイトル:" gives that line without the marker, stripped, as the title, and an empty summary |
| Tasks.PointsFirstSplits | apps/gist/tasks.py:33-37 | When "要点:" stands before the first "タイトル:", the title is that prefix without "要点:", stripped, and the summary is everything after the marker, stripped |
| Tasks.FormattedReplySplits | apps/gist/tasks.py:31-42 | A reply "タイトル: t\np" with a one-line, colon-free title splits back into `t` and `p`, both stripped |
| Tasks.LateMarkerKeepsDefaultTitle | apps/gist/tasks.py:33-42 | When the marker occurs but the first line does not start with it, and "要点:" does not occur before the marker, the title stays "要約結果" and the summary is the text after the first line, stripped |
| Tasks.LateMarkerOneLine | apps/gist/tasks.py:33-42 | The same for a one-line reply, whose summary is empty |
| Tasks.PreambleHidesTitle | apps/gist/tasks.py:33-42 | A colon-free line before a reply in the requested format leaves the title at "要約結果" and makes the whole formatted reply, stripped, the summary |
| Tasks.SummaryFromReply | apps/gist/tasks.py:33-42 | Whenever the marker occurs, the summary is a contiguous piece of the reply |
| Tasks.ExampleReplySplits | apps/gist/tasks.py:31-42 | "タイトル: テスト\n要点:\n- テストです" gives title "テスト" and summary "要点:\n- テストです" |
| Tasks.TaskRun | apps/gist/tasks.py:10-59 | Every run begins with PROGRESS "スクレイピング中..." and has at most three updates, with "要約中..." second when there are three. It ends in FAILURE exactly when it raises, and it raises a plain Exception carrying that update's message |
| Tasks.EmptyPageShortCircuits | apps/gist/tasks.py:18-22 | Empty page text returns the no-content placeholder after just the scraping update, whatever the settings and the model |
| Tasks.ValueErrorSurfaces | apps/gist/tasks.py:46-52 | A ValueError while scraping ends in FAILURE with its own message, re-raised with that message |
| Tasks.ScrapeFailureFails | apps/gist/tasks.py:18-19 | A raising scraper ends the run in the `except` clauses after the first update |
| Tasks.ServiceFailureFails | apps/gist/tasks.py:25-26 | A service that cannot be built ends the run in the `except` clauses after both updates |
| Tasks.SummarizeFailureFails | apps/gist/tasks.py:27 | A raising `summarize` ends the run in the `except` clauses after both updates |
| Tasks.ModelErrorSurfaces | apps/gist/tasks.py:24-59 | An exception of the chat model fails the run after both updates: a ValueError with its own message, any other under the fixed message |
| Tasks.SplitReplyReturned | apps/gist/tasks.py:27-45 | A reply from `summarize` is split and returned as the result, after both updates |
| Tasks.UnexpectedErrorHidden | apps/gist/tasks.py:53-59 | Any other exception gives the fixed message, and two such exceptions at the same step give identical runs |
| Tasks.MisconfigurationIsUnexpected | apps/gist/tasks.py:24-27 | Missing or empty Ollama settings fail after both progress updates under the fixed message |
| Tasks.SuccessReturnsSplitReply | apps/gist/tasks.py:24-45 | With a configured service and an integer limit, the model is asked about the cut page text, and the split of its normalised reply is the result |
| Tasks.BoundTask.UpdateState | apps/gist/tasks.py:18 | Appends one (state, message) update |
| Tasks.BoundTask.Fail | apps/gist/tasks.py:46-59 | Records the FAILURE update and returns the exception to raise, as `Failed` specifies |
| Tasks.BoundTask.ProcessUrl | apps/gist/tasks.py:10-59 | The recorded updates and the outcome are those of `TaskRun` |
| Summarization.ReadSetting | apps/gist/services/summarization_service.py:7 | Reading a setting gives its value iff it is bound, else an AttributeError |
| Summarization.Prompt | apps/gist/services/summarization_service.py:26-34 | The template around the cut text. It has no contract of its own; Summarization.PromptRoundTrip states what it keeps |
| Summarization.PromptRoundTrip | apps/gist/services/summarization_service.py:26-34 | Splitting the prompt at the first "テキスト:\n" and then at the first "\n\n要約は" gives a prefix of the text, and gives the text itself iff the text does not contain "\n\n要約は" |
| Summarization.Slice | apps/gist/services/summarization_service.py:25 | `text[:n]` is a prefix of length min(n, \|text\|) for n >= 0, and max(0, \|text\| + n) for negative n |
| Summarization.SliceShort | apps/gist/services/summarization_service.py:25 | A text within the limit is not cut |
| Summarization.SliceIdempotent | apps/gist/services/summarization_service.py:25 | Cutting twice at one limit equals cutting once |
| Summarization.SliceBy | apps/gist/services/summarization_service.py:24-25 | A None limit keeps the text, an int or bool cuts, and any other value raises TypeError |
| Summarization.NormalizeContent | apps/gist/services/summarization_service.py:36-40 | A string as it is, a list as its items' `str()` joined by newlines, anything else as `str()`. It has no contract of its own; Summarization.ListContentLines and Summarization.Ask state its use |
| Summarization.ListContentLines | apps/gist/services/summarization_service.py:38-39 | List content split at newlines gives back each item's `str()`, when there is at least one item and none holds a newline |
| Summarization.Ask | apps/gist/services/summarization_service.py:26-40 | The model receives one prompt embedding (a prefix of) the text, its error propagates, and its content is returned normalised |
| AppsSummarization.EnsureConfig | apps/gist/services/summarization_service.py:6-8 | Passes iff both Ollama settings are bound and truthy. ImproperlyConfigured iff one read is falsy, the base URL first. Otherwise an unbound setting raises AttributeError |
| AppsSummarization.NewService | apps/gist/services/summarization_service.py:11-16 | A service exists iff the configuration passes and holds the configured model and base URL, else the configuration error |
| AppsSummarization.Limit | apps/gist/services/summarization_service.py:21-24 | An explicit limit overrides the setting; without one the setting's value is used, and its absence raises AttributeError |
| AppsSummarization.Summarize | apps/gist/services/summarization_service.py:18-40 | Empty text gives "" with no model call. Only an error skips the model for other text. The model sees a prompt embedding a prefix of the text, cut to an explicit limit when one is given. Its error is raised and its content returned normalised. A missing setting raises AttributeError before any call |
| AppsSummarization.WhitespaceReachesModel | apps/gist/services/summarization_service.py:19-20 | Whitespace-only text is sent to the model |
| AppsSummarization.SettingLimitUsed | apps/gist/services/summarization_service.py:21-25 | An int setting cuts the text, a None setting keeps it whole, a string setting raises TypeError before the model is asked |
| AppsSummarization.WholeTextRecovered | apps/gist/services/summarization_service.py:25-34 | A text within the limit and free of "\n\n要約は" is recovered exactly from the prompt |
| SrcSummarization.NewService | src/gist/services/summarization_service.py:5-6 | A service exists iff both settings are bound; no value check |
| SrcSummarization.Summarize | src/gist/services/summarization_service.py:8-24 | The model is always asked once, about `text[:max_chars]` for an explicit limit and about at most 8000 characters by default. Its error is raised and its content returned normalised |
| SrcSummarization.EmptyTextAsked | src/gist/services/summarization_service.py:8-19 | Even empty text is sent to the model |
| SrcSummarization.DefaultLimit | src/gist/services/summarization_service.py:8-9 | The default cut is the first 8000 characters; a shorter text free of "\n\n要約は" is embedded and recovered whole |

## Left out

- `ScrapingService.scrape` is an HTTP GET plus BeautifulSoup text
  extraction. In the task it is the `Scraper` parameter.
- `socket.getaddrinfo` is the `Resolver` parameter and
  `ipaddress.ip_address` is the `Parser` parameter. The classification of
  parsed addresses is modelled; the parsing of address text is not.
- `UrlGate.IsPrivateHost`: Python's set iteration order is not modelled.
  When the set holds both a blocked and an unparsable address, the contract
  allows either answer.
- UrlGate.Hostname: only ASCII capitals are lowered. Python's `str.lower`
  lowers every cased letter, so for `http://ÉX.com` the code resolves
  `éx.com` while the model resolves `Éx.com`.
- UrlGate.ValidateUrl: for a host with non-ASCII capitals, the lookups name
  the host as `UrlGate.Hostname` lowers it, which is not how the code
  names it.
- `UrlGate.Hostname` models the part of `urlsplit` the gate reads. Left out:
  - the NFKC check of `_checknetloc`;
  - the `;params` split of `urlparse`;
  - port validation (the code never reads `parsed.port`);
  - `urlsplit`'s cache.
- `json.loads`, the Django request object, `JsonResponse`,
  `AsyncResult` and `process_url_task.delay` are inputs: a decoded body, a
  `JSONDecodeError` or another exception, a content type, a form field, a
  task snapshot, and an enqueuer.
- The `ScrapingService` that `apps/gist/views.py` imports lives in
  `apps/gist/services/scraping_service.py`, which is not part of this
  model. `Views` takes its validator as a parameter. `UrlGate` models the
  `validate_url` of `src/gist/services/scraping_service.py`.
- `Views.Stored`: Celery stores a raised exception as both the result and
  the info of a FAILURE, replacing the meta of the task's own FAILURE
  update. This is an assumption about Celery, not something modelled from
  its code.
- `PyValues.Repr` builds `repr()` without escaping quotes, backslashes or
  unprintable characters. Floats are not among the modelled values. A
  dictionary with a repeated key is read at its first entry.
- `SrcSummarization.Summarize`: an explicit `max_chars=None`, outside the
  parameter's annotated type, is not modelled.
- `ChatOllama` and `invoke` are the `Llm` parameter. The chat client in
  `apps/gist/clients/llm_api_client.py` is not part of this model.
  Constructing `ChatOllama` is assumed to succeed: its rejection of a
  setting of the wrong type (a `ValueError` that `process_url_task` would
  report with that error's message) is not modelled.
- `SummarizationServiceError` is imported by `apps/gist/services/__init__.py`
  but not defined in the summarization module shown; it is not modelled.
- Logging, the `require_GET`/`require_POST` decorators, `index`, routing,
  Celery configuration and worker concurrency are left out.
