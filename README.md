# dj-query-optimizer, modelled in Dafny

dj-query-optimizer is a Django app that records the SQL queries a web
request executes and sends chosen queries to a language-model provider for
optimisation advice. This project models its core and proves what the code
promises.

- **Query capture.** `QueryCaptureMiddleware` (every request) and the
  `track_queries` decorator (one view) take the length of the connection's
  append-only query log before the handler runs. Afterwards they walk only
  the entries appended since. Each entry whose duration parses becomes one
  `QueryRecord`, with `is_slow = duration > threshold`. A failing entry is
  skipped and the loop goes on. The middleware also skips excluded URL
  prefixes and, when `watched_models` is set, queries that name no watched
  model.
- **The store** (`Store.QueryLedger`) is a class holding the records in
  creation order and the analyses keyed by record id. Its invariant covers
  increasing ids and timestamps, column bounds, and at most one analysis per
  existing record. Deleting a record cascades to its analysis.
- **The analysis pipeline** (`Services`) covers three steps:
  - validating the provider configuration and choosing one of three client
    variants;
  - building the prompt, which carries the query, its duration and the last
    500 characters of the stack trace;
  - parsing the reply: the first ```` ```json ```` block or the first plain
    fenced block, decoded, with a fixed five-key fallback.
- **The views.** `query_analyze_view` is a chain of guarded early returns
  ending in one create. `QueryListView.get_queryset` builds a filter
  dictionary in place and applies a whitelisted ordering. The analysis
  detail page defaults missing keys to `''`.

Some operations of the source stay outside the model. The clock, float and
date parsing, Python's `str()` of a float, `json.loads`, the provider SDKs
and `traceback.format_stack()` all appear as parameters. `connection.queries`
is a `Capture.QueryLog` object. Its `Run` appends what the handler executes,
and its `Log` appends what one `create` call executes.

A reply fenced as ```` ```data ... ``` ```` is not unwrapped to the JSON
inside it. The code takes the text between the first two fences, the word
`data` included. When that text does not decode, the analysis is that text
(`Services.ParseFencedReply`).

Layout: `wrappers.dfy` (Option, Result), `settings.dfy` (Python values and
truthiness in settings dictionaries), `text.dfy` (`startswith`, `in`,
`split`, `strip`, `lower`), `utils.dfy`, `models.dfy`, `ledger.dfy`
(module `Store`), `capture.dfy` (the log, the request, the shared capture
loop), `middleware.dfy`, `decorators.dfy`, `services.dfy`, `views.dfy`.

## Model

| member | source | states |
|---|---|---|
| Utils.AnyPrefix | query_optimizer/utils.py:11 | true exactly when some prefix in the list starts the path |
| Utils.ExcludedPaths | query_optimizer/utils.py:4-10 | without the setting the list is exactly `/admin/`, `/static/`, `/media/`; a configured list replaces it |
| Utils.IsExcludedPath | query_optimizer/utils.py:3-11 | excluded iff the path starts with some prefix of the effective list |
| Utils.EmptySettingExcludesNothing | query_optimizer/utils.py:11 | an empty configured list excludes no path |
| Utils.RawPrefixTest | query_optimizer/utils.py:7-11 | with the defaults, `/admin` is not excluded but every `/admin/...` is |
| Settings.GreaterThan | query_optimizer/middleware.py:84 | `duration > threshold` is defined exactly for thresholds that compare with a float (int, float, bool, and `Decimal`/`Fraction`) and is the strict comparison |
| Models.ShortQuery | query_optimizer/models.py:54-56 | queries up to 100 characters are unchanged; longer ones become their first 100 characters plus `...`; never longer than 103 |
| Models.NewAnalysis | query_optimizer/models.py:73-77 | a new analysis holds the given mapping and suggestion, is not applied and has no applied time |
| Models.Where | query_optimizer/models.py:60 | keeps exactly the records meeting the criterion, each with its multiplicity |
| Models.SortDesc | query_optimizer/models.py:60 | the result is sorted descending on the field and is a permutation of the input |
| Models.GetSlowQueries | query_optimizer/models.py:58-60 | exactly the records with duration strictly above the threshold (0.5 when none is given), sorted by duration descending |
| Models.GetQueriesByView | query_optimizer/models.py:62-64 | exactly the records with that view name, sorted by duration descending |
| Models.NewestFirst | query_optimizer/models.py:30-31 | the default ordering is a permutation sorted by timestamp descending |
| Models.NewestFirstIsReverse | query_optimizer/models.py:31 | records stored in creation order are listed newest first, in exact reverse |
| Store.Find | query_optimizer/views.py:145-149 | `objects.get(id=...)` finds a record iff one has that id, and returns that record |
| Store.WithoutKeepsInvariant | query_optimizer/models.py:68-72 | deleting a record keeps the others ordered and within their column bounds |
| Store.StillThere | query_optimizer/models.py:68-72 | deleting one record leaves every other record in place |
| Store.QueryLedger.CreateRecord | query_optimizer/models.py:4-28 | a row is appended with the next id and timestamp iff the data fits the declared columns; analyses are untouched |
| Store.QueryLedger.CreateAnalysis | query_optimizer/models.py:67-77 | an analysis is added iff its record exists and has none yet (one-to-one); records are untouched |
| Store.QueryLedger.DeleteRecord | query_optimizer/models.py:68-72 | removes the record and, by cascade, its analysis |
| Store.QueryLedger.Get | query_optimizer/views.py:146 | returns the record with that id, or none |
| Store.QueryLedger.HasAnalysis | query_optimizer/views.py:152 | `hasattr(record, 'analysis')` is true iff an analysis is stored for the id |
| Capture.StatusOr200 | query_optimizer/middleware.py:96 | the response's status code when it has one, otherwise 200 |
| Capture.QueryLog.Run | query_optimizer/middleware.py:71-73 | running the handler appends exactly its queries to the log and returns its outcome |
| Capture.CollectSnoc | query_optimizer/middleware.py:78-107 | the per-entry loop can be run one entry at a time: a new entry adds its record, if any, at the end |
| Capture.CollectAppend | query_optimizer/middleware.py:78-107 | the records of two stretches of the log are the records of each, in order |
| Capture.FailedEntrySkipped | query_optimizer/middleware.py:105-107 | an entry that fails is skipped; the entries before and after it are recorded as if it were absent |
| Capture.HitsMatchRecords | query_optimizer/middleware.py:78-80 | the k-th record comes from the k-th entry that yields one |
| Capture.CollectFromHits | query_optimizer/middleware.py:78-80 | each entry yields at most one record, and the records appear in log order: exactly the yielding entries, in increasing index order |
| Capture.CollectedComeFromEntries | query_optimizer/middleware.py:78-97 | every record comes from some entry of the slice |
| Capture.QueryLog.Log | query_optimizer/middleware.py:86-97 | the statements one `create` executes are appended to the log |
| Capture.InsertsSnoc | query_optimizer/middleware.py:78-97 | one more create appends its INSERT after those of the earlier ones |
| Capture.CaptureOne | query_optimizer/middleware.py:79-107 | one turn of the loop extends the stored records by the entry's record when it fits, and the log by its INSERT whenever `create` is called |
| Capture.CaptureEach | query_optimizer/middleware.py:78-107 | the loop appends exactly the records of the entries whose attempt succeeds and whose data fits, in log order, appends to the log the INSERT of every attempted create, and changes no analysis |
| Middleware.Init | query_optimizer/middleware.py:13-32 | a missing or empty config fails; the exclusion list is the configured one followed by the three built-ins; otherwise construction fails exactly when `excluded_paths` is not a list (checked first, by the concatenation), when `watched_models` is truthy and not a list, or when the threshold is truthy and not a number, each with its own error, and succeeds otherwise |
| Middleware.BuiltinsNeverDropped | query_optimizer/middleware.py:20 | the effective exclusion list always ends with `/admin/`, `/static/`, `/media/` |
| Middleware.DecimalThresholdOnlyWhenZero | query_optimizer/middleware.py:21-32 | a `Decimal` threshold fails `check_config` unless it is zero, and an accepted zero compares with every duration |
| Middleware.SchemeEnd | query_optimizer/middleware.py:37 | a scheme ends at a `:` past the first character and needs a leading ASCII letter; a URL not starting with a letter has none |
| Middleware.StripParamsKeepsPrefix | query_optimizer/middleware.py:37 | parameters start in the last path segment, so a `;`-free prefix ending in `/` survives `_splitparams` |
| Middleware.UrlPathOfPlainPath | query_optimizer/middleware.py:37 | `urlparse(p).path` is `p` itself for an ordinary path |
| Middleware.UrlPathDropsQuery | query_optimizer/middleware.py:37 | `urlparse` drops the query string of an ordinary path |
| Middleware.UrlPathKeepsPrefix | query_optimizer/middleware.py:37 | a prefix starting with one `/`, ending with `/` and free of `#`, `?`, `;`, tab and newline starts the parsed path of every URL it starts, and parsing does not raise |
| Middleware.UnmatchedBracketRaises | query_optimizer/middleware.py:37 | a network location with `[` but no `]` makes `urlparse` raise `ValueError` |
| Middleware.ShouldCapture | query_optimizer/middleware.py:34-38 | raises exactly when `urlparse` does; otherwise false exactly when the parsed URL path starts with some excluded prefix |
| Middleware.ShouldCaptureOrdinaryPath | query_optimizer/middleware.py:34-38 | for an ordinary path, capture is the negation of the raw prefix test |
| Middleware.BuiltinPrefixesNeverCaptured | query_optimizer/middleware.py:34-38 | whatever is configured, a raw path starting with `/admin/`, `/static/` or `/media/` is never captured and never raises, whatever follows the prefix |
| Middleware.GetViewName | query_optimizer/middleware.py:44-55 | no resolver match gives `''`; else the function name when there is one; else `view_name` if non-empty; else `url_name` |
| Middleware.AnyModelIn | query_optimizer/middleware.py:63 | true iff some lower-cased model name occurs in the lower-cased SQL |
| Middleware.IsWatchedModelQuery | query_optimizer/middleware.py:57-63 | every query is watched when no models are configured; otherwise exactly those naming a model, case-insensitively |
| Middleware.WatchedModelExample | query_optimizer/middleware.py:62-63 | with `["Order"]`, `FROM Order` is watched and `FROM Session` is not |
| Middleware.RecordsAreClassified | query_optimizer/middleware.py:82-97 | every record has `is_slow == (duration > threshold)`, the view name, path and status of the request, fits its columns, and comes from a watched entry whose time parses to its duration |
| Middleware.IncomparableThresholdRecordsNothing | query_optimizer/middleware.py:84 | a threshold that does not compare with a float makes every comparison raise, so nothing is recorded |
| Middleware.MissingContentTypeRecordsNothing | query_optimizer/middleware.py:95 | a request without `content_type` makes every create raise, so nothing is recorded |
| Middleware.Call | query_optimizer/middleware.py:65-117 | when `urlparse` raises, the `ValueError` escapes before the view runs and nothing changes; otherwise the handler's outcome is returned unchanged and its queries are logged; an excluded request records nothing; a captured one appends exactly the middleware records of the entries the handler executed and logs their INSERTs after the handler's queries; no analysis changes |
| Middleware.CaptureRequest | query_optimizer/middleware.py:69-107 | the handler's queries are logged and its outcome returned; when it returns, the records of exactly its own queries are stored and their INSERTs logged after them |
| Decorators.Target | query_optimizer/decorators.py:28-46 | a first argument with `request` gives its request and class name; otherwise the argument is the request and the view name is `resolver_match.view_name` or `''` |
| Decorators.RecordsAreClassified | query_optimizer/decorators.py:65-81 | every record uses the per-call threshold, the stack only when `capture_stack`, the parameters only when `capture_params`, `''` for a missing content type, status or 200, and comes from an executed entry |
| Decorators.EveryParsedEntryRecorded | query_optimizer/decorators.py:65-81 | with a numeric threshold, no model filter and fitting columns, every entry whose time parses is recorded |
| Decorators.IncomparableThresholdRecordsNothing | query_optimizer/decorators.py:68 | a threshold that does not compare with a float records nothing |
| Decorators.Wrapped | query_optimizer/decorators.py:23-94 | enabled with no positional argument, `args[0]` raises before the view runs; disabled, or with a falsy request, the view runs with nothing recorded; otherwise the view's outcome is returned, exactly the decorator records of its queries are appended, and the INSERTs of the attempted creates follow its queries in the log |
| Decorators.TrackQueries | query_optimizer/decorators.py:98-101 | bare use wraps the view at once; parameterised use returns a decorator with the same options |
| Decorators.BothDecoratorFormsAgree | query_optimizer/decorators.py:99-101 | `@track_queries` and `@track_queries(...)` give the same wrapper; the defaults are enabled, 0.5, stack and parameters on |
| Services.ProviderOf | query_optimizer/services.py:75 | exactly the strings `mistral`, `openai`, `anthropic` name a provider |
| Services.InvalidProviderMessageShowsPlaceholder | query_optimizer/services.py:76 | where the intended message names the provider, the message as written shows the literal `{self.provider}` |
| Services.CheckConfig | query_optimizer/services.py:73-82 | passes iff the provider is valid and model and api key are truthy; the provider is checked first, then the model, then the key; an invalid provider carries the message as written |
| Services.SetupClient | query_optimizer/services.py:85-95 | each valid provider gets exactly its own client variant built with the api key; any other gets none |
| Services.Init | query_optimizer/services.py:58-71 | construction succeeds iff the config is set and passes the checks, and then holds the provider, model, key and matching client |
| Services.ClientInitNeverFails | query_optimizer/services.py:94-95 | the "failed to initialize client" error cannot occur once the checks pass |
| Services.NoDefaultProvider | query_optimizer/services.py:66 | a config without `provider` is rejected as an invalid provider |
| Services.ContextOf | query_optimizer/services.py:115 | `No context` for an empty trace, otherwise the last min(500, length) characters |
| Services.KeyLines | query_optimizer/services.py:124-129 | one line per response key |
| Services.PromptCarriesRecord | query_optimizer/services.py:108-130 | the prompt contains the query, `Execution Time: <duration> seconds` and `Context: <context>` |
| Services.PromptAsksForResponseKeys | query_optimizer/services.py:124-129 | the prompt names every one of the five response keys |
| Services.CallOf | query_optimizer/services.py:17-55 | one user message with the prompt; Mistral uses the chat API at its base URL, OpenAI the chat API, Anthropic the messages API with 2000 max tokens |
| Services.Fallback | query_optimizer/services.py:142-150 | exactly the five response keys, `analysis` mapped to the text and the other four to `''` |
| Services.ParseAiResponse | query_optimizer/services.py:132-150 | the decoded stripped extract, whatever JSON value it is, when it decodes; otherwise the fallback object on the unstripped extract, which is truthy |
| Services.AnalyzeQuery | query_optimizer/services.py:97-106 | a result exactly when the provider call returns text, and then the parsed reply; any failure gives None |
| Services.ExtractJsonBlock | query_optimizer/services.py:136-137 | with a json fence, the extract is what follows the first json fence, cut at the next json fence and then at the next fence |
| Services.ExtractAfterJsonFence | query_optimizer/services.py:136-137 | with a json fence, and no backtick run into a second json fence, the extract runs from the first json fence to the next fence or the end, whatever plain fences precede it |
| Services.ExtractStraddleAsWritten | query_optimizer/services.py:137 | the exception: after the json fence, `x````json` extracts as `` x` `` |
| Services.ExtractAfterFence | query_optimizer/services.py:138-139 | without a json fence, the extract runs from the first fence to the next fence or the end |
| Services.ExtractWithoutFence | query_optimizer/services.py:136-141 | a reply without fences is parsed whole |
| Services.ExtractPlainBlock | query_optimizer/services.py:138-139 | a plain fenced block after backtick-free text extracts as its body |
| Services.ParseFencedReply | query_optimizer/services.py:138-150 | such a block parses as its decoded stripped body, or as the fallback object on its body |
| Views.SuggestionOf | query_optimizer/views.py:166 | `analysis.get('optimization_suggestions', '')` |
| Views.Named | query_optimizer/views.py:140-146 | a submission names a record only when it is a POST with a non-empty id that converts to the id of a stored record |
| Views.Decide | query_optimizer/views.py:136-169 | non-POST, a missing id, an id that does not convert (`ValueError`), an unknown or negative id and an analysed record each create nothing with their own outcome; for an unanalysed record, a failing optimizer construction raises, and otherwise the optimizer's result for that record is stored with a success redirect when it is a non-empty object, raises `AttributeError` when it is another truthy JSON value, and is reported as a failure, storing nothing, when it is None or falsy; an analysis is created exactly when success is reported |
| Views.SuccessStoresOne | query_optimizer/views.py:163-168 | success adds exactly one analysis, for that record, holding the object `analyze_query` returned for it and its suggestion, not applied, and changes no other analysis |
| Views.SecondSubmissionIsNoOp | query_optimizer/views.py:151-154 | submitting the same record again reports "already analyzed" and creates nothing |
| Views.FalsyResultStoresNothing | query_optimizer/views.py:157-161 | a None or falsy optimizer result (empty object, `null`, `0`, `[]`, `""`) creates nothing and reports the failure |
| Views.NonObjectResultRaises | query_optimizer/views.py:158-166 | a truthy result that is not an object passes the falsiness test and raises `AttributeError` at `.get`, creating nothing |
| Views.QueryAnalyzeView | query_optimizer/views.py:136-169 | the view redirects as decided, leaves the records unchanged, and stores exactly the decided analysis |
| Views.Parsed | query_optimizer/views.py:25-37 | a parameter yields a value iff it is present, non-empty and converts |
| Views.ChoiceFiltersMapping | query_optimizer/views.py:39-51 | `slow`/`fast` give `is_slow` True/False and `analyzed`/`unanalyzed` give `analysis__isnull` False/True; any other value adds no filter |
| Views.OrderingFor | query_optimizer/views.py:78-89 | the ordering is `sort_by` when it is one of the six whitelisted fields, otherwise `-timestamp` |
| Views.DateRangeFilters | query_optimizer/views.py:21-37 | sets the date lookups for the dates given and parsable, keeping every other filter |
| Views.ChoiceFilters | query_optimizer/views.py:39-56 | sets the slowness, analysis-status and view-name lookups as requested, keeping every other filter |
| Views.DurationRangeFilters | query_optimizer/views.py:58-72 | sets the duration lookups for the bounds given and parsable, keeping every other filter |
| Views.GetQueryset | query_optimizer/views.py:15-91 | the query set holds exactly the lookup each parameter calls for and the whitelisted ordering |
| Views.Rows | query_optimizer/views.py:74-76 | a record is listed iff it passes every filter |
| Views.FilterMeanings | query_optimizer/views.py:74-76 | with an `is_slow` or `analysis__isnull` filter, every listed record meets it |
| Views.ListedRecordsMatchRequest | query_optimizer/views.py:39-76 | `slowness=slow` lists only slow records, `fast` only fast ones, `analyzed` only analysed ones, `unanalyzed` only unanalysed ones |
| Views.NoFiltersListsAll | query_optimizer/views.py:75-76 | with no filters every record is listed, in store order |
| Views.AnalysisData | query_optimizer/views.py:229-235 | exactly the five keys; `optimization_suggestions` comes from the stored field, the rest from the analysis with `''` for missing keys |
| Views.AnalysisDetailContext | query_optimizer/views.py:218-240 | the preview is the record's short query (at most 103 characters); slowness, creation time and applied state are the record's and analysis's own; the analysis data is that of the analysis |
| Views.StoredAnalysisShownAsParsed | query_optimizer/views.py:229-235 | a freshly stored analysis shows each key as the parsed map has it, or `''` |
| Views.FallbackShownAsIs | query_optimizer/views.py:229-235 | a stored fallback result is shown exactly as it was produced |

## Findings

| source | as written | input that shows it | evidently intended | confidence | as-written member | corrected member |
|---|---|---|---|---|---|---|
| query_optimizer/services.py:76 | the invalid-provider message is a plain string, so `{self.provider}` is not interpolated | config `provider: "cohere"`: characters 18-24 of the message are `{self.`, not `cohere` | an f-string that names the configured provider | high (not executed) | Services.InvalidProviderMessageAsWritten | Services.InvalidProviderMessage |

`Services.InvalidProviderMessageShowsPlaceholder` proves both halves for that
input. `Services.CheckConfig` raises the message as written, as the code does.
`Services.InvalidProviderMessage` is the corrected message, proved to name the
provider at the place of the placeholder.

Two other oddities are modelled as written, because their intent is unclear:

- Case 2 of `wrapped` (query_optimizer/decorators.py:37-41) repeats the test
  of case 1 and can never run. `Decorators.Target` therefore has only the
  two reachable cases.
- The fence extraction `split('```json')[1].split('```')[0]` stops at the
  next fence, except when a backtick runs into a second json fence
  (`Services.ExtractStraddleAsWritten`).

## Left out

- Django ORM persistence. The store is the in-memory `Store.QueryLedger`.
  `filter(**filters)` is `Views.Rows`. Applying `order_by` to the query set,
  pagination, `select_related` and `count()` are not modelled.
- The provider SDK calls (query_optimizer/services.py:17-55) are foreign
  library calls. `Services.CallOf` builds the request and `transport` is a
  parameter. The three client classes are the variants of `Services.Client`.
- Settings.Value: a list setting is a list of strings (`StrList`). A list
  holding a non-string has no encoding. Such a list passes `check_config`
  (query_optimizer/middleware.py:25-29 test only `isinstance(list)`) and fails
  later, once `any` reaches the non-string. In `excluded_paths` it makes
  `startswith` raise `TypeError` in `should_capture`, before the view runs.
  In `watched_models` it makes `model.lower()` raise `AttributeError` outside
  the `try`, after the view ran and after earlier entries were stored.
  Neither late failure is modelled.
- `json.loads` is the parameter `decode`. It is partial: None stands for
  `JSONDecodeError`. A decoded object's values are flattened to strings, and
  any other decoded value (`Services.Json.Other`) keeps only its truth value.
- `float()`, `datetime.strptime`, Python's `str()` of a float and the
  record-id conversion of `QueryRecord.objects.get` are parameters. A failing
  id conversion is the `Raised` redirect. A converted id that is negative
  finds no record.
- `time.time()`, the request timing summary and all logging text
  (query_optimizer/middleware.py:99-115, query_optimizer/decorators.py:83-91)
  are left out: they are clock and formatting.
- `traceback.format_stack()` is an opaque `stack` string.
- `formatted_duration` (`%.3f` formatting), `__str__`, `get_absolute_url`
  and the model `Meta` indexes are presentation or database concerns.
- `QueryListView.get_context_data` and its statistics counts,
  `AnalysisListView`, `QueryDetailView`, query_optimizer/admin.py and
  query_optimizer/urls.py are page configuration, routing and templates.
- The field defaults `is_slow=False` and `query_params={}`: both creators
  always pass these fields, so the defaults are never used.
- The concurrent check-then-create race on analyses. The model is
  sequential and proves the one-to-one invariant instead.
- Middleware.Init: the middleware and `QueryOptimizerAI` are immutable
  values built by `Init`, not classes, because their fields are only written
  during construction. `Middleware.Init` does not model `get_response`,
  which `Middleware.Call` receives as the handler run.
- Store.QueryLedger.CreateRecord: a failed create is modelled only as a
  column-bound violation, as a strict database backend reports it. Other
  database errors are not modelled.
- Middleware.ShouldCapture: `urlparse` follows Python 3.12. Its validation of
  a bracketed host (`_check_bracketed_netloc`, which needs `ipaddress`) and of
  a non-ASCII network location (`_checknetloc`, which needs Unicode NFKC
  normalisation) is the parameter `netlocOk`. Only a `[` without `]`, or the
  reverse, is modelled in full.
- Middleware.Call: query logging is the parameter `insert`, which gives
  what one `create` adds to `connection.queries`; it is empty when Django
  does not log queries. Django keeps at most 9000 logged queries and drops
  the oldest. The model's log is unbounded, so a handler that overflows it
  is not modelled.
- Decorators.Wrapped: the same unbounded log and `insert` parameter as
  `Middleware.Call`. A decorated view running under the middleware hands
  the decorator's INSERTs to the middleware as part of the handler's queries.
- Middleware.IsWatchedModelQuery: lower-casing (`Text.Lower`) folds ASCII
  letters only. Python's `str.lower` also folds other letters, `É` to `é`
  for instance, so a name or statement with such letters may match
  differently.
- Middleware.AnyModelIn: the same ASCII-only lower-casing as
  `Middleware.IsWatchedModelQuery`.
- Views.Rows: `view_name__icontains` folds ASCII case only, as SQLite's
  `LIKE` does. Backends that fold more letters are not modelled.
- Store.QueryLedger.CreateRecord: ids and timestamps come from counters.
  Wall-clock timestamps are not modelled, so two records never share a
  timestamp.
