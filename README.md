# Food analysis core, in Dafny

This project models the failure-handling and text-shaping core of a food
image analysis server, and proves properties of that model. The server
handles an uploaded photo of a meal in three steps:

1. Gemini lists the items on the plate.
2. SerpAPI is searched for the nutrition facts of each item.
3. Gemini writes the final JSON report from the search context.

If any cloud step raises, a local failsafe runs a GGUF model
(light or heavy tier) through llama_cpp. If the failsafe raises too, the
request ends in HTTP 500.

The model has five modules:

- `Common` (common.dfy): `Option`, `Result`, a JSON value type, and the Python
  string operations the core relies on (`strip`, slicing, `str(int)`).
- `Search` (search.py): the `SerpApiWrapper` class. It keeps the throttle
  timestamp, and an abstract monotonic clock that only sleeps advance. A
  ghost log records its sleeps, each tagged as a throttle or a backoff
  sleep, and a second ghost log records the queries `search_food_info` was
  called with. The predicate `After` states what a sequence of searches
  does to the client: the queries logged, the sleeps and the clock, and
  the throttle stamps. It has the throttled retry loop with multiplicative backoff, the
  shaping of the result dictionary, and a spec function `Retry` that
  describes the whole loop.
- `Intelligence` (intelligence.py): the `GeminiClient` class. It holds the
  configured model list and a ghost log of the `generate_content` requests
  made through it. The ordered fallback chain is a loop over one scripted
  outcome per model, specified by `Fallback`.
- `LocalIntelligence` (local_intelligence.py): the `LocalIntelligenceClient`
  class.
  - Its two model fields hold at most one resident model.
  - The models directory is modelled as the set of file names in it.
  - The missing-file check and download loop, `_load_model`, `analyze_image`.
  - The brace-slice parser of the model's answer.
- `Vision` (vision.py):
  - the item tokenizer, the `fetch_info` context line and `_clean_json_string`;
  - the pipeline method `AnalyzeFoodImageWithSearch`, specified by
    `CloudReport` and `LocalIntelligenceClient.Analysis` through `Handled`
    (and `Response`, by `HandledResponse`). Its effect on the
    two cloud clients is `CloudRan`: the Gemini requests are `CloudRequests`
    and the searches are `CloudQueries`.

Outside calls are parameters of the model:

- The network is a script of replies.
- The Gemini SDK is a script of outcomes.
- `hf_hub_download` is `fetch`.
- `Llama(...)` is `constructs`, and the chat completion is `infer`.
- PIL is `decodes` and `resize`.
- `json.loads` is `loads` and `json.dumps` is `dumps`.
- `str(e)` is `describe`.

## Model

| member | source | states |
|---|---|---|
| Common.Get | app/core/search.py:113-115 | `dict.get` reads a missing key as `None` and a present key as its value |
| Common.StripCuts | app/core/vision.py:33 | `strip` returns a contiguous middle part of the string and removes only whitespace, from the two ends only |
| Common.StripPadded | app/core/vision.py:153 | whitespace around a string is exactly what `strip` removes |
| Common.StripStripped | app/core/vision.py:153 | stripping a string with no whitespace at its ends changes nothing |
| Common.Take | app/core/search.py:48 | `s[:n]` is the prefix of `s` of length `min(n, len(s))` |
| Common.Slice | app/core/local_intelligence.py:169 | `s[a:b]` is the sub-sequence for in-range bounds, and "" when `b <= a` |
| Search.ClampRetries | app/core/search.py:16 | `max(0, n)`: at least 0 and at least `n`, and equal to one of them |
| Search.ClampFactor | app/core/search.py:17 | `max(1.0, f)`: at least 1.0 and at least `f`, and equal to one of them |
| Search.SerpApiWrapper.constructor | app/core/search.py:8-17 | settings stored with both clamps applied; stamp 0.0; no sleep taken and no query sent yet; the class invariant holds |
| Search.SerpApiWrapper.Sleep | app/core/search.py:25 | the clock advances by the duration, or by nothing when the duration is not positive |
| Search.SerpApiWrapper.Throttle | app/core/search.py:19-26 | waits `min_interval - (now - last)`; the new stamp is the clock after the wait, is never earlier than the old one, and is at least `min_interval` later |
| Search.SerpApiWrapper.SleepWithBackoff | app/core/search.py:31-33 | sleeps for `backoff` and returns `backoff * backoff_factor` |
| Search.SerpApiWrapper.RequestWithRetry | app/core/search.py:35-72 | the loop's result and attempt count are those of `Retry`; there is one stamp per attempt, each at least `min_interval` after the one before; the stamp never decreases; the backoff sleeps of the call are exactly the waits of `Retry`, in order, and the clock advances by exactly the sleeps taken |
| Search.SerpApiWrapper.ThrottleStep | app/core/search.py:41 | the throttle that opens an attempt adds one stamp at least `min_interval` after the previous one, and a throttle sleep only when the wait is positive |
| Search.SerpApiWrapper.Retreat | app/core/search.py:55-57 | a retried attempt takes one backoff sleep of `backoff`, advances the clock by it, and continues with `backoff * backoff_factor` |
| Search.SerpApiWrapper.SearchFoodInfo | app/core/search.py:74-131 | every call is logged with its query, with or without a key; a missing key gives `KeyMissing` with no request, no sleep and no clock change; otherwise the dictionary is `Shaped` from the outcome of `Retry`, with one spaced stamp per attempt, the last of them the new `_last_request_ts`, and the backoff sleeps equal to the waits of `Retry`; the clock advances by exactly the sleeps taken |
| Search.SerpApiWrapper.AfterNothing | app/core/vision.py:57 | searching no items changes nothing: no query, no sleep, no stamp |
| Search.SerpApiWrapper.AfterThen | app/core/search.py:19-26 | searches run one after the other compose: the queries, sleeps and stamps of the two add up, and because `_last_request_ts` carries over, the stamps of the second search stay spaced from those of the first |
| Search.SpacedAppend | app/core/search.py:19-26 | stamps spaced from a base, followed by stamps spaced from the last of them, are spaced from the base |
| Search.NapsAppend | app/core/search.py:24-31 | the backoff sleeps and the clock time of two runs of sleeps add up |
| Search.CollectSnippets | app/core/search.py:110-116 | the snippet loop gives the first three results in order, or the fault of the first one that is not a dictionary (`TopSnippets`) |
| Search.DetailOf | app/core/search.py:48 | no detail exactly for an empty body; otherwise the first `min(300, len(text))` characters of the body |
| Search.Ending | app/core/search.py:50-70 | the attempt that ends the loop raises exactly when the GET raised |
| Search.StopFrom | app/core/search.py:41-70 | the loop stops at the first non-retryable reply, or at the last allowed attempt; every reply before it was retryable |
| Search.RetryStep | app/core/search.py:55-57 | unfolding step of `RetryFrom`'s retry branch: a retryable reply before the last attempt sleeps for `backoff` and continues with `backoff * factor` and that reply's status and detail |
| Search.RetryEnd | app/core/search.py:59-70 | unfolding step of `RetryFrom`'s final branch: a reply that is not retried ends the loop with `Ending` after `attempt + 1` GETs |
| Search.RetryFromStops | app/core/search.py:41-72 | from any attempt on, the loop stops at `StopFrom`, returns what that reply settles to, and sleeps a geometric sequence of waits |
| Search.RetryStops | app/core/search.py:37-72 | the whole loop makes `Stop + 1` GETs; every earlier reply was retryable; the last reply settles the result; the waits are `min_interval * factor^i` |
| Search.GeometricAt | app/core/search.py:33 | the i-th backoff is `backoff * factor^i` |
| Search.WaitAt | app/core/search.py:31-33 | the i-th wait of the loop is `min_interval * backoff_factor^i` |
| Search.RetryBounded | app/core/search.py:41 | there are between 1 and `max_retries + 1` attempts, and one wait fewer than attempts, so the last attempt never sleeps |
| Search.AlwaysFailing | app/core/search.py:41-68 | against an upstream that always fails, exactly `max_retries + 1` GETs are made; the result has no data, the last status, and the last body (at most 300 characters) or "invalid json" |
| Search.FirstGoodReplyWins | app/core/search.py:61-70 | the first reply with status below 400 and a parseable body ends the loop at once, with its data, status and detail |
| Search.WaitsNonDecreasing | app/core/search.py:31-33 | with `factor >= 1` and a non-negative start, each wait is the one before times the factor, and the waits never decrease |
| Search.GeometricNonDecreasing | app/core/search.py:33 | a geometric sequence with factor at least 1 and a non-negative start never decreases |
| Search.DetailBounded | app/core/search.py:48 | every error detail the loop reports is at most 300 characters long |
| Search.FirstNonObject | app/core/search.py:111-113 | the index of the first result among the first `n` that is not a dictionary (`.get` fails on it), or `n` |
| Search.SuccessIsBounded | app/core/search.py:105-118 | a success keeps at most three snippets, copied in order from the first organic results; the knowledge graph defaults to `{}` |
| Search.RateLimitedThenFound | tests/test_search.py:69-88 | 429 then a good page: 2 GETs; the knowledge graph and the first result are kept |
| Search.ServerErrorsExhaust | tests/test_search.py:91-103 | two 500s with one retry: gives up with error "SerpAPI request failed after retries", status 500 and detail "still bad" |
| Search.InvalidJsonThenFound | tests/test_search.py:106-116 | a body that does not parse is retried; the next page gives a success with an empty knowledge graph |
| Search.InvalidJsonExhausts | tests/test_search.py:119-129 | with no retries, a body that does not parse gives up with detail "invalid json" after 1 GET |
| Intelligence.Connect | app/core/intelligence.py:7-13 | construction succeeds exactly when the key is non-empty, giving a new client with the configured models and no request yet; otherwise it raises the missing-key error |
| Intelligence.GeminiClient.constructor | app/core/intelligence.py:13 | the client holds the given model list and has made no request |
| Intelligence.Fallback | app/core/intelligence.py:31-60 | the chain either returns text or raises "All models failed" (never the image error); returned text is never empty |
| Intelligence.FirstSuccess | app/core/intelligence.py:33-51 | the index of the first model that answers with non-empty text; every model before it failed |
| Intelligence.LastThrown | app/core/intelligence.py:53-56 | no error is remembered exactly when no model raised |
| Intelligence.LastThrownIsLast | app/core/intelligence.py:53-56 | a remembered error is that of a model that raised, and no later model raised: the last error wins |
| Intelligence.FallbackIsFirstSuccess | app/core/intelligence.py:31-60 | the first successful model's text is returned; with none, the message names the error of the last model that raised |
| Intelligence.AllFailIffNoSuccess | app/core/intelligence.py:58-60 | the chain raises exactly when no model succeeds, and with an empty model list it raises naming `None` |
| Intelligence.EmptyAnswersAreNotErrors | app/core/intelligence.py:49-56 | empty answers do not update the last error: if every model answers "", the message names `None` |
| Intelligence.GeminiClient.GenerateContent | app/core/intelligence.py:15-60 | each call is logged with its image and its outcome script, and nothing else in the client changes; the loop computes `Generate`; an unreadable image raises before any model is tried; the invoked models are a prefix of the list, in list order, up to and including the first success |
| LocalIntelligence.TierSelection | app/core/local_intelligence.py:112-145 | `deep_search` picks the heavy tier with 300 tokens and `n_ctx` 4096; otherwise the light tier with 150 tokens and `n_ctx` 2048 |
| LocalIntelligence.LoadKeepsOneResident | app/core/local_intelligence.py:61-102 | after a load, at most one tier is resident and the other tier is released; the requested tier is resident exactly when it already was, or the lookup and the construction both succeeded |
| LocalIntelligence.LoadBuildsModel | app/core/local_intelligence.py:75-102 | loading light gives `(light, None)` with n_ctx 2048 and verbose off; loading heavy gives `(None, heavy)` with n_ctx 4096 and verbose on |
| LocalIntelligence.LoadIdempotent | app/core/local_intelligence.py:66-86 | loading a tier that is already resident changes nothing, so two loads equal one |
| LocalIntelligence.MissingOf | app/core/local_intelligence.py:24-28 | the missing list holds exactly the required files whose name is not on disk |
| LocalIntelligence.FirstFailure | app/core/local_intelligence.py:37-42 | the position of the first download that fails; every download before it succeeded |
| LocalIntelligence.MissingAreFetched | app/core/local_intelligence.py:24-44 | once every missing file is downloaded, every required file is on disk |
| LocalIntelligence.Find | app/core/local_intelligence.py:166 | `find` gives the first index of the character, or -1 when it does not occur |
| LocalIntelligence.RFind | app/core/local_intelligence.py:167 | `rfind` gives the last index of the character, or -1 when it does not occur |
| LocalIntelligence.ParseSpan | app/core/local_intelligence.py:163-180 | the `end != -1` test always holds; with no `{` the raw report is returned; otherwise `json.loads` gets the text from the first `{` to the last `}` (or "" when no `}` follows), and a failed parse gives the raw report |
| LocalIntelligence.EmptySpanIsRaw | app/core/local_intelligence.py:166-171 | since `json.loads("")` raises, an answer with a `{` but no `}` after its first `{` gives the raw report |
| LocalIntelligence.ClosedBeforeOpenedIsRaw | app/core/local_intelligence.py:166-171 | the answer "} {" gives the raw report |
| LocalIntelligence.TwoObjectsOneSpan | app/core/local_intelligence.py:166-170 | the span is not balanced: two objects are handed to `json.loads` together, with the text between them |
| LocalIntelligence.RawReportBounded | app/core/local_intelligence.py:175-180 | the raw report's description is the first `min(200, len(content))` characters of the answer, followed by "..." |
| LocalIntelligence.LocalIntelligenceClient.constructor | app/core/local_intelligence.py:8-13 | no model is loaded; the settings and the directory contents are stored |
| LocalIntelligence.LocalIntelligenceClient.GetModelPath | app/core/local_intelligence.py:46-59 | a download is logged; it either returns the path in the models directory and adds the file, or raises and leaves the directory as it was |
| LocalIntelligence.LocalIntelligenceClient.FindMissing | app/core/local_intelligence.py:24-28 | the loop computes `MissingOf` of the required list |
| LocalIntelligence.LocalIntelligenceClient.DownloadAll | app/core/local_intelligence.py:37-44 | returns True exactly when every download succeeds; downloads stop at the first failure; the log lists the attempts in order; only the files before the failure are added |
| LocalIntelligence.LocalIntelligenceClient.EnsureModelsAvailable | app/core/local_intelligence.py:17-44 | True iff nothing is missing, or downloading is allowed and every download succeeds; no download is tried when nothing is missing or downloading is not allowed; the log gains one lookup per download tried (`EnsureLog`) and the directory the files fetched before the first failure (`Ensured`); on True both files are on disk |
| LocalIntelligence.LocalIntelligenceClient.EnsureSettles | app/core/local_intelligence.py:17-44 | after a successful check nothing is missing, so a second check downloads nothing, logs nothing and succeeds |
| LocalIntelligence.LocalIntelligenceClient.LoadModel | app/core/local_intelligence.py:61-102 | a resident tier is left alone, with no event and no download; otherwise the other tier is released before the lookup and the construction, which are logged in that order (`LoadLog`); the directory gains the file exactly when the lookup succeeds (`LoadedDisk`); the fields are `LoadedAfter`; a failure of either step escapes |
| LocalIntelligence.LocalIntelligenceClient.AnalyzeImage | app/core/local_intelligence.py:104-161 | the result is `Analysis` of the state before the call; the fields, the directory and the log are `AnalyzedFrom` that state: the check's downloads and lookups, then, when the models are available, the load of the selected tier and its one completion; with unavailable models the fields are unchanged |
| LocalIntelligence.LocalIntelligenceClient.Serve | app/core/local_intelligence.py:121-152 | loads the selected tier and returns `Served`: the tier's report, or the failure of `_load_model`; the fields are `LoadedAfter`, the directory `LoadedDisk`, and the log gains the load's events and then the completion exactly when the tier is resident (`ServeLog`) |
| LocalIntelligence.LocalIntelligenceClient.Complete | app/core/local_intelligence.py:142-161 | one completion on the selected resident model with the tier's `max_tokens` is logged; its answer is parsed, or gives the emergency report |
| LocalIntelligence.LocalIntelligenceClient.AnalysisOutcomes | app/core/local_intelligence.py:104-161 | unavailable models give the fixed "Failsafe unavailable" report; otherwise the result is `Served`; `analyze_image` raises exactly when the models are available and loading the selected tier fails |
| LocalIntelligence.LocalIntelligenceClient.ServedOutcomes | app/core/local_intelligence.py:121-161 | once available, the call raises exactly when the selected tier ends up not resident, never when it was resident before; a failed completion gives the "Unidentified" emergency report |
| Vision.ReplaceAt | app/core/vision.py:32 | `replace('\n', ',')` replaces each line break by a comma and keeps every other character in place |
| Vision.SplitJoin | app/core/vision.py:33 | splitting loses nothing: joining the pieces with the separator gives the string back |
| Vision.TokensStripped | app/core/vision.py:33 | every kept token is non-empty and has no whitespace at either end |
| Vision.TokenizeClean | app/core/vision.py:32-33 | every item is non-empty, stripped, and holds neither a comma nor a line break |
| Vision.TokenizeJoin | app/core/vision.py:32-33 | items joined by ", " or by line breaks are read back exactly, in order, whatever their number |
| Vision.TwoItems | tests/test_core.py:16-17 | "Apple (1 medium), Banana (1 small)" gives the two items `Apple (1 medium)` and `Banana (1 small)` |
| Vision.QueriesAt | app/core/vision.py:40 | each query is exactly the item followed by " calories nutrition facts", in item order |
| Vision.ContextLine | app/core/vision.py:39-54 | the line `fetch_info` returns is never empty |
| Vision.ErrorNote | app/core/vision.py:46-53 | the note after a failed search is never empty |
| Vision.ErrorNotes | app/core/vision.py:46-53 | a missing key is reported as "API Key missing"; a search that gave up reports its detail, or else its error; an exception reports its message, or the fallback note when the message is empty |
| Vision.StatusNotes | app/core/vision.py:49-51 | a non-zero status leads the note as "Status <status>: ", followed by the detail, or else the error |
| Vision.FallbackNoteWhen | app/core/vision.py:53 | the fallback note is used when there is no detail, the error is empty and no status is truthy; a truthy status always leads the note, which then differs from the fallback note; a non-empty error is kept |
| Vision.ContextLines | app/core/vision.py:57 | one line per item |
| Vision.ContextLinesSnoc | app/core/vision.py:57 | one more item adds its own line at the end, so the lines follow the item order |
| Vision.PresentKeepsAll | app/core/vision.py:58 | the `if res` filter drops no line when every line is non-empty |
| Vision.ContextOfItems | app/core/vision.py:57-58 | the context is the lines of all items, in order, joined by line breaks; no failed search drops an item |
| Vision.CleanJson | app/core/vision.py:151-158 | the cleaned answer never has whitespace at either end |
| Vision.Unfence | app/core/vision.py:154-157 | the inside of a fence comes out stripped; text without a fence is left unchanged |
| Vision.CleanFenced | app/core/vision.py:151-158 | a ```` ```json ```` fence with whitespace around it gives the stripped inside |
| Vision.CleanRaw | app/core/vision.py:151-158 | raw JSON text with whitespace around it is only stripped |
| Vision.FinalAnswerClean | tests/test_core.py:18 | the test's final answer passes through cleaning unchanged |
| Vision.Failsafe | app/core/vision.py:126-132 | the failsafe's report is returned when it succeeds; when it raises, the result is HTTP 500 "All AI systems failed." |
| Vision.Response | app/core/vision.py:119-132 | the cloud report wins when there is one; otherwise the failsafe's report; otherwise HTTP 500 |
| Vision.CloudAnswer | app/core/vision.py:119-122 | the cloud report is `json.loads` of the cleaned final answer |
| Vision.FirstAnswerWins | app/core/intelligence.py:49-51 | a single model answering with non-empty text yields that text |
| Vision.TwoItemsIdentified | tests/test_core.py:16-17 | the test's identification answer gives its two items |
| Vision.TwoItemsQueries | app/core/vision.py:40 | the test's two items give their two queries, in item order |
| Vision.TwoItemFlow | tests/test_core.py:5-39 | in the pipeline test, both items are identified; the cloud path makes exactly two `generate_content` requests and searches exactly the two items' queries, in order (the counts the test asserts, through `Cloud`'s contract); the report is the parsed final answer |
| Vision.FetchInfo | app/core/vision.py:39-54 | exactly one search, for the item's query: the search client moves by `After` for that one query; returns the item's `Line` |
| Vision.SearchAll | app/core/vision.py:57 | the lines are `ContextLines` of the items; the search client moves by `After` for `Queries` of the items: each item's query sent once, in item order, with exactly the sleeps and the spaced stamps of their retry loops |
| Vision.Cloud | app/core/vision.py:18-122 | computes `CloudReport`; the Gemini log gains exactly `CloudRequests`: the identification on the resized image, then, only when it succeeded, the final prompt built from the items' context on the same image; the search client moves by `After` for `CloudQueries`: nothing when identification raised, otherwise one query per item, in order (`CloudRan`) |
| Vision.Failover | app/core/vision.py:124-132 | `ensure_models_available(True)`, then `analyze_image` on the original bytes with the caller's `deep_search`; the result is `Failsafe` of `Analysis` of the checked directory; the local client's fields, directory and log are those of the two checks followed by `analyze_image` (`FailedOver`) |
| Vision.Conclude | app/core/vision.py:122-132 | with a cloud report, it is returned and the local client is untouched; without one, the failover runs and its answer and the local client's fields, directory and log are those of the failover (`Handled`) |
| Vision.HandledResponse | app/core/vision.py:122-132 | a handled request's answer is `Response` of the cloud outcome and the failsafe's `Analysis` |
| Vision.AnalyzeFoodImageWithSearch | app/core/vision.py:13-132 | the answer and the local client are `Handled` for the cloud report `CloudReport`: the cloud report when there is one, with the local client untouched, otherwise the failover's answer and state; in both cases the Gemini requests and the searches are those of the cloud path (`CloudRan`) |

## Left out

- Network, SDK, model hub, llama_cpp, PIL, base64 and the `json` module are
  parameters with no behaviour of their own (`replies`, outcome scripts,
  `fetch`, `constructs`, `infer`, `decodes`, `resize`, `loads`, `dumps`).
  `_resize_image` (app/core/vision.py:134-149) is the parameter `resize` and
  is not modelled further.
- `os.path.isfile` and `os.makedirs`: the models directory is the set of file
  names in it. `hf_hub_download` is assumed to put the file in the directory
  when it succeeds.
- Concurrency:
  - The throttle's `asyncio.Lock` is left out, because a single sequential
    caller needs no lock.
  - `asyncio.gather` is modelled as an in-order sequential loop. It keeps
    argument order, which is all the context depends on.
- Time: the clock is an abstract `real` that only sleeps advance. Request
  latency and the 10-second client timeout are not modelled.
- Floating point: backoff, interval and clock values are exact reals.
- The `@alru_cache` on `search_food_info`: the library is not shown. It
  caches every returned dictionary, error dictionaries included. In the
  model every call searches again.
- Logging and the prompt texts: they have no effect on behaviour.
- `str(e)` of an exception from malformed search data is the opaque
  `describe`.
- `json.dumps` output order: dictionaries are maps, so the model does not
  capture key order.
- Settings: config.py defines no `LOCAL_*` settings. The local client takes
  its directory, repositories and file names as constructor parameters. The
  clients built at import time are parameters of the pipeline.
- `fetch_info`'s branch for an empty or `None` search result is not
  modelled. `search_food_info` always returns a non-empty dictionary, so
  that branch cannot be reached.
- Search.SerpApiWrapper.RequestWithRetry: requires a scripted reply for each
  of the `max_retries + 1` possible attempts. The source places no such
  requirement; the replies stand for the network, and unused replies are
  never read.
- Intelligence.GeminiClient.GenerateContent: requires one scripted outcome
  per configured model, for the same reason.
- Vision.Cloud: `_resize_image` is the pure parameter `resize`, so no
  contract counts its calls (tests/test_core.py:30). The method calls it
  once and hands that one result to both requests, and `CloudRequests`
  states that both requests carry the resized bytes.
- One `fetch` answers every `hf_hub_download` call for a repository and
  file. So a file that downloads in the availability check cannot then fail
  in `_load_model` (app/core/local_intelligence.py:59, 76, 95), which in the
  source ends in HTTP 500. That sequence is not expressible in the model.
