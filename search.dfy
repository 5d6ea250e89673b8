/** The SerpAPI search client: a throttle gate over one shared timestamp, a
    bounded retry loop with multiplicative backoff, and the shaping of the
    final result into a small dictionary (source: app/core/search.py).

    The network is replaced by a script of replies: `replies[k]` is what the
    k-th GET of one search yields. Time is an abstract monotonic clock field
    that only sleeps advance. */
module Search {
  import opened Common

  /** Longest response text kept as error detail. */
  const DetailLimit: nat := 300
  /** Number of organic results kept on success. */
  const SnippetLimit: nat := 3

  const KeyMissingError := "API Key missing"
  const ExhaustedError := "SerpAPI request failed after retries"
  const InvalidJsonDetail := "invalid json"

  /** What one outbound GET yields: an HTTP response (status, text and the
      body as `response.json()` decodes it, `None` when that raises
      ValueError), or an `httpx.HTTPError` raised by the client. */
  datatype Reply =
    | Response(status: int, text: string, body: Option<Json>)
    | HttpFailure(message: string, errorStatus: Option<int>, errorText: Option<string>)

  /** A reply after which the loop backs off and tries again, if it may. */
  predicate Retryable(reply: Reply)
  {
    reply.Response? && (reply.status >= 400 || reply.body.None?)
  }

  /** `response.text[:300] if response.text else None` */
  function DetailOf(text: string): (d: Option<string>)
    ensures d.None? <==> text == ""
    ensures d.Some? ==> d.value == text[..Min(DetailLimit, |text|)]
  {
    if text == "" then None else Some(Take(text, DetailLimit))
  }

  /** The value `_request_with_retry` produces: the tuple
      `(data, last_status, last_detail)` (data `None` is `JNull`), or the
      HTTP error it lets escape. */
  datatype Attempt =
    | Done(data: Json, status: Option<int>, detail: Option<string>)
    | Raised(message: string, status: Option<int>, text: Option<string>)

  /** One run of the retry loop: its result, how many GETs it issued, and the
      backoff values it slept for, in order. */
  datatype Run = Run(result: Attempt, attempts: nat, waits: seq<real>)

  function AfterWait(wait: real, run: Run): Run
  {
    Run(run.result, run.attempts, [wait] + run.waits)
  }

  /** The retry loop from attempt `attempt` on, with `backoff` the next
      wait and `lastStatus`/`lastDetail` what the previous attempt left.
      A retryable reply is retried while attempts remain; any other reply,
      or a retryable one on the last attempt, settles the result by
      `Ending`. */
  function RetryFrom(maxRetries: nat, factor: real, replies: seq<Reply>, attempt: nat,
                     backoff: real, lastStatus: Option<int>, lastDetail: Option<string>): Run
    requires maxRetries < |replies| && attempt <= maxRetries + 1
    decreases maxRetries + 1 - attempt
  {
    if attempt == maxRetries + 1 then
      Run(Done(JNull, lastStatus, lastDetail), attempt, [])
    else
      var reply := replies[attempt];
      if attempt < maxRetries && Retryable(reply) then
        AfterWait(backoff, RetryFrom(maxRetries, factor, replies, attempt + 1, Grow(backoff, factor),
                                     Some(reply.status), DetailOf(reply.text)))
      else
        Run(Ending(reply), attempt + 1, [])
  }

  /** The whole retry loop: backoff starts at `minInterval`. */
  function Retry(maxRetries: nat, factor: real, minInterval: real, replies: seq<Reply>): Run
    requires maxRetries < |replies|
  {
    RetryFrom(maxRetries, factor, replies, 0, minInterval, None, None)
  }

  /** The result of an attempt that ends the loop. */
  function Ending(reply: Reply): (a: Attempt)
    ensures reply.HttpFailure? <==> a.Raised?
  {
    match reply
    case HttpFailure(message, status, text) => Raised(message, status, text)
    case Response(status, text, body) =>
      if status >= 400 then Done(JNull, Some(status), DetailOf(text))
      else if body.None? then Done(JNull, Some(status), Some(InvalidJsonDetail))
      else Done(body.value, Some(status), DetailOf(text))
  }

  /** The index of the attempt that ends the loop, given that attempts
      before `from` were all retried: the first reply that is not retryable,
      or the last allowed attempt. An independent statement of where the
      loop stops. */
  function StopFrom(maxRetries: nat, replies: seq<Reply>, from: nat): (k: nat)
    requires maxRetries < |replies| && from <= maxRetries
    ensures from <= k <= maxRetries
    ensures forall j :: from <= j < k ==> Retryable(replies[j])
    ensures k < maxRetries ==> !Retryable(replies[k])
    decreases maxRetries - from
  {
    if from == maxRetries || !Retryable(replies[from]) then from
    else StopFrom(maxRetries, replies, from + 1)
  }

  function Stop(maxRetries: nat, replies: seq<Reply>): nat
    requires maxRetries < |replies|
  {
    StopFrom(maxRetries, replies, 0)
  }

  /** A retryable reply before the last attempt: the loop sleeps for
      `backoff` and goes on with the backoff multiplied by `factor`. */
  lemma RetryStep(maxRetries: nat, factor: real, replies: seq<Reply>, attempt: nat,
                  backoff: real, lastStatus: Option<int>, lastDetail: Option<string>)
    requires maxRetries < |replies| && attempt < maxRetries && Retryable(replies[attempt])
    ensures RetryFrom(maxRetries, factor, replies, attempt, backoff, lastStatus, lastDetail)
         == AfterWait(backoff, RetryFrom(maxRetries, factor, replies, attempt + 1, Grow(backoff, factor),
                                         Some(replies[attempt].status), DetailOf(replies[attempt].text)))
  {
  }

  /** An attempt that does not retry ends the loop with `Ending`. */
  lemma RetryEnd(maxRetries: nat, factor: real, replies: seq<Reply>, attempt: nat,
                 backoff: real, lastStatus: Option<int>, lastDetail: Option<string>)
    requires maxRetries < |replies| && attempt <= maxRetries
    requires attempt == maxRetries || !Retryable(replies[attempt])
    ensures RetryFrom(maxRetries, factor, replies, attempt, backoff, lastStatus, lastDetail)
         == Run(Ending(replies[attempt]), attempt + 1, [])
  {
  }

  /** `n` waits starting at `backoff`, each the one before times `factor`. */
  function Geometric(backoff: real, factor: real, n: nat): (w: seq<real>)
    ensures |w| == n
    decreases n
  {
    if n == 0 then [] else [backoff] + Geometric(Grow(backoff, factor), factor, n - 1)
  }

  /** The next backoff: the current one times the factor. */
  function Grow(backoff: real, factor: real): real
  {
    backoff * factor
  }

  /** The i-th geometric wait is `backoff * factor^i`. */
  lemma {:induction false} GeometricAt(backoff: real, factor: real, n: nat, i: nat)
    requires i < n
    ensures Geometric(backoff, factor, n)[i] == backoff * Pow(factor, i)
    decreases i
  {
    if i > 0 {
      GeometricAt(Grow(backoff, factor), factor, n - 1, i - 1);
      calc {
        Geometric(backoff, factor, n)[i];
        Geometric(Grow(backoff, factor), factor, n - 1)[i - 1];
        (backoff * factor) * Pow(factor, i - 1);
        { MultiplyAssociates(backoff, factor, Pow(factor, i - 1)); }
        backoff * (factor * Pow(factor, i - 1));
        backoff * Pow(factor, i);
      }
    }
  }

  lemma MultiplyAssociates(a: real, b: real, c: real)
    ensures (a * b) * c == a * (b * c)
  {
  }

  /** The retry loop from `attempt` on stops at `StopFrom`, returns what that
      reply settles to, and sleeps once per retried attempt with the backoff
      growing by `factor` each time. */
  lemma {:induction false} RetryFromStops(maxRetries: nat, factor: real, replies: seq<Reply>, attempt: nat,
                                          backoff: real, lastStatus: Option<int>, lastDetail: Option<string>)
    requires maxRetries < |replies| && attempt <= maxRetries
    ensures var run := RetryFrom(maxRetries, factor, replies, attempt, backoff, lastStatus, lastDetail);
            var k := StopFrom(maxRetries, replies, attempt);
            && run.attempts == k + 1
            && run.result == Ending(replies[k])
            && run.waits == Geometric(backoff, factor, k - attempt)
    decreases maxRetries - attempt
  {
    if attempt < maxRetries && Retryable(replies[attempt]) {
      var reply := replies[attempt];
      RetryFromStops(maxRetries, factor, replies, attempt + 1, Grow(backoff, factor), Some(reply.status), DetailOf(reply.text));
    }
  }

  /** The whole retry loop, characterised: it issues `Stop + 1` GETs, every
      one before the last was retryable, the result is settled by the last
      reply, and the waits are `minInterval * factor^i`, one per retry. */
  lemma RetryStops(maxRetries: nat, factor: real, minInterval: real, replies: seq<Reply>)
    requires maxRetries < |replies|
    ensures var run := Retry(maxRetries, factor, minInterval, replies);
            var k := Stop(maxRetries, replies);
            && run.attempts == k + 1
            && (forall j :: 0 <= j < k ==> Retryable(replies[j]))
            && (k < maxRetries ==> !Retryable(replies[k]))
            && run.result == Ending(replies[k])
            && run.waits == Geometric(minInterval, factor, k)
  {
    RetryFromStops(maxRetries, factor, replies, 0, minInterval, None, None);
  }

  /** The i-th wait of the loop is `minInterval * factor^i`. */
  lemma WaitAt(maxRetries: nat, factor: real, minInterval: real, replies: seq<Reply>, i: nat)
    requires maxRetries < |replies|
    requires i < |Retry(maxRetries, factor, minInterval, replies).waits|
    ensures Retry(maxRetries, factor, minInterval, replies).waits[i] == minInterval * Pow(factor, i)
  {
    RetryStops(maxRetries, factor, minInterval, replies);
    GeometricAt(minInterval, factor, Stop(maxRetries, replies), i);
  }

  /** The loop runs at least once and at most `maxRetries + 1` times, and
      the last attempt never sleeps. */
  lemma RetryBounded(maxRetries: nat, factor: real, minInterval: real, replies: seq<Reply>)
    requires maxRetries < |replies|
    ensures var run := Retry(maxRetries, factor, minInterval, replies);
            1 <= run.attempts <= maxRetries + 1 && |run.waits| == run.attempts - 1
  {
    RetryStops(maxRetries, factor, minInterval, replies);
  }

  /** Against an upstream that always fails, exactly `maxRetries + 1` GETs
      are made and the error carries the last status, with the last body
      (at most 300 characters) or "invalid json" as detail. */
  lemma AlwaysFailing(maxRetries: nat, factor: real, minInterval: real, replies: seq<Reply>)
    requires maxRetries < |replies|
    requires forall j :: 0 <= j <= maxRetries ==> Retryable(replies[j])
    ensures var run := Retry(maxRetries, factor, minInterval, replies);
            var last := replies[maxRetries];
            && last.Response?
            && run.attempts == maxRetries + 1
            && run.result.Done? && run.result.data == JNull
            && run.result.status == Some(last.status)
            && run.result.detail == (if last.status >= 400 then DetailOf(last.text) else Some(InvalidJsonDetail))
  {
    assert Retryable(replies[maxRetries]);
    RetryStops(maxRetries, factor, minInterval, replies);
  }

  /** The first good reply (status below 400, parseable body) ends the loop
      at once: attempts before it only retried. */
  lemma FirstGoodReplyWins(maxRetries: nat, factor: real, minInterval: real, replies: seq<Reply>, k: nat)
    requires maxRetries < |replies| && k <= maxRetries
    requires forall j :: 0 <= j < k ==> Retryable(replies[j])
    requires replies[k].Response? && replies[k].status < 400 && replies[k].body.Some?
    ensures var run := Retry(maxRetries, factor, minInterval, replies);
            && run.attempts == k + 1
            && run.result == Done(replies[k].body.value, Some(replies[k].status), DetailOf(replies[k].text))
  {
    RetryStops(maxRetries, factor, minInterval, replies);
  }

  /** With a non-negative start and a factor of at least one (which the
      constructor guarantees), the waits never decrease, each being the one
      before multiplied by the factor. */
  lemma WaitsNonDecreasing(maxRetries: nat, factor: real, minInterval: real, replies: seq<Reply>)
    requires maxRetries < |replies|
    requires factor >= 1.0 && minInterval >= 0.0
    ensures var w := Retry(maxRetries, factor, minInterval, replies).waits;
            && (forall i :: 0 < i < |w| ==> w[i] == w[i - 1] * factor)
            && (forall i :: 0 < i < |w| ==> w[i - 1] <= w[i])
  {
    RetryStops(maxRetries, factor, minInterval, replies);
    GeometricNonDecreasing(minInterval, factor, Stop(maxRetries, replies));
  }

  lemma GeometricNonDecreasing(backoff: real, factor: real, n: nat)
    requires factor >= 1.0 && backoff >= 0.0
    ensures var w := Geometric(backoff, factor, n);
            && (forall i :: 0 < i < n ==> w[i] == w[i - 1] * factor)
            && (forall i :: 0 < i < n ==> w[i - 1] <= w[i])
  {
    var w := Geometric(backoff, factor, n);
    forall i | 0 < i < n
      ensures w[i] == w[i - 1] * factor && w[i - 1] <= w[i]
    {
      GeometricPair(backoff, factor, n, i);
    }
  }

  lemma GeometricPair(backoff: real, factor: real, n: nat, i: nat)
    requires factor >= 1.0 && backoff >= 0.0 && 0 < i < n
    ensures var w := Geometric(backoff, factor, n);
            w[i] == w[i - 1] * factor && w[i - 1] <= w[i]
  {
    var w := Geometric(backoff, factor, n);
    GeometricStep(backoff, factor, n, i);
    GeometricNonNegative(backoff, factor, n, i - 1);
    var x := w[i - 1];
    assert w[i] == x * factor;
    assert x <= x * factor by {
      MultiplyMonotone(x, 1.0, factor);
      assert x * 1.0 == x;
    }
  }

  /** Each geometric wait is the one before times `factor`. */
  lemma {:induction false} GeometricStep(backoff: real, factor: real, n: nat, i: nat)
    requires 0 < i < n
    ensures Geometric(backoff, factor, n)[i] == Geometric(backoff, factor, n)[i - 1] * factor
    decreases i
  {
    if i > 1 {
      GeometricStep(Grow(backoff, factor), factor, n - 1, i - 1);
    }
  }

  lemma {:induction false} GeometricNonNegative(backoff: real, factor: real, n: nat, i: nat)
    requires 0.0 <= backoff && 0.0 <= factor && i < n
    ensures 0.0 <= Geometric(backoff, factor, n)[i]
    decreases i
  {
    if i > 0 {
      MultiplyMonotone(backoff, 0.0, factor);
      GeometricNonNegative(Grow(backoff, factor), factor, n - 1, i - 1);
    }
  }

  lemma MultiplyMonotone(c: real, x: real, y: real)
    requires c >= 0.0 && x <= y
    ensures c * x <= c * y
  {
    assert c * y - c * x == c * (y - x);
  }

  /** Every error detail the loop reports fits in 300 characters. */
  lemma DetailBounded(maxRetries: nat, factor: real, minInterval: real, replies: seq<Reply>)
    requires maxRetries < |replies|
    ensures var a := Retry(maxRetries, factor, minInterval, replies).result;
            a.Done? && a.detail.Some? ==> |a.detail.value| <= DetailLimit
  {
    RetryStops(maxRetries, factor, minInterval, replies);
  }

  /** One organic result, projected: `res.get(...)` of three keys. */
  datatype Snippet = Snippet(title: Json, snippet: Json, link: Json)

  function SnippetOf(res: map<string, Json>): Snippet
  {
    Snippet(Get(res, "title"), Get(res, "snippet"), Get(res, "link"))
  }

  /** The Python exceptions malformed data raises while being projected:
      `.get` on a value that is not a dictionary, or `[:3]` on a value that
      cannot be sliced. Their `str` is opaque to the model. */
  datatype Fault = NoGet(receiver: Json) | NoSlice(receiver: Json)

  /** The dictionary `search_food_info` returns. */
  datatype SearchInfo =
    | Found(snippets: seq<Snippet>, knowledgeGraph: Json)
    | KeyMissing
    | Exhausted(status: Option<int>, detail: Option<string>)
    | HttpError(message: string, status: Option<int>, detail: Option<string>)
    | Unexpected(message: string)
  {
    /** The dictionary's "error" entry (absent only on success). */
    function Error(): Option<string>
    {
      match this
      case Found(_, _) => None
      case KeyMissing => Some(KeyMissingError)
      case Exhausted(_, _) => Some(ExhaustedError)
      case HttpError(message, _, _) => Some(message)
      case Unexpected(message) => Some(message)
    }

    /** `info.get("status")` */
    function Status(): Option<int>
    {
      match this
      case Exhausted(status, _) => status
      case HttpError(_, status, _) => status
      case _ => None
    }

    /** `info.get("detail")` */
    function Detail(): Option<string>
    {
      match this
      case Exhausted(_, detail) => detail
      case HttpError(_, _, detail) => detail
      case _ => None
    }
  }

  /** The index of the first result (among the first `n`) that is not a
      dictionary, or `n`. */
  function FirstNonObject(rs: seq<Json>, n: nat): (k: nat)
    requires n <= |rs|
    ensures k <= n
    ensures forall i :: 0 <= i < k ==> rs[i].JObj?
    ensures k < n ==> !rs[k].JObj?
  {
    if n == 0 then 0
    else
      var k := FirstNonObject(rs, n - 1);
      if k < n - 1 then k else if rs[n - 1].JObj? then n else n - 1
  }

  /** The snippets kept from a list of organic results: the first three,
      in order, unless one of them is not a dictionary. */
  function TopSnippets(rs: seq<Json>): (r: Result<seq<Snippet>, Fault>)
  {
    var n := Min(SnippetLimit, |rs|);
    var k := FirstNonObject(rs, n);
    if k < n then Err(NoGet(rs[k]))
    else Ok(seq(n, i requires 0 <= i < n => SnippetOf(rs[i].fields)))
  }

  /** The snippets kept from whatever `organic_results` holds: slicing a
      list keeps its first three; slicing a string gives characters, on
      which `.get` fails; anything else cannot be sliced. */
  function OrganicSnippets(organic: Json): Result<seq<Snippet>, Fault>
  {
    match organic
    case JArr(rs) => TopSnippets(rs)
    case JStr(s) => if s == [] then Ok([]) else Err(NoGet(JStr([s[0]])))
    case _ => Err(NoSlice(organic))
  }

  /** The dictionary `search_food_info` builds from what the retry loop
      produced; `describe` is Python's `str` of an exception. */
  function Shaped(a: Attempt, describe: Fault -> string): SearchInfo
  {
    match a
    case Raised(message, status, text) =>
      HttpError(message, status, if Truthy(text) then Some(Take(text.value, DetailLimit)) else None)
    case Done(data, status, detail) =>
      if data == JNull then Exhausted(status, detail)
      else if !data.JObj? then Unexpected(describe(NoGet(data)))
      else
        var m := data.fields;
        var kg := if "knowledge_graph" in m then m["knowledge_graph"] else JObj(map[]);
        if "organic_results" !in m then Found([], kg)
        else match OrganicSnippets(m["organic_results"])
          case Ok(snippets) => Found(snippets, kg)
          case Err(fault) => Unexpected(describe(fault))
  }

  /** A successful search keeps at most three snippets, copied in order from
      the first organic results; the knowledge graph defaults to `{}`. */
  lemma SuccessIsBounded(a: Attempt, describe: Fault -> string)
    requires a.Done? && a.data.JObj?
    requires Shaped(a, describe).Found?
    ensures var info := Shaped(a, describe);
            var m := a.data.fields;
            && |info.snippets| <= SnippetLimit
            && ("knowledge_graph" !in m ==> info.knowledgeGraph == JObj(map[]))
            && ("knowledge_graph" in m ==> info.knowledgeGraph == m["knowledge_graph"])
            && ("organic_results" in m && m["organic_results"].JArr? ==>
                  var rs := m["organic_results"].elems;
                  && |info.snippets| == Min(SnippetLimit, |rs|)
                  && forall i :: 0 <= i < |info.snippets| ==> rs[i].JObj? && info.snippets[i] == SnippetOf(rs[i].fields))
  {
    var m := a.data.fields;
    if "organic_results" in m {
      var organic := m["organic_results"];
      if organic.JArr? {
        var rs := organic.elems;
        var n := Min(SnippetLimit, |rs|);
        var k := FirstNonObject(rs, n);
        assert k == n;
      }
    }
  }

  /** `max(0, SERPAPI_MAX_RETRIES)` */
  function ClampRetries(n: int): (r: nat)
    ensures n <= r && (r == 0 || r == n)
  {
    if n < 0 then 0 else n
  }

  /** `max(1.0, SERPAPI_BACKOFF_FACTOR)` */
  function ClampFactor(f: real): (r: real)
    ensures 1.0 <= r && f <= r && (r == 1.0 || r == f)
  {
    if f < 1.0 then 1.0 else f
  }

  function Positive(x: real): real
  {
    if x > 0.0 then x else 0.0
  }

  /** `run` with the waits `ws` slept before it. */
  function Prefix(ws: seq<real>, run: Run): Run
  {
    Run(run.result, run.attempts, ws + run.waits)
  }

  /** A retried attempt moves one wait from the rest of the loop into the
      waits already slept. */
  lemma PrefixStep(run: Run, waits: seq<real>, maxRetries: nat, factor: real, replies: seq<Reply>, attempt: nat,
                   backoff: real, lastStatus: Option<int>, lastDetail: Option<string>)
    requires maxRetries < |replies| && attempt < maxRetries && Retryable(replies[attempt])
    requires run == Prefix(waits, RetryFrom(maxRetries, factor, replies, attempt, backoff, lastStatus, lastDetail))
    ensures run == Prefix(waits + [backoff],
                          RetryFrom(maxRetries, factor, replies, attempt + 1, Grow(backoff, factor),
                                    Some(replies[attempt].status), DetailOf(replies[attempt].text)))
  {
    var next := RetryFrom(maxRetries, factor, replies, attempt + 1, Grow(backoff, factor),
                          Some(replies[attempt].status), DetailOf(replies[attempt].text));
    RetryStep(maxRetries, factor, replies, attempt, backoff, lastStatus, lastDetail);
    assert waits + ([backoff] + next.waits) == (waits + [backoff]) + next.waits;
  }

  /** One sleep of the search client: the throttle's wait before a GET, or
      the backoff after a retried attempt. */
  datatype Nap = ThrottleNap(d: real) | BackoffNap(d: real)

  /** The backoff sleeps among `naps`, in order. */
  function Backoffs(naps: seq<Nap>): seq<real>
  {
    if naps == [] then []
    else Backoffs(naps[..|naps| - 1]) + (if naps[|naps| - 1].BackoffNap? then [naps[|naps| - 1].d] else [])
  }

  /** The time `naps` take on the clock. */
  function Slept(naps: seq<Nap>): real
  {
    if naps == [] then 0.0 else Slept(naps[..|naps| - 1]) + Positive(naps[|naps| - 1].d)
  }

  lemma NapsSnoc(before: seq<Nap>, naps: seq<Nap>, n: Nap)
    ensures before + naps + [n] == before + (naps + [n])
    ensures Backoffs(naps + [n]) == Backoffs(naps) + (if n.BackoffNap? then [n.d] else [])
    ensures Slept(naps + [n]) == Slept(naps) + Positive(n.d)
  {
    assert (naps + [n])[..|naps|] == naps;
  }

  /** The sleep `_throttle` takes for a computed `wait`: none unless positive. */
  function ThrottleNaps(wait: real): (t: seq<Nap>)
    ensures Backoffs(t) == [] && Slept(t) == Positive(wait)
  {
    if wait > 0.0 then [ThrottleNap(wait)] else []
  }

  lemma ThrottleSnoc(before: seq<Nap>, naps: seq<Nap>, wait: real)
    ensures before + naps + ThrottleNaps(wait) == before + (naps + ThrottleNaps(wait))
    ensures Backoffs(naps + ThrottleNaps(wait)) == Backoffs(naps)
    ensures Slept(naps + ThrottleNaps(wait)) == Slept(naps) + Positive(wait)
  {
    if wait > 0.0 {
      NapsSnoc(before, naps, ThrottleNap(wait));
    } else {
      assert naps + ThrottleNaps(wait) == naps;
    }
  }

  /** Throttle stamps: the first at least `gap` after `base`, each next one
      at least `gap` after the one before. */
  ghost predicate Spaced(ts: seq<real>, base: real, gap: real)
  {
    (|ts| > 0 ==> base + gap <= ts[0])
    && forall i :: 0 < i < |ts| ==> ts[i - 1] + gap <= ts[i]
  }

  lemma SpacedExtend(ts: seq<real>, base: real, gap: real, t: real)
    requires Spaced(ts, base, gap)
    requires |ts| == 0 ==> base + gap <= t
    requires |ts| > 0 ==> ts[|ts| - 1] + gap <= t
    ensures Spaced(ts + [t], base, gap)
  {
  }

  /** Stamps spaced from `base`, followed by stamps spaced from the last of
      them, are spaced from `base`. */
  lemma SpacedAppend(a: seq<real>, b: seq<real>, base: real, gap: real)
    requires Spaced(a, base, gap)
    requires Spaced(b, if a == [] then base else a[|a| - 1], gap)
    ensures Spaced(a + b, base, gap)
  {
    forall i | 0 < i < |a + b|
      ensures (a + b)[i - 1] + gap <= (a + b)[i]
    {
      if i == |a| {
        assert (a + b)[i - 1] == a[|a| - 1] && (a + b)[i] == b[0];
      }
    }
  }

  /** The backoff sleeps and the clock time of two runs of sleeps, one
      after the other. */
  lemma {:induction false} NapsAppend(a: seq<Nap>, b: seq<Nap>)
    ensures Backoffs(a + b) == Backoffs(a) + Backoffs(b)
    ensures Slept(a + b) == Slept(a) + Slept(b)
    decreases |b|
  {
    if b == [] {
      assert a + b == a;
    } else {
      var c, n := b[..|b| - 1], b[|b| - 1];
      assert b == c + [n];
      assert a + b == (a + c) + [n];
      NapsAppend(a, c);
      NapsSnoc([], a + c, n);
      NapsSnoc([], c, n);
    }
  }

  /** What the search client's calls change: its last stamp, its clock, the
      sleeps taken and the queries sent. */
  datatype Snapshot = Snapshot(ts: real, clock: real, naps: seq<Nap>, sent: seq<string>)

  /** The search client. The throttle lock is left out: the model is one
      sequential caller, so the gate decision is already serialised. */
  class SerpApiWrapper {
    const apiKey: string
    const minInterval: real
    const maxRetries: nat
    const backoffFactor: real
    /** `_last_request_ts` */
    var lastRequestTs: real
    /** The abstract `time.monotonic()`. */
    var clock: real
    /** The sleeps taken so far, in order. */
    ghost var naps: seq<Nap>
    /** The queries `search_food_info` was called with so far, in order. */
    ghost var sent: seq<string>

    ghost predicate Valid()
      reads this
    {
      lastRequestTs <= clock && 1.0 <= backoffFactor
    }

    /** `SerpAPIWrapper.__init__`, with the settings passed in and `now`
        the clock's reading at construction. */
    constructor (apiKey: string, minInterval: real, maxRetries: int, backoffFactor: real, now: real)
      requires 0.0 <= now
      ensures Valid()
      ensures this.apiKey == apiKey && this.minInterval == minInterval
      ensures this.maxRetries == ClampRetries(maxRetries)
      ensures this.backoffFactor == ClampFactor(backoffFactor)
      ensures lastRequestTs == 0.0 && clock == now && naps == [] && sent == []
    {
      this.apiKey := apiKey;
      this.minInterval := minInterval;
      this.maxRetries := ClampRetries(maxRetries);
      this.backoffFactor := ClampFactor(backoffFactor);
      lastRequestTs := 0.0;
      clock := now;
      naps := [];
      sent := [];
    }

    ghost function Now(): Snapshot
      reads this
    {
      Snapshot(lastRequestTs, clock, naps, sent)
    }

    /** The backoff waits of searching `queries` one after the other, with
        `replies(q)` the replies the service gives for query `q`: none
        without a key. */
    function Waits(queries: seq<string>, replies: string -> seq<Reply>): seq<real>
      requires forall q :: maxRetries < |replies(q)|
    {
      if apiKey == "" || queries == [] then []
      else Waits(queries[..|queries| - 1], replies)
           + Retry(maxRetries, backoffFactor, minInterval, replies(queries[|queries| - 1])).waits
    }

    /** The number of GETs of searching `queries` one after the other. */
    function Attempts(queries: seq<string>, replies: string -> seq<Reply>): nat
      requires forall q :: maxRetries < |replies(q)|
    {
      if apiKey == "" || queries == [] then 0
      else Attempts(queries[..|queries| - 1], replies)
           + Retry(maxRetries, backoffFactor, minInterval, replies(queries[|queries| - 1])).attempts
    }

    /** State `s` follows state `s0` by searching `queries` in order, with
        `stamps` the throttle stamps of the GETs issued and `taken` the
        sleeps: every query is logged, the clock moves by the sleeps, whose
        backoff part is the retry loops' waits, there is one spaced stamp
        per GET and the last one is the new `_last_request_ts`. */
    ghost predicate After(s0: Snapshot, s: Snapshot, queries: seq<string>, replies: string -> seq<Reply>,
                          stamps: seq<real>, taken: seq<Nap>)
      requires forall q :: maxRetries < |replies(q)|
    {
      && s.sent == s0.sent + queries
      && s.naps == s0.naps + taken && s.clock == s0.clock + Slept(taken)
      && Backoffs(taken) == Waits(queries, replies)
      && |stamps| == Attempts(queries, replies)
      && Spaced(stamps, s0.ts, minInterval)
      && s.ts == (if stamps == [] then s0.ts else stamps[|stamps| - 1])
    }

    /** Searching nothing changes nothing. */
    lemma AfterNothing(s: Snapshot, replies: string -> seq<Reply>)
      requires forall q :: maxRetries < |replies(q)|
      ensures After(s, s, [], replies, [], [])
    {
      assert s.sent + [] == s.sent && s.naps + [] == s.naps;
    }

    /** Searching `queries` and then `q` is searching `queries + [q]`. */
    lemma AfterThen(s0: Snapshot, s1: Snapshot, s2: Snapshot, queries: seq<string>, q: string,
                    replies: string -> seq<Reply>,
                    stamps1: seq<real>, taken1: seq<Nap>, stamps2: seq<real>, taken2: seq<Nap>)
      requires forall q :: maxRetries < |replies(q)|
      requires After(s0, s1, queries, replies, stamps1, taken1)
      requires After(s1, s2, [q], replies, stamps2, taken2)
      ensures After(s0, s2, queries + [q], replies, stamps1 + stamps2, taken1 + taken2)
    {
      assert (queries + [q])[..|queries|] == queries && [q][..0] == [];
      if apiKey != "" {
        var run := Retry(maxRetries, backoffFactor, minInterval, replies(q));
        assert Waits([q], replies) == [] + run.waits == run.waits;
        assert Attempts([q], replies) == run.attempts;
        assert Waits(queries + [q], replies) == Waits(queries, replies) + run.waits;
        assert Attempts(queries + [q], replies) == Attempts(queries, replies) + run.attempts;
      }
      NapsAppend(taken1, taken2);
      SpacedAppend(stamps1, stamps2, s0.ts, minInterval);
      assert s2.sent == s0.sent + (queries + [q]);
      assert s2.naps == s0.naps + (taken1 + taken2);
      if stamps2 != [] {
        assert (stamps1 + stamps2)[|stamps1 + stamps2| - 1] == stamps2[|stamps2| - 1];
      } else {
        assert stamps1 + stamps2 == stamps1;
      }
    }

    /** `asyncio.sleep(d)`: a non-positive duration returns at once. */
    method Sleep(d: real)
      modifies this`clock
      ensures clock == old(clock) + Positive(d)
    {
      clock := clock + Positive(d);
    }

    /** `_throttle`: wait until `minInterval` has passed since the last
        stamp, then stamp the current time. */
    method Throttle() returns (wait: real)
      requires Valid()
      modifies this`lastRequestTs, this`clock, this`naps
      ensures Valid()
      ensures wait == minInterval - (old(clock) - old(lastRequestTs))
      ensures clock == old(clock) + Positive(wait) && lastRequestTs == clock
      ensures old(lastRequestTs) <= lastRequestTs
      ensures old(lastRequestTs) + minInterval <= lastRequestTs
      ensures naps == old(naps) + ThrottleNaps(wait)
    {
      var now := clock;
      wait := minInterval - (now - lastRequestTs);
      if wait > 0.0 {
        Sleep(wait);
      }
      naps := naps + ThrottleNaps(wait);
      lastRequestTs := clock;
    }

    /** `_should_retry` */
    predicate ShouldRetry(attempt: int)
    {
      attempt < maxRetries
    }

    /** `_sleep_with_backoff` */
    method SleepWithBackoff(backoff: real) returns (next: real)
      modifies this`clock, this`naps
      ensures clock == old(clock) + Positive(backoff)
      ensures naps == old(naps) + [BackoffNap(backoff)]
      ensures next == Grow(backoff, backoffFactor)
    {
      Sleep(backoff);
      naps := naps + [BackoffNap(backoff)];
      next := Grow(backoff, backoffFactor);
    }

    /** The bookkeeping of `_request_with_retry` so far, for a call that
        began with stamp `base`, sleeps `naps0` and clock `clock0`: the
        stamps of the attempts made, each spaced from the one before, and
        the sleeps `taken` since, whose backoff sleeps are `waits`. */
    ghost predicate Tracked(base: real, naps0: seq<Nap>, clock0: real,
                            stamps: seq<real>, taken: seq<Nap>, waits: seq<real>)
      reads this
    {
      && Valid()
      && Spaced(stamps, base, minInterval) && base <= lastRequestTs
      && lastRequestTs == (if stamps == [] then base else stamps[|stamps| - 1])
      && naps == naps0 + taken && Backoffs(taken) == waits
      && clock == clock0 + Slept(taken)
    }

    /** The `_throttle` that opens an attempt, with its stamp and its sleep
        recorded. */
    method ThrottleStep(ghost base: real, ghost naps0: seq<Nap>, ghost clock0: real,
                        ghost stamps: seq<real>, ghost taken: seq<Nap>, ghost waits: seq<real>)
      returns (ghost stamps': seq<real>, ghost taken': seq<Nap>)
      requires Tracked(base, naps0, clock0, stamps, taken, waits)
      modifies this`lastRequestTs, this`clock, this`naps
      ensures Tracked(base, naps0, clock0, stamps', taken', waits)
      ensures stamps' == stamps + [lastRequestTs]
    {
      var wait := Throttle();
      ThrottleSnoc(naps0, taken, wait);
      taken' := taken + ThrottleNaps(wait);
      SpacedExtend(stamps, base, minInterval, lastRequestTs);
      stamps' := stamps + [lastRequestTs];
    }

    /** The retry branch of `_request_with_retry`: one backoff sleep,
        recorded among the sleeps and the waits of the loop. */
    method Retreat(backoff: real, ghost base: real, ghost naps0: seq<Nap>, ghost clock0: real,
                   ghost stamps: seq<real>, ghost taken: seq<Nap>, ghost waits: seq<real>)
      returns (next: real, ghost taken': seq<Nap>, ghost waits': seq<real>)
      requires Tracked(base, naps0, clock0, stamps, taken, waits)
      modifies this`clock, this`naps
      ensures Tracked(base, naps0, clock0, stamps, taken', waits')
      ensures next == Grow(backoff, backoffFactor) && waits' == waits + [backoff]
    {
      NapsSnoc(naps0, taken, BackoffNap(backoff));
      taken', waits' := taken + [BackoffNap(backoff)], waits + [backoff];
      next := SleepWithBackoff(backoff);
    }

    /** `_request_with_retry`: one throttled GET per attempt, consuming
        `replies` in order. `run` reports the loop as a whole, `stamps` the
        throttle stamp of each attempt and `taken` the sleeps of this call:
        its backoff sleeps are exactly the waits of `run`. */
    method RequestWithRetry(replies: seq<Reply>)
      returns (result: Attempt, ghost run: Run, ghost stamps: seq<real>, ghost taken: seq<Nap>)
      requires Valid() && maxRetries < |replies|
      modifies this`lastRequestTs, this`clock, this`naps
      ensures Valid()
      ensures run == Retry(maxRetries, backoffFactor, minInterval, replies) && result == run.result
      ensures |stamps| >= 1 && |stamps| == run.attempts && lastRequestTs == stamps[|stamps| - 1]
      ensures Spaced(stamps, old(lastRequestTs), minInterval)
      ensures old(lastRequestTs) <= lastRequestTs
      ensures naps == old(naps) + taken && Backoffs(taken) == run.waits
      ensures clock == old(clock) + Slept(taken)
    {
      run := Retry(maxRetries, backoffFactor, minInterval, replies);
      RetryBounded(maxRetries, backoffFactor, minInterval, replies);
      var backoff := minInterval;
      var lastStatus: Option<int> := None;
      var lastDetail: Option<string> := None;
      ghost var waits: seq<real> := [];
      stamps := [];
      taken := [];
      var attempt := 0;
      while attempt < maxRetries + 1
        invariant attempt <= maxRetries + 1 && |stamps| == attempt
        invariant Tracked(old(lastRequestTs), old(naps), old(clock), stamps, taken, waits)
        invariant run == Prefix(waits, RetryFrom(maxRetries, backoffFactor, replies, attempt, backoff, lastStatus, lastDetail))
      {
        stamps, taken := ThrottleStep(old(lastRequestTs), old(naps), old(clock), stamps, taken, waits);
        var reply := replies[attempt];
        ghost var prevStatus, prevDetail := lastStatus, lastDetail;
        if reply.HttpFailure? {
          RetryEnd(maxRetries, backoffFactor, replies, attempt, backoff, lastStatus, lastDetail);
          result := Raised(reply.message, reply.errorStatus, reply.errorText);
          return;
        }
        lastStatus := Some(reply.status);
        lastDetail := DetailOf(reply.text);
        if reply.status >= 400 {
          if ShouldRetry(attempt) {
            PrefixStep(run, waits, maxRetries, backoffFactor, replies, attempt, backoff, prevStatus, prevDetail);
            backoff, taken, waits := Retreat(backoff, old(lastRequestTs), old(naps), old(clock), stamps, taken, waits);
            attempt := attempt + 1;
            continue;
          }
          RetryEnd(maxRetries, backoffFactor, replies, attempt, backoff, prevStatus, prevDetail);
          result := Done(JNull, lastStatus, lastDetail);
          return;
        }
        if reply.body.None? {
          if ShouldRetry(attempt) {
            PrefixStep(run, waits, maxRetries, backoffFactor, replies, attempt, backoff, prevStatus, prevDetail);
            backoff, taken, waits := Retreat(backoff, old(lastRequestTs), old(naps), old(clock), stamps, taken, waits);
            attempt := attempt + 1;
            continue;
          }
          RetryEnd(maxRetries, backoffFactor, replies, attempt, backoff, prevStatus, prevDetail);
          result := Done(JNull, lastStatus, Some(InvalidJsonDetail));
          return;
        }
        RetryEnd(maxRetries, backoffFactor, replies, attempt, backoff, prevStatus, prevDetail);
        result := Done(reply.body.value, lastStatus, lastDetail);
        return;
      }
      result := Done(JNull, lastStatus, lastDetail);
    }

    /** `search_food_info` for one query (the alru cache in front of it is
        left out): fails fast without a key, otherwise runs the retry loop
        and shapes its outcome. */
    method SearchFoodInfo(query: string, replies: seq<Reply>, describe: Fault -> string)
      returns (info: SearchInfo, ghost stamps: seq<real>, ghost taken: seq<Nap>)
      requires Valid() && maxRetries < |replies|
      modifies this`lastRequestTs, this`clock, this`naps, this`sent
      ensures Valid()
      ensures sent == old(sent) + [query]
      ensures apiKey == "" ==> info == KeyMissing && stamps == [] && taken == []
      ensures apiKey == "" ==> lastRequestTs == old(lastRequestTs) && clock == old(clock)
      ensures apiKey != "" ==>
                var run := Retry(maxRetries, backoffFactor, minInterval, replies);
                && info == Shaped(run.result, describe)
                && |stamps| == run.attempts && Spaced(stamps, old(lastRequestTs), minInterval)
                && Backoffs(taken) == run.waits
                && |stamps| >= 1 && lastRequestTs == stamps[|stamps| - 1]
      ensures naps == old(naps) + taken && clock == old(clock) + Slept(taken)
      ensures old(lastRequestTs) <= lastRequestTs
    {
      sent := sent + [query];
      if apiKey == "" {
        return KeyMissing, [], [];
      }
      var result; ghost var run;
      result, run, stamps, taken := RequestWithRetry(replies);
      match result
      case Raised(message, status, text) =>
        info := HttpError(message, status, if Truthy(text) then Some(Take(text.value, DetailLimit)) else None);
      case Done(data, status, detail) =>
        if data == JNull {
          info := Exhausted(status, detail);
        } else if !data.JObj? {
          info := Unexpected(describe(NoGet(data)));
        } else {
          var m := data.fields;
          var kg := if "knowledge_graph" in m then m["knowledge_graph"] else JObj(map[]);
          if "organic_results" !in m {
            info := Found([], kg);
          } else {
            var organic := m["organic_results"];
            var snippets: Result<seq<Snippet>, Fault>;
            if organic.JArr? {
              snippets := CollectSnippets(organic.elems);
            } else {
              snippets := OrganicSnippets(organic);
            }
            match snippets
            case Ok(s) => info := Found(s, kg);
            case Err(fault) => info := Unexpected(describe(fault));
          }
        }
    }
  }

  /** The loop `for res in organic_results[:3]: snippets.append(...)`,
      which stops with the exception of the first result that is not a
      dictionary. */
  method CollectSnippets(rs: seq<Json>) returns (r: Result<seq<Snippet>, Fault>)
    ensures r == TopSnippets(rs)
  {
    var n := Min(SnippetLimit, |rs|);
    var snippets: seq<Snippet> := [];
    for i := 0 to n
      invariant |snippets| == i
      invariant forall j :: 0 <= j < i ==> rs[j].JObj? && snippets[j] == SnippetOf(rs[j].fields)
    {
      var res := rs[i];
      if !res.JObj? {
        assert FirstNonObject(rs, n) == i by { FirstNonObjectAt(rs, n, i); }
        return Err(NoGet(res));
      }
      snippets := snippets + [SnippetOf(res.fields)];
    }
    assert FirstNonObject(rs, n) == n by { FirstNonObjectAt(rs, n, n); }
    assert snippets == seq(n, i requires 0 <= i < n => SnippetOf(rs[i].fields));
    r := Ok(snippets);
  }

  lemma FirstNonObjectAt(rs: seq<Json>, n: nat, i: nat)
    requires i <= n <= |rs|
    requires forall j :: 0 <= j < i ==> rs[j].JObj?
    requires i < n ==> !rs[i].JObj?
    ensures FirstNonObject(rs, n) == i
  {
  }

  // Scenarios of the search client's tests: minimum interval 0, factor 1.

  /** A 429 and then a good page: two GETs, and the page's knowledge graph
      and first result are kept. `spare` is the reply a third attempt would
      have read. */
  lemma RateLimitedThenFound(describe: Fault -> string, spare: Reply)
    ensures var result := JObj(map["title" := JStr("Test Title"), "snippet" := JStr("Test Snippet"),
                                   "link" := JStr("https://example.com")]);
            var kg := JObj(map["knowledge_data" := JNum("1")]);
            var page := JObj(map["knowledge_graph" := kg, "organic_results" := JArr([result])]);
            var run := Retry(2, 1.0, 0.0, [Response(429, "rate limited", Some(JNull)), Response(200, "", Some(page)), spare]);
            && run.attempts == 2
            && Shaped(run.result, describe)
               == Found([Snippet(JStr("Test Title"), JStr("Test Snippet"), JStr("https://example.com"))], kg)
  {
    var result := JObj(map["title" := JStr("Test Title"), "snippet" := JStr("Test Snippet"),
                           "link" := JStr("https://example.com")]);
    var kg := JObj(map["knowledge_data" := JNum("1")]);
    var page := JObj(map["knowledge_graph" := kg, "organic_results" := JArr([result])]);
    var replies := [Response(429, "rate limited", Some(JNull)), Response(200, "", Some(page)), spare];
    assert Retryable(replies[0]);
    FirstGoodReplyWins(2, 1.0, 0.0, replies, 1);
    var rs := [result];
    assert Min(SnippetLimit, |rs|) == 1;
    FirstNonObjectAt(rs, 1, 1);
    assert seq(1, i requires 0 <= i < 1 => SnippetOf(rs[i].fields)) == [SnippetOf(result.fields)];
    assert TopSnippets(rs) == Ok([SnippetOf(result.fields)]);
  }

  /** Two 500s with one retry allowed: the search gives up with the last
      status and the last body. */
  lemma ServerErrorsExhaust(describe: Fault -> string)
    ensures var run := Retry(1, 1.0, 0.0, [Response(500, "server error", None), Response(500, "still bad", None)]);
            && run.attempts == 2
            && Shaped(run.result, describe) == Exhausted(Some(500), Some("still bad"))
            && Shaped(run.result, describe).Error() == Some(ExhaustedError)
  {
    var replies := [Response(500, "server error", None), Response(500, "still bad", None)];
    assert Retryable(replies[0]) && Retryable(replies[1]);
    AlwaysFailing(1, 1.0, 0.0, replies);
    assert DetailOf("still bad") == Some("still bad");
  }

  /** A body that does not parse is retried; the next page, with an empty
      knowledge graph and no results, is a success. */
  lemma InvalidJsonThenFound(describe: Fault -> string, spare: Reply)
    ensures var page := JObj(map["knowledge_graph" := JObj(map[]), "organic_results" := JArr([])]);
            var run := Retry(2, 1.0, 0.0, [Response(200, "not json", None), Response(200, "", Some(page)), spare]);
            && run.attempts == 2
            && Shaped(run.result, describe) == Found([], JObj(map[]))
  {
    var page := JObj(map["knowledge_graph" := JObj(map[]), "organic_results" := JArr([])]);
    var replies := [Response(200, "not json", None), Response(200, "", Some(page)), spare];
    assert Retryable(replies[0]);
    FirstGoodReplyWins(2, 1.0, 0.0, replies, 1);
    var rs: seq<Json> := [];
    assert Min(SnippetLimit, |rs|) == 0;
    assert FirstNonObject(rs, 0) == 0;
    assert TopSnippets(rs).Ok? && |TopSnippets(rs).value| == 0;
  }

  /** With no retries, a body that does not parse ends the search with the
      "invalid json" detail. */
  lemma InvalidJsonExhausts(describe: Fault -> string)
    ensures var run := Retry(0, 1.0, 0.0, [Response(200, "not json", None)]);
            && run.attempts == 1
            && Shaped(run.result, describe) == Exhausted(Some(200), Some(InvalidJsonDetail))
  {
    var replies := [Response(200, "not json", None)];
    assert Retryable(replies[0]);
    AlwaysFailing(0, 1.0, 0.0, replies);
  }
}
