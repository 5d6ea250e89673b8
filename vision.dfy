/** The analysis pipeline (source: app/core/vision.py). The cloud path asks
    Gemini for the items on the plate, searches the web for each item,
    hands the search context back to Gemini for the final report and
    parses it as JSON. Anything in the cloud path that raises switches to
    the local failsafe; when that raises too, the request fails with
    HTTP 500.

    The SDK, the network, PIL and the `json` module are parameters
    (`Env`); the two clients are the objects of `Search` and
    `LocalIntelligence`. */
module Vision {
  import opened Common
  import Search
  import Intelligence
  import LocalIntelligence

  /** The note used when a failed search left nothing to report (one
      string, written in two pieces so that its characters unfold). */
  const FallbackNote := "Web search unavailable. " + "Proceed with visual estimation only."

  /** The detail of the HTTP 500 raised when both paths failed. */
  const AllFailedDetail := "All AI systems failed."

  // ---------------------------------------------------------------------
  // Step 1: the identified items
  // ---------------------------------------------------------------------

  /** Python's `s.replace(old, new)` for single characters. */
  function Replace(s: string, from: char, to: char): (r: string)
    ensures |r| == |s|
  {
    if s == [] then [] else [if s[0] == from then to else s[0]] + Replace(s[1..], from, to)
  }

  /** Each character is replaced on its own, in place. */
  lemma {:induction false} ReplaceAt(s: string, from: char, to: char)
    ensures forall i :: 0 <= i < |s| ==> Replace(s, from, to)[i] == if s[i] == from then to else s[i]
  {
    if s != [] {
      ReplaceAt(s[1..], from, to);
    }
  }

  /** Python's `s.split(sep)` for a one-character separator: the pieces
      between separators, "" between adjacent ones, and `[""]` for "". */
  function Split(s: string, sep: char): (r: seq<string>)
    ensures |r| >= 1
  {
    if s == [] then [[]]
    else if s[0] == sep then [[]] + Split(s[1..], sep)
    else [[s[0]] + Split(s[1..], sep)[0]] + Split(s[1..], sep)[1..]
  }

  /** Python's `sep.join(parts)`. */
  function Join(parts: seq<string>, sep: string): string
  {
    if parts == [] then []
    else if |parts| == 1 then parts[0]
    else parts[0] + sep + Join(parts[1..], sep)
  }

  /** `[item.strip() for item in parts if item.strip()]` */
  function Tokens(parts: seq<string>): (r: seq<string>)
    ensures |r| <= |parts|
  {
    if parts == [] then []
    else (if Strip(parts[0]) != [] then [Strip(parts[0])] else []) + Tokens(parts[1..])
  }

  /** The items read off the identification answer: lines and commas both
      separate items (vision.py, lines 32-33). */
  function Tokenize(listing: string): seq<string>
  {
    Tokens(Split(Replace(listing, '\n', ','), ','))
  }

  /** An item as the tokenizer can produce it. */
  predicate Clean(item: string)
  {
    item != [] && Stripped(item) && ',' !in item && '\n' !in item
  }

  /** Splitting loses nothing: joining the pieces with the separator gives
      the string back. */
  lemma {:induction false} SplitJoin(s: string, sep: char)
    ensures Join(Split(s, sep), [sep]) == s
  {
    if s != [] {
      var rest := Split(s[1..], sep);
      SplitJoin(s[1..], sep);
      if s[0] == sep {
        assert Split(s, sep) == [[]] + rest;
        assert ([[]] + rest)[1..] == rest;
        assert s == [sep] + s[1..];
      } else if |rest| == 1 {
        assert Split(s, sep) == [[s[0]] + rest[0]];
        assert s == [s[0]] + s[1..];
      } else {
        var parts := [[s[0]] + rest[0]] + rest[1..];
        assert Split(s, sep) == parts;
        assert parts[1..] == rest[1..];
        assert Join(rest, [sep]) == rest[0] + [sep] + Join(rest[1..], [sep]);
        assert s == [s[0]] + s[1..];
      }
    }
  }

  lemma InTail(s: string)
    requires s != []
    ensures forall x :: x in s[1..] ==> x in s
  {
    forall x | x in s[1..]
      ensures x in s
    {
      var k :| 0 <= k < |s[1..]| && s[1..][k] == x;
      assert s[k + 1] == x;
    }
  }

  lemma {:induction false} SplitWithout(s: string, sep: char)
    requires sep !in s
    ensures Split(s, sep) == [s]
  {
    if s != [] {
      InTail(s);
      SplitWithout(s[1..], sep);
      assert [s[0]] + s[1..] == s;
    }
  }

  /** The first piece ends at the first separator. */
  lemma {:induction false} SplitFirst(a: string, b: string, sep: char)
    requires sep !in a
    ensures Split(a + [sep] + b, sep) == [a] + Split(b, sep)
  {
    var s := a + [sep] + b;
    if a == [] {
      assert s == [sep] + b && s[1..] == b;
    } else {
      assert s[0] == a[0] && a[0] != sep;
      assert s[1..] == a[1..] + [sep] + b;
      InTail(a);
      SplitFirst(a[1..], b, sep);
      assert [a[0]] + a[1..] == a;
    }
  }

  lemma ReplaceAppend(a: string, b: string, from: char, to: char)
    ensures Replace(a + b, from, to) == Replace(a, from, to) + Replace(b, from, to)
  {
    ReplaceAt(a + b, from, to);
    ReplaceAt(a, from, to);
    ReplaceAt(b, from, to);
    var l := Replace(a + b, from, to);
    var r := Replace(a, from, to) + Replace(b, from, to);
    assert forall i :: 0 <= i < |l| ==> l[i] == r[i];
  }

  lemma ReplaceWithout(s: string, from: char, to: char)
    requires from !in s
    ensures Replace(s, from, to) == s
  {
    ReplaceAt(s, from, to);
    var r := Replace(s, from, to);
    assert forall i :: 0 <= i < |s| ==> r[i] == s[i];
  }

  /** No piece holds the separator. */
  lemma {:induction false} SplitPieces(s: string, sep: char)
    ensures forall i :: 0 <= i < |Split(s, sep)| ==> sep !in Split(s, sep)[i]
  {
    if s != [] {
      SplitPieces(s[1..], sep);
    }
  }

  /** Every token is non-empty and has no whitespace at either end. */
  lemma {:induction false} TokensStripped(parts: seq<string>)
    ensures forall i :: 0 <= i < |Tokens(parts)| ==> Tokens(parts)[i] != [] && Stripped(Tokens(parts)[i])
  {
    if parts != [] {
      TokensStripped(parts[1..]);
    }
  }

  /** `strip` only removes characters. */
  lemma StripWithout(s: string, c: char)
    requires c !in s
    ensures c !in Strip(s)
  {
    StripCuts(s);
    var r := Strip(s);
    var i := |s| - |TrimLeft(s)|;
    forall k | 0 <= k < |r|
      ensures r[k] != c
    {
      assert r[k] == s[i + k];
    }
  }

  lemma {:induction false} TokensWithout(parts: seq<string>, c: char)
    requires forall i :: 0 <= i < |parts| ==> c !in parts[i]
    ensures forall i :: 0 <= i < |Tokens(parts)| ==> c !in Tokens(parts)[i]
  {
    if parts != [] {
      StripWithout(parts[0], c);
      TokensWithout(parts[1..], c);
    }
  }

  lemma {:induction false} SplitKeeps(s: string, sep: char, c: char)
    requires c !in s
    ensures forall i :: 0 <= i < |Split(s, sep)| ==> c !in Split(s, sep)[i]
  {
    if s != [] {
      InTail(s);
      SplitKeeps(s[1..], sep, c);
    }
  }

  /** Every item is non-empty, has no surrounding whitespace, and holds
      neither a comma nor a line break. */
  lemma TokenizeClean(listing: string)
    ensures forall i :: 0 <= i < |Tokenize(listing)| ==> Clean(Tokenize(listing)[i])
  {
    var replaced := Replace(listing, '\n', ',');
    ReplaceAt(listing, '\n', ',');
    assert forall k :: 0 <= k < |replaced| ==> replaced[k] != '\n';
    SplitPieces(replaced, ',');
    TokensStripped(Split(replaced, ','));
    SplitKeeps(replaced, ',', '\n');
    TokensWithout(Split(replaced, ','), ',');
    TokensWithout(Split(replaced, ','), '\n');
  }

  /** The separators the identification answer may use between items: a
      comma and a space (the format the prompt asks for) or a line break. */
  predicate Separator(d: string)
  {
    d == ", " || d == "\n"
  }

  /** The whitespace a separator leaves in front of the next piece. */
  function Gap(d: string): string
  {
    if d == ", " then " " else ""
  }

  lemma TokensCons(head: string, rest: seq<string>)
    ensures Tokens([head] + rest)
         == (if Strip(head) != [] then [Strip(head)] else []) + Tokens(rest)
  {
    assert ([head] + rest)[1..] == rest;
  }

  /** A single item behind whitespace is read back as itself. */
  lemma TokensOfOne(w: string, x: string)
    requires AllSpace(w) && ',' !in w && Clean(x)
    ensures Tokens(Split(w + Replace(x, '\n', ','), ',')) == [x]
  {
    ReplaceWithout(x, '\n', ',');
    SplitWithout(w + x, ',');
    TokensCons(w + x, []);
    StripOfPadded(w, x);
  }

  lemma StripOfPadded(w: string, x: string)
    requires AllSpace(w) && Stripped(x)
    ensures Strip(w + x) == x
  {
    StripPadded(w, x, "");
    assert w + x + "" == w + x;
    StripStripped(x);
  }

  /** Replacing the line breaks of a joined list, with clean items. */
  lemma ReplaceJoin(w: string, items: seq<string>, d: string)
    requires Separator(d) && |items| >= 2 && '\n' !in items[0]
    ensures w + Replace(Join(items, d), '\n', ',')
         == (w + items[0]) + [','] + (Gap(d) + Replace(Join(items[1..], d), '\n', ','))
  {
    var x, rest := items[0], Join(items[1..], d);
    assert Join(items, d) == (x + d) + rest;
    ReplaceAppend(x + d, rest, '\n', ',');
    ReplaceAppend(x, d, '\n', ',');
    ReplaceWithout(x, '\n', ',');
    ReplaceSeparator(d);
    Regroup(w, x, Gap(d), Replace(rest, '\n', ','));
  }

  lemma ReplaceSeparator(d: string)
    requires Separator(d)
    ensures Replace(d, '\n', ',') == [','] + Gap(d)
  {
  }

  lemma Regroup(w: string, x: string, g: string, tail: string)
    ensures w + ((x + ([','] + g)) + tail) == (w + x) + [','] + (g + tail)
  {
  }

  lemma {:induction false} TokensOfJoin(w: string, items: seq<string>, d: string)
    requires AllSpace(w) && ',' !in w
    requires Separator(d) && items != []
    requires forall i :: 0 <= i < |items| ==> Clean(items[i])
    ensures Tokens(Split(w + Replace(Join(items, d), '\n', ','), ',')) == items
    decreases |items|
  {
    CleanParts(items);
    if |items| == 1 {
      TokensOfOne(w, items[0]);
      assert [items[0]] == items;
    } else {
      TokensOfJoinStep(w, items, d);
      GapFits(d);
      TokensOfJoin(Gap(d), items[1..], d);
      assert [items[0]] + items[1..] == items;
    }
  }

  lemma CleanParts(items: seq<string>)
    requires items != []
    requires forall i :: 0 <= i < |items| ==> Clean(items[i])
    ensures Clean(items[0])
    ensures forall i :: 0 <= i < |items[1..]| ==> Clean(items[1..][i])
  {
    assert forall i :: 0 <= i < |items[1..]| ==> items[1..][i] == items[i + 1];
  }

  lemma GapFits(d: string)
    requires Separator(d)
    ensures AllSpace(Gap(d)) && ',' !in Gap(d)
  {
  }

  /** The first item comes out of the first piece; the rest of the listing
      starts with the separator's whitespace. */
  lemma TokensOfJoinStep(w: string, items: seq<string>, d: string)
    requires AllSpace(w) && ',' !in w
    requires Separator(d) && |items| > 1 && Clean(items[0])
    ensures Tokens(Split(w + Replace(Join(items, d), '\n', ','), ','))
         == [items[0]] + Tokens(Split(Gap(d) + Replace(Join(items[1..], d), '\n', ','), ','))
  {
    var x := items[0];
    var tail := Replace(Join(items[1..], d), '\n', ',');
    var g := Gap(d);
    ReplaceJoin(w, items, d);
    SplitFirst(w + x, g + tail, ',');
    TokensCons(w + x, Split(g + tail, ','));
    StripOfPadded(w, x);
  }

  lemma TokenizeJoin(items: seq<string>, d: string)
    requires Separator(d)
    requires forall i :: 0 <= i < |items| ==> Clean(items[i])
    ensures Tokenize(Join(items, d)) == items
  {
    if items == [] {
      assert Tokenize([]) == Tokens([[]]);
      assert Strip([]) == [];
    } else {
      TokensOfJoin("", items, d);
      assert "" + Replace(Join(items, d), '\n', ',') == Replace(Join(items, d), '\n', ',');
    }
  }

  /** The listing of the pipeline's test yields its two items. */
  lemma TwoItems()
    ensures Tokenize("Apple (1 medium), Banana (1 small)") == ["Apple (1 medium)", "Banana (1 small)"]
  {
    TwoItemsJoined();
    TwoItemsClean();
    TokenizeJoin(["Apple (1 medium)", "Banana (1 small)"], ", ");
  }

  lemma TwoItemsJoined()
    ensures Join(["Apple (1 medium)", "Banana (1 small)"], ", ") == "Apple (1 medium), Banana (1 small)"
  {
    assert ["Apple (1 medium)", "Banana (1 small)"][1..] == ["Banana (1 small)"];
  }

  lemma TwoItemsClean()
    ensures forall i :: 0 <= i < 2 ==> Clean(["Apple (1 medium)", "Banana (1 small)"][i])
  {
    assert Clean("Apple (1 medium)");
    assert Clean("Banana (1 small)");
  }

  // ---------------------------------------------------------------------
  // Step 2: one line of search context per item
  // ---------------------------------------------------------------------

  /** The query `fetch_info` sends for an item. */
  function Query(item: string): string
  {
    item + " calories nutrition facts"
  }

  /** A snippet as the dictionary `search_food_info` builds. */
  function SnippetJson(s: Search.Snippet): Json
  {
    JObj(map["title" := s.title, "snippet" := s.snippet, "link" := s.link])
  }

  function SnippetsJson(snippets: seq<Search.Snippet>): (r: seq<Json>)
    ensures |r| == |snippets|
  {
    if snippets == [] then [] else [SnippetJson(snippets[0])] + SnippetsJson(snippets[1..])
  }

  /** The dictionary `search_food_info` returns on success. */
  function FoundJson(snippets: seq<Search.Snippet>, knowledgeGraph: Json): Json
  {
    JObj(map["snippets" := JArr(SnippetsJson(snippets)), "knowledge_graph" := knowledgeGraph])
  }

  /** What `fetch_info` writes after "Data: " when the search dictionary
      carries an "error": the detail (or else the error), behind the
      status when there is a non-zero one; the fallback note when that
      text is empty. */
  function ErrorNote(info: Search.SearchInfo): (note: string)
    requires !info.Found?
    ensures note != []
  {
    if StatusDetail(info) != [] then StatusDetail(info) else FallbackNote
  }

  /** `info.get("detail") or info.get("error")` */
  function DetailOrError(info: Search.SearchInfo): string
    requires !info.Found?
  {
    if Truthy(info.Detail()) then info.Detail().value else info.Error().value
  }

  /** The detail behind "Status <status>: " when the status is truthy. */
  function StatusDetail(info: Search.SearchInfo): string
    requires !info.Found?
  {
    if info.Status().Some? && info.Status().value != 0
    then "Status " + IntToDecimal(info.Status().value) + ": " + DetailOrError(info)
    else DetailOrError(info)
  }

  /** The line `fetch_info` returns for an item and its search result;
      `dumps` is `json.dumps`. */
  function ContextLine(item: string, info: Search.SearchInfo, dumps: Json -> string): (line: string)
    ensures line != []
  {
    "Item Search: " + item + "\nData: "
    + (if info.Found? then dumps(FoundJson(info.snippets, info.knowledgeGraph)) else ErrorNote(info))
  }

  /** What the note says for each kind of failed search without a status.
      A missing key and a search that gave up are reported as such, never
      by the fallback note, which only appears for an exception with an
      empty message. */
  lemma ErrorNotes(message: string, detail: string)
    ensures ErrorNote(Search.KeyMissing) == Search.KeyMissingError
    ensures ErrorNote(Search.Exhausted(None, None)) == Search.ExhaustedError
    ensures ErrorNote(Search.Exhausted(Some(0), Some(detail))) == if detail != [] then detail else Search.ExhaustedError
    ensures ErrorNote(Search.Unexpected(message)) == if message != [] then message else FallbackNote
    ensures ErrorNote(Search.HttpError(message, None, None)) == if message != [] then message else FallbackNote
  {
  }

  /** A search that gave up with a non-zero status leads its note with
      that status, followed by the detail or else the error. */
  lemma StatusNotes(status: int, detail: string)
    requires status != 0
    ensures detail != [] ==>
              ErrorNote(Search.Exhausted(Some(status), Some(detail))) == "Status " + IntToDecimal(status) + ": " + detail
    ensures ErrorNote(Search.Exhausted(Some(status), None)) == "Status " + IntToDecimal(status) + ": " + Search.ExhaustedError
  {
  }

  /** When the fallback note is used: a failure with no text and no
      non-zero status gets it; a non-zero status always leads the note; an
      error message is kept, not replaced by the fallback. */
  lemma FallbackNoteWhen(info: Search.SearchInfo)
    requires !info.Found?
    ensures (!Truthy(info.Detail()) && info.Error().value == [] && (info.Status().None? || info.Status().value == 0))
            ==> ErrorNote(info) == FallbackNote
    ensures info.Status().Some? && info.Status().value != 0
            ==> |ErrorNote(info)| >= 7 && ErrorNote(info)[..7] == "Status " && ErrorNote(info) != FallbackNote
    ensures info.Error().value != [] && !Truthy(info.Detail()) && (info.Status().None? || info.Status().value == 0)
            ==> ErrorNote(info) == info.Error().value
  {
    if info.Status().Some? && info.Status().value != 0 {
      assert ErrorNote(info) == "Status " + IntToDecimal(info.Status().value) + ": " + DetailOrError(info);
      assert ErrorNote(info)[0] == 'S' && FallbackNote[0] == 'W';
    }
  }

  /** What `search_food_info(query)` returns, by the search client's
      settings and SerpAPI's replies to the query. */
  function InfoFor(search: Search.SerpApiWrapper, query: string, env: Env): Search.SearchInfo
    requires Ready(search, env)
  {
    if search.apiKey == [] then Search.KeyMissing
    else Search.Shaped(Search.Retry(search.maxRetries, search.backoffFactor, search.minInterval, env.replies(query)).result,
                       env.describe)
  }

  /** The line `fetch_info(item)` returns. */
  function Line(search: Search.SerpApiWrapper, item: string, env: Env): string
    requires Ready(search, env)
  {
    ContextLine(item, InfoFor(search, Query(item), env), env.dumps)
  }

  /** The lines of `asyncio.gather(*[fetch_info(item) for item in items])`,
      one per item and in the items' order. */
  function ContextLines(search: Search.SerpApiWrapper, items: seq<string>, env: Env): (lines: seq<string>)
    requires Ready(search, env)
    ensures |lines| == |items|
  {
    seq(|items|, i requires 0 <= i < |items| => Line(search, items[i], env))
  }

  /** One more item adds its line at the end. */
  lemma ContextLinesSnoc(search: Search.SerpApiWrapper, items: seq<string>, item: string, env: Env)
    requires Ready(search, env)
    ensures ContextLines(search, items + [item], env) == ContextLines(search, items, env) + [Line(search, item, env)]
  {
    var l := ContextLines(search, items + [item], env);
    var r := ContextLines(search, items, env) + [Line(search, item, env)];
    assert forall k :: 0 <= k < |items| ==> (items + [item])[k] == items[k];
    assert forall k :: 0 <= k < |l| ==> l[k] == r[k];
  }

  /** `[res for res in search_results if res]` */
  function Present(lines: seq<string>): seq<string>
  {
    if lines == [] then []
    else (if lines[0] != [] then [lines[0]] else []) + Present(lines[1..])
  }

  /** No search result is ever dropped by the filter: every line is
      non-empty. */
  lemma {:induction false} PresentKeepsAll(lines: seq<string>)
    requires forall i :: 0 <= i < |lines| ==> lines[i] != []
    ensures Present(lines) == lines
  {
    if lines != [] {
      PresentKeepsAll(lines[1..]);
      assert [lines[0]] + lines[1..] == lines;
    }
  }

  /** `context_str`: the lines joined by line breaks. */
  function Context(lines: seq<string>): string
  {
    Join(Present(lines), "\n")
  }

  /** The context holds one line per item, in order, and nothing else. */
  lemma ContextOfItems(search: Search.SerpApiWrapper, items: seq<string>, env: Env)
    requires Ready(search, env)
    ensures Context(ContextLines(search, items, env)) == Join(ContextLines(search, items, env), "\n")
  {
    PresentKeepsAll(ContextLines(search, items, env));
  }

  // ---------------------------------------------------------------------
  // Step 3: the final answer
  // ---------------------------------------------------------------------

  /** `_clean_json_string`: strip, then take the inside of a
      "```json ... ```" fence. The pattern's `\s*` on both sides of the
      lazy group leaves exactly the stripped inside. */
  function CleanJson(s: string): (r: string)
    ensures Stripped(r)
  {
    Unfence(Strip(s))
  }

  /** The answer starts with "```json" and ends with a separate "```". */
  predicate Fenced(t: string)
  {
    |t| >= 10 && t[..7] == "```json" && t[|t| - 3..] == "```"
  }

  /** The match of the pattern on a stripped answer. */
  function Unfence(t: string): (r: string)
    requires Stripped(t)
    ensures Stripped(r)
  {
    if Fenced(t) then Strip(t[7..|t| - 3]) else t
  }

  /** A fenced answer, with whitespace around it, yields the stripped
      inside of the fence. */
  lemma CleanFenced(w1: string, body: string, w2: string)
    requires AllSpace(w1) && AllSpace(w2)
    ensures CleanJson(w1 + "```json" + body + "```" + w2) == Strip(body)
  {
    var t := "```json" + body + "```";
    assert w1 + "```json" + body + "```" + w2 == w1 + t + w2;
    StripPadded(w1, t, w2);
    FenceParts(body);
    StripStripped(t);
    CleanOfFence(w1 + t + w2, t);
  }

  lemma FenceParts(body: string)
    ensures var t := "```json" + body + "```";
            |t| >= 10 && t[..7] == "```json" && t[|t| - 3..] == "```" && t[7..|t| - 3] == body
            && Stripped(t)
  {
  }

  lemma CleanOfFence(s: string, t: string)
    requires Strip(s) == t && Fenced(t)
    ensures CleanJson(s) == Strip(t[7..|t| - 3])
  {
  }

  /** An answer that is raw JSON text, as the prompt demands, is only
      stripped. */
  lemma CleanRaw(w1: string, text: string, w2: string)
    requires AllSpace(w1) && AllSpace(w2)
    requires text != [] && text[0] == '{' && text[|text| - 1] == '}'
    ensures CleanJson(w1 + text + w2) == text
  {
    StripPadded(w1, text, w2);
    StripStripped(text);
    assert !Fenced(text) by {
      if |text| >= 7 {
        assert text[..7][0] == '{';
      }
    }
  }

  // ---------------------------------------------------------------------
  // The pipeline
  // ---------------------------------------------------------------------

  /** Everything the pipeline depends on outside the two clients. */
  datatype Env = Env(
    /** The Gemini client built at import time. */
    gemini: Intelligence.GeminiClient,
    /** `_resize_image` (which returns its input when PIL fails). */
    resize: seq<byte> -> seq<byte>,
    /** Whether PIL can open the bytes. */
    decodes: seq<byte> -> bool,
    /** What each model does with the identification prompt. */
    identify: seq<Intelligence.Outcome>,
    /** What each model does with the final prompt built from a context. */
    synthesize: string -> seq<Intelligence.Outcome>,
    /** SerpAPI's replies to the attempts for a query. */
    replies: string -> seq<Search.Reply>,
    /** `str(e)` of the search's exceptions. */
    describe: Search.Fault -> string,
    /** `json.dumps` */
    dumps: Json -> string,
    /** `json.loads`; `None` when it raises. */
    loads: string -> Option<Json>,
    /** `hf_hub_download` succeeding for a repository and file. */
    fetch: (string, string) -> bool,
    /** `Llama(model_path=...)` succeeding for a path. */
    constructs: string -> bool,
    /** The local model's chat completion. */
    infer: (LocalIntelligence.Llama, nat, seq<byte>) -> LocalIntelligence.Inference)

  /** The scripts fit the clients: one outcome per configured model and
      enough replies for every attempt of every query. */
  ghost predicate Ready(search: Search.SerpApiWrapper, env: Env)
  {
    && |env.identify| == |env.gemini.models|
    && (forall c :: |env.synthesize(c)| == |env.gemini.models|)
    && (forall q :: search.maxRetries < |env.replies(q)|)
  }

  /** The items found on the (resized) image, or `None` when the
      identification raised. */
  function Identified(env: Env, image: seq<byte>): Option<seq<string>>
  {
    match Intelligence.Generate(env.gemini, env.resize(image), env.decodes, env.identify)
    case Generated(listing) => Some(Tokenize(listing))
    case _ => None
  }

  /** The report of the cloud path, or `None` when one of its steps raised
      (identification, synthesis, or `json.loads` of the cleaned answer). */
  function CloudReport(search: Search.SerpApiWrapper, env: Env, image: seq<byte>): Option<Json>
    requires Ready(search, env)
  {
    match Identified(env, image)
    case None => None
    case Some(items) =>
      match Intelligence.Generate(env.gemini, env.resize(image), env.decodes,
                                  env.synthesize(Context(ContextLines(search, items, env))))
      case Generated(raw) => env.loads(CleanJson(raw))
      case _ => None
  }

  /** The exception `analyze_food_image_with_search` raises. */
  datatype HttpException = HttpException(status: int, detail: string)

  /** The outcome of the local failsafe: its report, or the HTTP 500 when
      it raised. */
  function Failsafe(a: Result<Json, LocalIntelligence.Failure>): (r: Result<Json, HttpException>)
    ensures r.Err? <==> a.Err?
    ensures r.Err? ==> r.error == HttpException(500, AllFailedDetail)
    ensures a.Ok? ==> r == Ok(a.value)
  {
    if a.Ok? then Ok(a.value) else Err(HttpException(500, AllFailedDetail))
  }

  /** The queries of step 2, in the items' order. */
  function Queries(items: seq<string>): (qs: seq<string>)
    ensures |qs| == |items|
  {
    if items == [] then [] else Queries(items[..|items| - 1]) + [Query(items[|items| - 1])]
  }

  /** One query per item, in order, each the item followed by
      " calories nutrition facts". */
  lemma {:induction false} QueriesAt(items: seq<string>)
    ensures forall i :: 0 <= i < |items| ==> Queries(items)[i] == items[i] + " calories nutrition facts"
  {
    if items != [] {
      var init := items[..|items| - 1];
      QueriesAt(init);
      assert forall i :: 0 <= i < |init| ==> items[i] == init[i];
    }
  }

  /** The pipeline's answer: the cloud report when the cloud path
      succeeded, the failsafe's outcome otherwise. */
  function Response(cloud: Option<Json>, failsafe: Result<Json, LocalIntelligence.Failure>): (r: Result<Json, HttpException>)
    ensures cloud.Some? ==> r == Ok(cloud.value)
    ensures cloud.None? && failsafe.Ok? ==> r == Ok(failsafe.value)
    ensures cloud.None? && failsafe.Err? ==> r == Err(HttpException(500, AllFailedDetail))
  {
    if cloud.Some? then Ok(cloud.value) else Failsafe(failsafe)
  }

  /** The pipeline's test: one model that lists two items and then
      answers with raw JSON. Both items are searched, in order, and the
      answer is parsed as it stands. */
  lemma TwoItemFlow(search: Search.SerpApiWrapper, env: Env, image: seq<byte>)
    requires Ready(search, env) && |env.gemini.models| == 1 && env.decodes(env.resize(image))
    requires env.identify == [Intelligence.Answered("Apple (1 medium), Banana (1 small)")]
    requires forall c :: env.synthesize(c) == [Intelligence.Answered(FinalAnswer)]
    ensures Identified(env, image) == Some(["Apple (1 medium)", "Banana (1 small)"])
    ensures CloudQueries(env, image) == [Query("Apple (1 medium)"), Query("Banana (1 small)")]
    ensures |CloudRequests(search, env, image)| == 2
    ensures CloudReport(search, env, image) == env.loads(FinalAnswer)
  {
    TwoItemsIdentified(env, image);
    TwoItemsQueries();
    var items := ["Apple (1 medium)", "Banana (1 small)"];
    var context := Context(ContextLines(search, items, env));
    FirstAnswerWins(env.gemini, env.resize(image), env.decodes, env.synthesize(context), FinalAnswer);
    CloudAnswer(search, env, image, items, FinalAnswer);
    FinalAnswerClean();
  }

  /** The cloud report, once the items and the final answer are known. */
  lemma CloudAnswer(search: Search.SerpApiWrapper, env: Env, image: seq<byte>, items: seq<string>, answer: string)
    requires Ready(search, env) && Identified(env, image) == Some(items)
    requires Intelligence.Generate(env.gemini, env.resize(image), env.decodes,
                                   env.synthesize(Context(ContextLines(search, items, env))))
             == Intelligence.Generated(answer)
    ensures CloudReport(search, env, image) == env.loads(CleanJson(answer))
  {
  }

  lemma TwoItemsIdentified(env: Env, image: seq<byte>)
    requires |env.gemini.models| == 1 && env.decodes(env.resize(image))
    requires env.identify == [Intelligence.Answered("Apple (1 medium), Banana (1 small)")]
    ensures Identified(env, image) == Some(["Apple (1 medium)", "Banana (1 small)"])
  {
    FirstAnswerWins(env.gemini, env.resize(image), env.decodes, env.identify, "Apple (1 medium), Banana (1 small)");
    TwoItems();
  }

  lemma FirstAnswerWins(client: Intelligence.GeminiClient, image: seq<byte>, decodes: seq<byte> -> bool,
                        outcomes: seq<Intelligence.Outcome>, text: string)
    requires decodes(image) && outcomes == [Intelligence.Answered(text)] && text != []
    ensures Intelligence.Generate(client, image, decodes, outcomes) == Intelligence.Generated(text)
  {
  }

  lemma TwoItemsQueries()
    ensures Queries(["Apple (1 medium)", "Banana (1 small)"]) == [Query("Apple (1 medium)"), Query("Banana (1 small)")]
  {
    var items := ["Apple (1 medium)", "Banana (1 small)"];
    assert items[..1] == ["Apple (1 medium)"];
    assert items[..1][..0] == [];
  }

  lemma FinalAnswerClean()
    ensures CleanJson(FinalAnswer) == FinalAnswer
  {
    assert FinalAnswer[0] == '{' && FinalAnswer[|FinalAnswer| - 1] == '}';
    CleanRaw("", FinalAnswer, "");
    assert "" + FinalAnswer + "" == FinalAnswer;
  }

  /** The final answer of the pipeline's test. */
  const FinalAnswer := "{\"overall_description\": \"Final Report\"}"

  /** The queries the cloud path sends: none when the identification
      raised, otherwise one per item found, in order. */
  function CloudQueries(env: Env, image: seq<byte>): seq<string>
  {
    match Identified(env, image)
    case None => []
    case Some(items) => Queries(items)
  }

  /** The `generate_content` calls of the cloud path, both on the resized
      bytes: the identification, then, once items were found, the final
      prompt built from their context lines. */
  function CloudRequests(search: Search.SerpApiWrapper, env: Env, image: seq<byte>): seq<Intelligence.Request>
    requires Ready(search, env)
  {
    var processed := env.resize(image);
    [Intelligence.Request(processed, env.identify)]
    + match Identified(env, image)
      case None => []
      case Some(items) => [Intelligence.Request(processed, env.synthesize(Context(ContextLines(search, items, env))))]
  }

  /** What the cloud path did to the two clients, from search state `s0`
      and Gemini request log `requests0` to `s` and `requests`: it made
      exactly the requests of `CloudRequests` and searched exactly
      `CloudQueries`, with `stamps` and `taken` the throttle stamps and
      sleeps of those searches. */
  ghost predicate CloudRan(search: Search.SerpApiWrapper, env: Env, image: seq<byte>,
                           s0: Search.Snapshot, s: Search.Snapshot,
                           requests0: seq<Intelligence.Request>, requests: seq<Intelligence.Request>,
                           stamps: seq<real>, taken: seq<Search.Nap>)
    requires Ready(search, env)
  {
    && requests == requests0 + CloudRequests(search, env, image)
    && search.After(s0, s, CloudQueries(env, image), env.replies, stamps, taken)
  }

  /** `fetch_info(item)`: one search, for the item's query. */
  method FetchInfo(search: Search.SerpApiWrapper, item: string, env: Env)
    returns (line: string, ghost stamps: seq<real>, ghost taken: seq<Search.Nap>)
    requires Ready(search, env) && search.Valid()
    modifies search`lastRequestTs, search`clock, search`naps, search`sent
    ensures search.Valid()
    ensures line == Line(search, item, env)
    ensures search.After(old(search.Now()), search.Now(), [Query(item)], env.replies, stamps, taken)
  {
    var query := Query(item);
    var info;
    info, stamps, taken := search.SearchFoodInfo(query, env.replies(query), env.describe);
    assert [query][..0] == [];
    line := ContextLine(item, info, env.dumps);
  }

  /** The searches of step 2, one item after the other: one search per
      item, in the items' order. */
  method SearchAll(search: Search.SerpApiWrapper, items: seq<string>, env: Env)
    returns (lines: seq<string>, ghost stamps: seq<real>, ghost taken: seq<Search.Nap>)
    requires Ready(search, env) && search.Valid()
    modifies search`lastRequestTs, search`clock, search`naps, search`sent
    ensures search.Valid()
    ensures lines == ContextLines(search, items, env)
    ensures search.After(old(search.Now()), search.Now(), Queries(items), env.replies, stamps, taken)
  {
    ghost var s0 := search.Now();
    search.AfterNothing(s0, env.replies);
    lines, stamps, taken := [], [], [];
    for i := 0 to |items|
      invariant search.Valid()
      invariant lines == ContextLines(search, items[..i], env)
      invariant search.After(s0, search.Now(), Queries(items[..i]), env.replies, stamps, taken)
    {
      assert items[..i + 1] == items[..i] + [items[i]];
      assert items[..i + 1][..i] == items[..i];
      ContextLinesSnoc(search, items[..i], items[i], env);
      ghost var s1 := search.Now();
      var line, st, tk := FetchInfo(search, items[i], env);
      search.AfterThen(s0, s1, search.Now(), Queries(items[..i]), Query(items[i]), env.replies,
                       stamps, taken, st, tk);
      lines := lines + [line];
      stamps, taken := stamps + st, taken + tk;
    }
    assert items[..|items|] == items;
  }

  /** The cloud path: `None` when one of its steps raised. The image is
      resized once and that one result is what both requests carry. */
  method Cloud(search: Search.SerpApiWrapper, env: Env, image: seq<byte>)
    returns (report: Option<Json>, ghost stamps: seq<real>, ghost taken: seq<Search.Nap>)
    requires Ready(search, env) && search.Valid()
    modifies search`lastRequestTs, search`clock, search`naps, search`sent, env.gemini`requests
    ensures search.Valid()
    ensures report == CloudReport(search, env, image)
    ensures CloudRan(search, env, image, old(search.Now()), search.Now(),
                     old(env.gemini.requests), env.gemini.requests, stamps, taken)
  {
    ghost var s0 := search.Now();
    var processed := env.resize(image);
    var listing, _ := env.gemini.GenerateContent(processed, env.decodes, env.identify);
    if !listing.Generated? {
      search.AfterNothing(s0, env.replies);
      report, stamps, taken := None, [], [];
    } else {
      var items := Tokenize(listing.text);
      var lines;
      lines, stamps, taken := SearchAll(search, items, env);
      var raw, _ := env.gemini.GenerateContent(processed, env.decodes, env.synthesize(Context(lines)));
      report := if raw.Generated? then env.loads(CleanJson(raw.text)) else None;
    }
  }

  /** The local client's state after the `except` branch ran on fields
      `before`, directory `disk0` and log `log0`: the availability check,
      then `analyze_image`, which checks again. */
  ghost predicate FailedOver(local: LocalIntelligence.LocalIntelligenceClient, before: LocalIntelligence.Residency,
                             disk0: set<string>, log0: seq<LocalIntelligence.Event>, image: seq<byte>, deep: bool, env: Env)
    reads local
  {
    local.AnalyzedFrom(before, local.Ensured(disk0, true, env.fetch), log0 + local.EnsureLog(disk0, true, env.fetch),
                       image, deep, env.fetch, env.constructs)
  }

  /** The `except` branch: `ensure_models_available(True)`, then
      `analyze_image` on the original bytes; its exception becomes the
      HTTP 500. */
  method Failover(local: LocalIntelligence.LocalIntelligenceClient, env: Env, image: seq<byte>, deep: bool)
    returns (r: Result<Json, HttpException>)
    requires local.Valid()
    modifies local`lightModel, local`heavyModel, local`disk, local`log
    ensures local.Valid()
    ensures r == Failsafe(local.Analysis(old(local.Resident()), local.Ensured(old(local.disk), true, env.fetch),
                                         image, deep, env.fetch, env.constructs, env.infer, env.loads))
    ensures FailedOver(local, old(local.Resident()), old(local.disk), old(local.log), image, deep, env)
  {
    var _ := local.EnsureModelsAvailable(true, env.fetch);
    var analysis := local.AnalyzeImage(image, deep, env.fetch, env.constructs, env.infer, env.loads);
    r := Failsafe(analysis);
  }

  /** The pipeline's answer `r` and the local client's state, for cloud
      outcome `cloud` and a local client that had fields `before`, directory
      `disk0` and log `log0`: when the cloud path succeeded, its report is
      the answer and the local client is untouched; otherwise the answer is
      `Failsafe` of the failsafe's `Analysis` and the local client is in the
      state the failover leaves (`FailedOver`). */
  ghost predicate Handled(local: LocalIntelligence.LocalIntelligenceClient, r: Result<Json, HttpException>,
                          cloud: Option<Json>, before: LocalIntelligence.Residency, disk0: set<string>,
                          log0: seq<LocalIntelligence.Event>, image: seq<byte>, deep: bool, env: Env)
    reads local
  {
    if cloud.Some? then
      r == Ok(cloud.value) && local.Resident() == before && local.disk == disk0 && local.log == log0
    else
      && r == Failsafe(local.Analysis(before, local.Ensured(disk0, true, env.fetch),
                                      image, deep, env.fetch, env.constructs, env.infer, env.loads))
      && FailedOver(local, before, disk0, log0, image, deep, env)
  }

  /** Whatever the cloud outcome, the answer is `Response` of it and the
      failsafe's analysis. */
  lemma HandledResponse(local: LocalIntelligence.LocalIntelligenceClient, r: Result<Json, HttpException>,
                        cloud: Option<Json>, before: LocalIntelligence.Residency, disk0: set<string>,
                        log0: seq<LocalIntelligence.Event>, image: seq<byte>, deep: bool, env: Env)
    requires Handled(local, r, cloud, before, disk0, log0, image, deep, env)
    ensures r == Response(cloud, local.Analysis(before, local.Ensured(disk0, true, env.fetch),
                                                image, deep, env.fetch, env.constructs, env.infer, env.loads))
  {
  }

  /** The `try`/`except` around the cloud path, once its outcome `report`
      is known: the cloud report is returned as it is, and only when there
      is none does the failover run. */
  method Conclude(local: LocalIntelligence.LocalIntelligenceClient, env: Env, image: seq<byte>, deep: bool,
                  report: Option<Json>)
    returns (r: Result<Json, HttpException>)
    requires local.Valid()
    modifies local`lightModel, local`heavyModel, local`disk, local`log
    ensures local.Valid()
    ensures Handled(local, r, report, old(local.Resident()), old(local.disk), old(local.log), image, deep, env)
  {
    if report.Some? {
      r := Ok(report.value);
    } else {
      r := Failover(local, env, image, deep);
    }
  }

  /** `analyze_food_image_with_search`. When the cloud path succeeds the
      local client is not touched. */
  method AnalyzeFoodImageWithSearch(search: Search.SerpApiWrapper, local: LocalIntelligence.LocalIntelligenceClient,
                                    env: Env, image: seq<byte>, deep: bool)
    returns (r: Result<Json, HttpException>, ghost stamps: seq<real>, ghost taken: seq<Search.Nap>)
    requires Ready(search, env) && search.Valid() && local.Valid()
    modifies search`lastRequestTs, search`clock, search`naps, search`sent, env.gemini`requests
    modifies local`lightModel, local`heavyModel, local`disk, local`log
    ensures search.Valid() && local.Valid()
    ensures Handled(local, r, CloudReport(search, env, image),
                    old(local.Resident()), old(local.disk), old(local.log), image, deep, env)
    ensures CloudRan(search, env, image, old(search.Now()), search.Now(),
                     old(env.gemini.requests), env.gemini.requests, stamps, taken)
  {
    var report;
    report, stamps, taken := Cloud(search, env, image);
    r := Conclude(local, env, image, deep, report);
  }
}
