/** The local failsafe (source: app/core/local_intelligence.py): two GGUF
    models on disk, a light and a heavy one, of which at most one is held in
    memory; a check that downloads missing model files; and a forgiving
    parser for the local model's answer.

    The model hub, llama_cpp and `json.loads` are parameters: `fetch` says
    whether `hf_hub_download` of a file succeeds, `constructs` whether
    `Llama(...)` on a path succeeds, `infer` what a chat completion yields,
    `loads` what `json.loads` makes of a string (`None` when it raises).
    The models directory is the set `disk` of the file names it holds;
    `ghost var log` records the client's effects in order. */
module LocalIntelligence {
  import opened Common

  datatype Tier = Light | Heavy

  /** A constructed `llama_cpp.Llama`: its file and its settings. */
  datatype Llama = Llama(path: string, contextSize: nat, verbose: bool)

  /** `n_ctx` of each tier. */
  function ContextSize(tier: Tier): nat
  {
    if tier == Light then 2048 else 4096
  }

  /** `verbose` of each tier. */
  function Verbose(tier: Tier): bool
  {
    tier == Heavy
  }

  function Other(tier: Tier): Tier
  {
    if tier == Light then Heavy else Light
  }

  /** `"heavy" if deep_search else "light"` */
  function TierFor(deep: bool): Tier
  {
    if deep then Heavy else Light
  }

  /** `max_tokens=300 if deep_search else 150` */
  function MaxTokens(deep: bool): nat
  {
    if deep then 300 else 150
  }

  /** `deep_search` picks the heavy tier with 300 tokens, otherwise the light
      tier with 150 tokens. */
  lemma TierSelection(deep: bool)
    ensures deep ==> TierFor(deep) == Heavy && MaxTokens(deep) == 300
    ensures !deep ==> TierFor(deep) == Light && MaxTokens(deep) == 150
    ensures ContextSize(TierFor(deep)) == (if deep then 4096 else 2048)
  {
  }

  /** `os.path.join(models_dir, filename)` */
  function JoinPath(dir: string, filename: string): string
  {
    dir + "/" + filename
  }

  /** The two resident-model fields, `light_model` and `heavy_model`. */
  datatype Residency = Residency(light: Option<Llama>, heavy: Option<Llama>)
  {
    function Of(tier: Tier): Option<Llama>
    {
      if tier == Light then light else heavy
    }

    function With(tier: Tier, m: Option<Llama>): Residency
    {
      if tier == Light then Residency(m, heavy) else Residency(light, m)
    }

    /** The invariant `_load_model` keeps: never both tiers in memory. */
    predicate AtMostOne()
    {
      light.None? || heavy.None?
    }
  }

  /** `_load_model(tier)` on the fields, given the path the lookup found
      (`None` when it raised) and whether the construction succeeded. */
  function AfterLoad(r: Residency, tier: Tier, path: Option<string>, constructed: bool): (s: Residency)
  {
    if r.Of(tier).Some? then r
    else
      var released := r.With(Other(tier), None);
      if path.Some? && constructed
      then released.With(tier, Some(Llama(path.value, ContextSize(tier), Verbose(tier))))
      else released
  }

  /** Loading keeps at most one tier resident; afterwards the other tier is
      released, and the loaded one is resident exactly when it already was
      or the lookup and construction both succeeded. */
  lemma LoadKeepsOneResident(r: Residency, tier: Tier, path: Option<string>, constructed: bool)
    requires r.AtMostOne()
    ensures var s := AfterLoad(r, tier, path, constructed);
            && s.AtMostOne()
            && s.Of(Other(tier)).None?
            && (s.Of(tier).Some? <==> r.Of(tier).Some? || (path.Some? && constructed))
  {
  }

  /** After a successful load of a tier that was not resident, that tier
      holds a model built from the found path with the tier's settings. */
  lemma LoadBuildsModel(r: Residency, tier: Tier, path: string)
    requires r.Of(tier).None?
    ensures AfterLoad(r, tier, Some(path), true).Of(tier) == Some(Llama(path, ContextSize(tier), Verbose(tier)))
    ensures tier == Light ==> AfterLoad(r, tier, Some(path), true) == Residency(Some(Llama(path, 2048, false)), None)
    ensures tier == Heavy ==> AfterLoad(r, tier, Some(path), true) == Residency(None, Some(Llama(path, 4096, true)))
  {
  }

  /** Loading a resident tier is a no-op, so loading twice is loading once. */
  lemma LoadIdempotent(r: Residency, tier: Tier, path: Option<string>, constructed: bool,
                       path2: Option<string>, constructed2: bool)
    requires path.Some? && constructed
    ensures var s := AfterLoad(r, tier, path, constructed);
            AfterLoad(s, tier, path2, constructed2) == s
  {
  }

  /** What the client does to the outside world, in order. */
  datatype Event =
    | Release(tier: Tier)
    | Fetch(repo: string, filename: string)
    | Construct(tier: Tier, path: string)
    | Infer(model: Llama, maxTokens: nat, image: seq<byte>)

  /** Why `_load_model` raised. */
  datatype Failure = DownloadFailed(filename: string) | ConstructFailed(path: string)

  /** What the chat completion yields: an exception, or the value at
      `response["choices"][0]["message"]["content"]`. */
  datatype Inference = InferenceFailed | Content(content: Json)

  /** The required files, as (repository, file name) pairs. */
  type Source = (string, string)

  /** The required files not on disk, in order (the `missing` loop). */
  function MissingOf(required: seq<Source>, disk: set<string>): (m: seq<Source>)
    ensures |m| <= |required|
    ensures forall x :: x in m <==> x in required && x.1 !in disk
  {
    if required == [] then []
    else
      var last := required[|required| - 1];
      MissingOf(required[..|required| - 1], disk) + (if last.1 !in disk then [last] else [])
  }

  /** The position of the first download that fails, or `|sources|`. */
  function FirstFailure(sources: seq<Source>, fetch: (string, string) -> bool): (k: nat)
    ensures k <= |sources|
    ensures forall j :: 0 <= j < k ==> fetch(sources[j].0, sources[j].1)
    ensures k < |sources| ==> !fetch(sources[k].0, sources[k].1)
  {
    if sources == [] then 0
    else if !fetch(sources[0].0, sources[0].1) then 0
    else 1 + FirstFailure(sources[1..], fetch)
  }

  /** The number of downloads attempted: up to and including the first
      failure. */
  function Tried(sources: seq<Source>, fetch: (string, string) -> bool): (n: nat)
    ensures n <= |sources|
  {
    var k := FirstFailure(sources, fetch);
    if k < |sources| then k + 1 else k
  }

  /** The log of looking up `sources` one after the other. */
  function FetchLog(sources: seq<Source>): (l: seq<Event>)
    ensures |l| == |sources|
  {
    if sources == [] then []
    else FetchLog(sources[..|sources| - 1]) + [Fetch(sources[|sources| - 1].0, sources[|sources| - 1].1)]
  }

  /** The file names of `sources`. */
  function NamesOf(sources: seq<Source>): set<string>
  {
    if sources == [] then {}
    else NamesOf(sources[..|sources| - 1]) + {sources[|sources| - 1].1}
  }

  /** `{"overall_description": ..., "note": "Failsafe unavailable"}` */
  function UnavailableReport(): Json
  {
    JObj(map[
      "overall_description" := JStr("Local failsafe models are missing. Please download them (see README)."),
      "total_calories_estimate" := JStr("Unknown"),
      "items" := JArr([]),
      "note" := JStr("Failsafe unavailable")])
  }

  /** The emergency report after a failed inference. */
  function EmergencyReport(): Json
  {
    JObj(map[
      "overall_description" := JStr("Error in local analysis."),
      "total_calories_estimate" := JStr("Unknown"),
      "items" := JArr([JObj(map[
        "name" := JStr("Unidentified"),
        "nutrition" := JObj(map[]),
        "description" := JStr("Analysis failed")])])])
  }

  const RawDescriptionLimit: nat := 200

  /** The report built from unparseable model output. */
  function RawReport(content: string): Json
  {
    JObj(map[
      "overall_description" := JStr(Take(content, RawDescriptionLimit) + "..."),
      "total_calories_estimate" := JStr("Estimated"),
      "items" := JArr([]),
      "note" := JStr("Raw output returned due to parsing error.")])
  }

  /** `s.find(c)`: the first index of `c`, or -1. */
  function Find(s: string, c: char): (r: int)
    ensures -1 <= r < |s|
    ensures r == -1 ==> forall j :: 0 <= j < |s| ==> s[j] != c
    ensures r >= 0 ==> s[r] == c && forall j :: 0 <= j < r ==> s[j] != c
  {
    if s == [] then -1
    else if s[0] == c then 0
    else
      var r := Find(s[1..], c);
      if r == -1 then -1 else r + 1
  }

  /** `s.rfind(c)`: the last index of `c`, or -1. */
  function RFind(s: string, c: char): (r: int)
    ensures -1 <= r < |s|
    ensures r == -1 ==> forall j :: 0 <= j < |s| ==> s[j] != c
    ensures r >= 0 ==> s[r] == c && forall j :: r < j < |s| ==> s[j] != c
  {
    if s == [] then -1
    else if s[|s| - 1] == c then |s| - 1
    else RFind(s[..|s| - 1], c)
  }

  lemma FindAt(s: string, c: char, k: nat)
    requires k < |s| && s[k] == c && forall j :: 0 <= j < k ==> s[j] != c
    ensures Find(s, c) == k
  {
  }

  lemma RFindAt(s: string, c: char, k: nat)
    requires k < |s| && s[k] == c && forall j :: k < j < |s| ==> s[j] != c
    ensures RFind(s, c) == k
  {
  }

  /** `_parse_local_response` */
  function ParseLocalResponse(content: string, loads: string -> Option<Json>): Json
  {
    var start := Find(content, '{');
    var end := RFind(content, '}') + 1;
    if start != -1 && end != -1 then
      match loads(Slice(content, start, end))
      case Some(v) => v
      case None => RawReport(content)
    else RawReport(content)
  }

  /** The `end != -1` test never fails: only a missing `{` skips the
      parse. The span handed to `json.loads` runs from the first `{` to the
      last `}`, whatever lies between; with no `}` after it the span is
      empty. A failed parse gives the raw report. */
  lemma ParseSpan(content: string, loads: string -> Option<Json>)
    ensures RFind(content, '}') + 1 != -1
    ensures Find(content, '{') == -1 ==> ParseLocalResponse(content, loads) == RawReport(content)
    ensures Find(content, '{') != -1 ==>
              var start := Find(content, '{');
              var end := RFind(content, '}') + 1;
              var span := if start < end then content[start..end] else "";
              ParseLocalResponse(content, loads)
              == (if loads(span).Some? then loads(span).value else RawReport(content))
  {
  }

  /** `json.loads("")` raises, so an answer with a `{` but no `}` after
      its first `{` gives the raw report. */
  lemma EmptySpanIsRaw(content: string, loads: string -> Option<Json>)
    requires loads("") == None
    ensures Find(content, '{') != -1 && RFind(content, '}') < Find(content, '{') ==>
              ParseLocalResponse(content, loads) == RawReport(content)
  {
  }

  /** A closing brace before the only opening one. */
  lemma ClosedBeforeOpenedIsRaw(loads: string -> Option<Json>)
    requires loads("") == None
    ensures ParseLocalResponse("} {", loads) == RawReport("} {")
  {
    var s := "} {";
    FindAt(s, '{', 2);
    RFindAt(s, '}', 0);
    EmptySpanIsRaw(s, loads);
  }

  /** The span is not a balanced object: two objects in one answer are
      handed to `json.loads` together, with the text between them. */
  lemma TwoObjectsOneSpan(loads: string -> Option<Json>)
    ensures ParseLocalResponse("a {x} b {y} c", loads)
         == (if loads("{x} b {y}").Some? then loads("{x} b {y}").value else RawReport("a {x} b {y} c"))
  {
    var s := "a {x} b {y} c";
    FindAt(s, '{', 2);
    RFindAt(s, '}', 10);
    assert Slice(s, 2, 11) == "{x} b {y}";
  }

  /** The raw report keeps at most 200 characters of the answer, followed by
      "...". */
  lemma RawReportBounded(content: string)
    ensures var d := RawReport(content).fields["overall_description"].s;
            |d| == Min(RawDescriptionLimit, |content|) + 3 && d == content[..|d| - 3] + "..."
  {
  }

  class LocalIntelligenceClient {
    const modelsDir: string
    const lightRepo: string
    const lightFile: string
    const heavyRepo: string
    const heavyFile: string
    /** `light_model` */
    var lightModel: Option<Llama>
    /** `heavy_model` */
    var heavyModel: Option<Llama>
    /** The names of the files in `models_dir`. */
    var disk: set<string>
    ghost var log: seq<Event>

    ghost predicate Valid()
      reads this
    {
      Residency(lightModel, heavyModel).AtMostOne()
    }

    function Resident(): Residency
      reads this
    {
      Residency(lightModel, heavyModel)
    }

    /** `ensure_models_available`'s `required` list. */
    function Required(): seq<Source>
    {
      [(lightRepo, lightFile), (heavyRepo, heavyFile)]
    }

    /** Whether `ensure_models_available(downloadMissing)` returns True
        when the directory holds `disk`: nothing is missing, or downloading
        is allowed and every missing file downloads. */
    function Available(disk: set<string>, downloadMissing: bool, fetch: (string, string) -> bool): bool
    {
      MissingOf(Required(), disk) == []
      || (downloadMissing && FirstFailure(MissingOf(Required(), disk), fetch) == |MissingOf(Required(), disk)|)
    }

    /** The names in the directory after `ensure_models_available(downloadMissing)`
        ran on `disk`: the missing files downloaded before the first failure. */
    function Ensured(disk: set<string>, downloadMissing: bool, fetch: (string, string) -> bool): set<string>
    {
      var missing := MissingOf(Required(), disk);
      if missing == [] || !downloadMissing then disk
      else disk + NamesOf(missing[..FirstFailure(missing, fetch)])
    }

    /** Once `ensure_models_available(True)` has succeeded, nothing is
        missing any more: a second call downloads nothing. */
    lemma EnsureSettles(disk: set<string>, fetch: (string, string) -> bool)
      requires Available(disk, true, fetch)
      ensures MissingOf(Required(), Ensured(disk, true, fetch)) == []
      ensures Available(Ensured(disk, true, fetch), true, fetch)
      ensures EnsureLog(Ensured(disk, true, fetch), true, fetch) == []
    {
      var missing := MissingOf(Required(), disk);
      var after := Ensured(disk, true, fetch);
      if missing != [] {
        assert missing[..FirstFailure(missing, fetch)] == missing;
        MissingAreFetched(Required(), disk, missing);
      }
      assert Required()[0].1 in after && Required()[1].1 in after;
    }

    /** The path `_get_model_path` yields for a tier's file. */
    function ResidentPath(tier: Tier, fetch: (string, string) -> bool): Option<string>
    {
      if fetch(RepoOf(tier), FileOf(tier)) then Some(JoinPath(modelsDir, FileOf(tier))) else None
    }

    /** The fields after `_load_model(tier)`. */
    function LoadedAfter(before: Residency, tier: Tier, fetch: (string, string) -> bool, constructs: string -> bool): Residency
    {
      var path := ResidentPath(tier, fetch);
      AfterLoad(before, tier, path, path.Some? && constructs(path.value))
    }

    /** The events `ensure_models_available(downloadMissing)` adds when the
        directory holds `disk`: one lookup per download tried. */
    ghost function EnsureLog(disk: set<string>, downloadMissing: bool, fetch: (string, string) -> bool): seq<Event>
    {
      var missing := MissingOf(Required(), disk);
      if missing == [] || !downloadMissing then [] else FetchLog(missing[..Tried(missing, fetch)])
    }

    /** The directory after `_load_model(tier)`: a tier that was not
        resident adds its file when the lookup succeeds. */
    function LoadedDisk(before: Residency, disk: set<string>, tier: Tier, fetch: (string, string) -> bool): set<string>
    {
      if before.Of(tier).None? && fetch(RepoOf(tier), FileOf(tier)) then disk + {FileOf(tier)} else disk
    }

    /** The events `_load_model(tier)` adds: none for a resident tier;
        otherwise the release of the other tier when it was resident, the
        lookup, and the construction when the lookup succeeded. */
    ghost function LoadLog(before: Residency, tier: Tier, fetch: (string, string) -> bool): seq<Event>
    {
      if before.Of(tier).Some? then []
      else
        (if before.Of(Other(tier)).Some? then [Release(Other(tier))] else [])
        + [Fetch(RepoOf(tier), FileOf(tier))]
        + (if fetch(RepoOf(tier), FileOf(tier)) then [Construct(tier, JoinPath(modelsDir, FileOf(tier)))] else [])
    }

    /** The events of `analyze_image` after the availability check: the
        load, then one completion on the selected tier if it is resident
        afterwards. */
    ghost function ServeLog(before: Residency, image: seq<byte>, deep: bool,
                            fetch: (string, string) -> bool, constructs: string -> bool): seq<Event>
    {
      var tier := TierFor(deep);
      LoadLog(before, tier, fetch)
      + match LoadedAfter(before, tier, fetch, constructs).Of(tier)
        case Some(model) => [Infer(model, MaxTokens(deep), image)]
        case None => []
    }

    /** The fields, the directory and the log after `analyze_image` ran on
        fields `before`, directory `disk0` and log `log0`: the availability
        check, then, when the models are available, the load and the
        completion. */
    ghost predicate AnalyzedFrom(before: Residency, disk0: set<string>, log0: seq<Event>, image: seq<byte>, deep: bool,
                                 fetch: (string, string) -> bool, constructs: string -> bool)
      reads this
    {
      var checked := Ensured(disk0, true, fetch);
      var logged := log0 + EnsureLog(disk0, true, fetch);
      if Available(disk0, true, fetch) then
        && Resident() == LoadedAfter(before, TierFor(deep), fetch, constructs)
        && disk == LoadedDisk(before, checked, TierFor(deep), fetch)
        && log == logged + ServeLog(before, image, deep, fetch, constructs)
      else Resident() == before && disk == checked && log == logged
    }

    /** What `analyze_image(image, deep)` returns, from the fields and the
        directory before the call; `Err` is the exception `_load_model`
        lets escape. */
    function Analysis(before: Residency, disk: set<string>, image: seq<byte>, deep: bool,
                      fetch: (string, string) -> bool, constructs: string -> bool,
                      infer: (Llama, nat, seq<byte>) -> Inference, loads: string -> Option<Json>): Result<Json, Failure>
    {
      if !Available(disk, true, fetch) then Ok(UnavailableReport())
      else Served(before, image, deep, fetch, constructs, infer, loads)
    }

    /** What `analyze_image` returns once the models are available: the
        selected tier is loaded, then asked for one completion. */
    function Served(before: Residency, image: seq<byte>, deep: bool,
                    fetch: (string, string) -> bool, constructs: string -> bool,
                    infer: (Llama, nat, seq<byte>) -> Inference, loads: string -> Option<Json>): Result<Json, Failure>
    {
      var tier := TierFor(deep);
      var path := ResidentPath(tier, fetch);
      match LoadedAfter(before, tier, fetch, constructs).Of(tier)
      case Some(model) => Ok(Reported(infer(model, MaxTokens(deep), image), loads))
      case None => Err(if path.None? then DownloadFailed(FileOf(tier)) else ConstructFailed(path.value))
    }

    /** `analyze_image`'s outcomes: the fixed report when the models are
        unavailable; otherwise what loading and the completion give
        (`ServedOutcomes`). */
    lemma AnalysisOutcomes(before: Residency, disk: set<string>, image: seq<byte>, deep: bool,
                           fetch: (string, string) -> bool, constructs: string -> bool,
                           infer: (Llama, nat, seq<byte>) -> Inference, loads: string -> Option<Json>)
      ensures var a := Analysis(before, disk, image, deep, fetch, constructs, infer, loads);
              && (!Available(disk, true, fetch) ==> a == Ok(UnavailableReport()))
              && (Available(disk, true, fetch) ==> a == Served(before, image, deep, fetch, constructs, infer, loads))
              && (a.Err? <==> Available(disk, true, fetch)
                              && LoadedAfter(before, TierFor(deep), fetch, constructs).Of(TierFor(deep)).None?)
    {
      if Available(disk, true, fetch) {
        ServedOutcomes(before, image, deep, fetch, constructs, infer, loads);
      }
    }

    /** Once the models are available, `analyze_image` raises exactly when
        loading the selected tier fails, which cannot happen when that tier
        is already resident; a completion that raises gives the emergency
        report. */
    lemma ServedOutcomes(before: Residency, image: seq<byte>, deep: bool,
                         fetch: (string, string) -> bool, constructs: string -> bool,
                         infer: (Llama, nat, seq<byte>) -> Inference, loads: string -> Option<Json>)
      ensures var a := Served(before, image, deep, fetch, constructs, infer, loads);
              var model := LoadedAfter(before, TierFor(deep), fetch, constructs).Of(TierFor(deep));
              && (a.Err? <==> model.None?)
              && (before.Of(TierFor(deep)).Some? ==> a.Ok?)
              && (model.Some? && infer(model.value, MaxTokens(deep), image) == InferenceFailed
                  ==> a == Ok(EmergencyReport()))
    {
    }

    function RepoOf(tier: Tier): string
    {
      if tier == Light then lightRepo else heavyRepo
    }

    function FileOf(tier: Tier): string
    {
      if tier == Light then lightFile else heavyFile
    }

    /** `LocalIntelligenceClient.__init__`: no model is loaded. `disk` is
        what the directory already holds. */
    constructor (modelsDir: string, lightRepo: string, lightFile: string, heavyRepo: string, heavyFile: string,
                 disk: set<string>)
      ensures Valid()
      ensures this.modelsDir == modelsDir && this.disk == disk
      ensures this.lightRepo == lightRepo && this.lightFile == lightFile
      ensures this.heavyRepo == heavyRepo && this.heavyFile == heavyFile
      ensures lightModel == None && heavyModel == None && log == []
    {
      this.modelsDir := modelsDir;
      this.lightRepo := lightRepo;
      this.lightFile := lightFile;
      this.heavyRepo := heavyRepo;
      this.heavyFile := heavyFile;
      this.disk := disk;
      lightModel := None;
      heavyModel := None;
      log := [];
    }

    /** `_get_model_path`: `hf_hub_download` into the models directory;
        `None` when it raises. */
    method GetModelPath(repo: string, filename: string, fetch: (string, string) -> bool) returns (path: Option<string>)
      modifies this`disk, this`log
      ensures log == old(log) + [Fetch(repo, filename)]
      ensures fetch(repo, filename) ==> path == Some(JoinPath(modelsDir, filename)) && disk == old(disk) + {filename}
      ensures !fetch(repo, filename) ==> path == None && disk == old(disk)
    {
      log := log + [Fetch(repo, filename)];
      if !fetch(repo, filename) {
        return None;
      }
      disk := disk + {filename};
      path := Some(JoinPath(modelsDir, filename));
    }

    /** The `missing` loop of `ensure_models_available`: the required
        files whose path is not a file. */
    method FindMissing() returns (missing: seq<Source>)
      ensures missing == MissingOf(Required(), disk)
    {
      var required := Required();
      missing := [];
      for i := 0 to |required|
        invariant missing == MissingOf(required[..i], disk)
      {
        assert required[..i + 1][..i] == required[..i];
        var (repo, filename) := required[i];
        if filename !in disk {
          missing := missing + [(repo, filename)];
        }
      }
      assert required[..|required|] == required;
    }

    /** The download loop of `ensure_models_available`: stops at the first
        file that fails to download. */
    method DownloadAll(missing: seq<Source>, fetch: (string, string) -> bool) returns (ok: bool)
      modifies this`disk, this`log
      ensures ok <==> FirstFailure(missing, fetch) == |missing|
      ensures log == old(log) + FetchLog(missing[..Tried(missing, fetch)])
      ensures disk == old(disk) + NamesOf(missing[..FirstFailure(missing, fetch)])
    {
      for i := 0 to |missing|
        invariant forall j :: 0 <= j < i ==> fetch(missing[j].0, missing[j].1)
        invariant log == old(log) + FetchLog(missing[..i])
        invariant disk == old(disk) + NamesOf(missing[..i])
      {
        assert missing[..i + 1][..i] == missing[..i];
        var (repo, filename) := missing[i];
        var path := GetModelPath(repo, filename, fetch);
        if path.None? {
          FirstFailureAt(missing, fetch, i);
          return false;
        }
      }
      assert missing[..|missing|] == missing;
      FirstFailureAt(missing, fetch, |missing|);
      ok := true;
    }

    /** `ensure_models_available`. */
    method EnsureModelsAvailable(downloadMissing: bool, fetch: (string, string) -> bool) returns (ok: bool)
      modifies this`disk, this`log
      ensures ok <==> Available(old(disk), downloadMissing, fetch)
      ensures var missing := MissingOf(Required(), old(disk));
              if missing == [] || !downloadMissing then disk == old(disk) && log == old(log)
              else log == old(log) + FetchLog(missing[..Tried(missing, fetch)])
                   && disk == old(disk) + NamesOf(missing[..FirstFailure(missing, fetch)])
      ensures disk == Ensured(old(disk), downloadMissing, fetch)
      ensures log == old(log) + EnsureLog(old(disk), downloadMissing, fetch)
      ensures ok ==> lightFile in disk && heavyFile in disk
    {
      var missing := FindMissing();
      if missing == [] {
        return true;
      }
      if !downloadMissing {
        return false;
      }
      ok := DownloadAll(missing, fetch);
      if ok {
        assert missing[..|missing|] == missing;
        MissingAreFetched(Required(), old(disk), missing);
      }
    }

    /** `_load_model(tier)`: a resident tier is left alone; otherwise the
        other tier is released first, then the file is looked up and the
        model constructed. A failure of either propagates (`Some`). */
    method LoadModel(tier: Tier, fetch: (string, string) -> bool, constructs: string -> bool)
      returns (failure: Option<Failure>)
      requires Valid()
      modifies this`lightModel, this`heavyModel, this`disk, this`log
      ensures Valid()
      ensures Resident() == LoadedAfter(old(Resident()), tier, fetch, constructs)
      ensures disk == LoadedDisk(old(Resident()), old(disk), tier, fetch)
      ensures log == old(log) + LoadLog(old(Resident()), tier, fetch)
      ensures old(Resident().Of(tier)).Some? ==> failure.None?
      ensures old(Resident().Of(tier)).None? ==>
                var fetched := fetch(RepoOf(tier), FileOf(tier));
                var path := JoinPath(modelsDir, FileOf(tier));
                && (failure.None? <==> fetched && constructs(path))
                && (!fetched ==> failure == Some(DownloadFailed(FileOf(tier))))
                && (fetched && !constructs(path) ==> failure == Some(ConstructFailed(path)))
    {
      if Resident().Of(tier).Some? {
        return None;
      }
      if Resident().Of(Other(tier)).Some? {
        if tier == Light { heavyModel := None; } else { lightModel := None; }
        log := log + [Release(Other(tier))];
      }
      var path := GetModelPath(RepoOf(tier), FileOf(tier), fetch);
      if path.None? {
        return Some(DownloadFailed(FileOf(tier)));
      }
      log := log + [Construct(tier, path.value)];
      if !constructs(path.value) {
        return Some(ConstructFailed(path.value));
      }
      var model := Llama(path.value, ContextSize(tier), Verbose(tier));
      if tier == Light { lightModel := Some(model); } else { heavyModel := Some(model); }
      failure := None;
    }

    /** `analyze_image`. The result is the report, or the failure of
        `_load_model`, which is called outside the `try` and so escapes. */
    method AnalyzeImage(image: seq<byte>, deep: bool, fetch: (string, string) -> bool, constructs: string -> bool,
                        infer: (Llama, nat, seq<byte>) -> Inference, loads: string -> Option<Json>)
      returns (r: Result<Json, Failure>)
      requires Valid()
      modifies this`lightModel, this`heavyModel, this`disk, this`log
      ensures Valid()
      ensures r == Analysis(old(Resident()), old(disk), image, deep, fetch, constructs, infer, loads)
      ensures AnalyzedFrom(old(Resident()), old(disk), old(log), image, deep, fetch, constructs)
    {
      var available := EnsureModelsAvailable(true, fetch);
      if !available {
        return Ok(UnavailableReport());
      }
      r := Serve(image, deep, fetch, constructs, infer, loads);
    }

    /** The part of `analyze_image` after the availability check: load the
        selected tier, then run the completion. */
    method Serve(image: seq<byte>, deep: bool, fetch: (string, string) -> bool, constructs: string -> bool,
                 infer: (Llama, nat, seq<byte>) -> Inference, loads: string -> Option<Json>)
      returns (r: Result<Json, Failure>)
      requires Valid()
      modifies this`lightModel, this`heavyModel, this`disk, this`log
      ensures Valid()
      ensures r == Served(old(Resident()), image, deep, fetch, constructs, infer, loads)
      ensures Resident() == LoadedAfter(old(Resident()), TierFor(deep), fetch, constructs)
      ensures disk == LoadedDisk(old(Resident()), old(disk), TierFor(deep), fetch)
      ensures log == old(log) + ServeLog(old(Resident()), image, deep, fetch, constructs)
    {
      var tier := TierFor(deep);
      ghost var before := Resident();
      var failure := LoadModel(tier, fetch, constructs);
      LoadKeepsOneResident(before, tier, ResidentPath(tier, fetch), constructs(JoinPath(modelsDir, FileOf(tier))));
      if failure.Some? {
        assert ServeLog(before, image, deep, fetch, constructs) == LoadLog(before, tier, fetch) + [];
        return Err(failure.value);
      }
      var report := Complete(image, deep, infer, loads);
      r := Ok(report);
    }

    /** The `try` block of `analyze_image`: one chat completion on the
        resident model of the selected tier. */
    method Complete(image: seq<byte>, deep: bool, infer: (Llama, nat, seq<byte>) -> Inference,
                    loads: string -> Option<Json>) returns (report: Json)
      requires Resident().Of(TierFor(deep)).Some?
      modifies this`log
      ensures var model := Resident().Of(TierFor(deep)).value;
              && log == old(log) + [Infer(model, MaxTokens(deep), image)]
              && report == Reported(infer(model, MaxTokens(deep), image), loads)
    {
      var model := if deep then heavyModel else lightModel;
      log := log + [Infer(model.value, MaxTokens(deep), image)];
      var answer := infer(model.value, MaxTokens(deep), image);
      report := Reported(answer, loads);
    }
  }

  /** The report `analyze_image` builds from the chat completion: an
      exception, or content that is not a string (on which `_parse_local_response`
      raises a `TypeError` while building its fallback), gives the
      emergency report. */
  function Reported(answer: Inference, loads: string -> Option<Json>): Json
  {
    match answer
    case InferenceFailed => EmergencyReport()
    case Content(content) =>
      if content.JStr? then ParseLocalResponse(content.s, loads) else EmergencyReport()
  }

  lemma FirstFailureAt(sources: seq<Source>, fetch: (string, string) -> bool, k: nat)
    requires k <= |sources|
    requires forall j :: 0 <= j < k ==> fetch(sources[j].0, sources[j].1)
    requires k < |sources| ==> !fetch(sources[k].0, sources[k].1)
    ensures FirstFailure(sources, fetch) == k
  {
  }

  /** Once every missing file is downloaded, every required file is on
      disk. */
  lemma {:induction false} MissingAreFetched(required: seq<Source>, disk: set<string>, missing: seq<Source>)
    requires missing == MissingOf(required, disk)
    ensures forall j :: 0 <= j < |required| ==> required[j].1 in disk + NamesOf(missing)
  {
    if required != [] {
      var init := required[..|required| - 1];
      var last := required[|required| - 1];
      var m0 := MissingOf(init, disk);
      MissingAreFetched(init, disk, m0);
      NamesOfAppend(m0, if last.1 !in disk then [last] else []);
      forall j | 0 <= j < |required|
        ensures required[j].1 in disk + NamesOf(missing)
      {
        if j < |required| - 1 {
          assert required[j] == init[j];
        }
      }
    }
  }

  lemma {:induction false} NamesOfAppend(a: seq<Source>, b: seq<Source>)
    ensures NamesOf(a + b) == NamesOf(a) + NamesOf(b)
    decreases |b|
  {
    if b == [] {
      assert a + b == a;
    } else {
      var b0 := b[..|b| - 1];
      assert (a + b)[..|a + b| - 1] == a + b0;
      NamesOfAppend(a, b0);
      assert NamesOf(b) == NamesOf(b0) + {b[|b| - 1].1};
    }
  }
}
