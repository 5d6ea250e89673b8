/** The Gemini client (source: app/core/intelligence.py): an ordered list of
    model ids tried one after the other until one answers with non-empty
    text.

    The SDK is replaced by a script of outcomes: `outcomes[i]` is what the
    i-th model of the list does with the request. PIL's image decoding is
    the predicate `decodes`. */
module Intelligence {
  import opened Common

  const MissingKeyError := "GOOGLE_API_KEY must be set in .env"
  const AllFailedPrefix := "All models failed. Last error: "

  /** What one model does with the request: raise an exception (whose
      `str` is given), or answer with `response.text`. */
  datatype Outcome = Threw(error: string) | Answered(text: string)

  /** One `generate_content(prompt, image_bytes)` call: the image bytes and
      what each configured model does with the prompt. */
  datatype Request = Request(image: seq<byte>, script: seq<Outcome>)

  /** A constructed client: the configured model ids, in priority order,
      and the requests made through it so far. */
  class GeminiClient {
    const models: seq<string>
    ghost var requests: seq<Request>

    /** The part of `GeminiClient.__init__` after the key check. */
    constructor (models: seq<string>)
      ensures this.models == models && requests == []
    {
      this.models := models;
      requests := [];
    }

    /** `GeminiClient.generate_content`. `tried` lists the models invoked,
        in the order they were invoked. */
    method GenerateContent(image: seq<byte>, decodes: seq<byte> -> bool, outcomes: seq<Outcome>)
      returns (r: Generation, ghost tried: seq<string>)
      requires |outcomes| == |models|
      modifies this`requests
      ensures requests == old(requests) + [Request(image, outcomes)]
      ensures r == Generate(this, image, decodes, outcomes)
      ensures r == ImageUnreadable ==> tried == []
      ensures r != ImageUnreadable ==> tried == models[..Invoked(outcomes)]
    {
      requests := requests + [Request(image, outcomes)];
      tried := [];
      if |image| > 0 && !decodes(image) {
        return ImageUnreadable, tried;
      }
      var lastError: Option<string> := None;
      for i := 0 to |models|
        invariant tried == models[..i]
        invariant forall j :: 0 <= j < i ==> !IsSuccess(outcomes[j])
        invariant Fallback(outcomes, None) == Fallback(outcomes[i..], lastError)
      {
        tried := tried + [models[i]];
        assert outcomes[i..][1..] == outcomes[i + 1..];
        match outcomes[i]
        case Answered(text) =>
          if text != "" {
            assert FirstSuccess(outcomes) == i by { FirstSuccessAt(outcomes, i); }
            assert tried == models[..i + 1];
            return Generated(text), tried;
          }
        case Threw(error) =>
          lastError := Some(error);
      }
      assert outcomes[|models|..] == [];
      assert FirstSuccess(outcomes) == |outcomes| by { FirstSuccessAt(outcomes, |outcomes|); }
      r := AllFailed(FailureMessage(lastError));
    }
  }

  /** `GeminiClient.__init__`: construction raises `ValueError` without an
      API key. */
  method Connect(apiKey: string, models: seq<string>) returns (r: Result<GeminiClient, string>)
    ensures r.Ok? <==> apiKey != ""
    ensures r.Ok? ==> fresh(r.value) && r.value.models == models && r.value.requests == []
    ensures r.Err? ==> r.error == MissingKeyError
  {
    if apiKey == "" {
      return Err(MissingKeyError);
    }
    var client := new GeminiClient(models);
    r := Ok(client);
  }

  /** An answer with truthy text ends the fallback chain. */
  predicate IsSuccess(o: Outcome)
  {
    o.Answered? && o.text != ""
  }

  /** What `generate_content` does: return text, re-raise the image
      decoding error, or raise `RuntimeError` with the given message. */
  datatype Generation = Generated(text: string) | ImageUnreadable | AllFailed(message: string)

  /** `f"All models failed. Last error: {last_error}"`; no error prints as
      `None`. */
  function FailureMessage(lastError: Option<string>): string
  {
    AllFailedPrefix + (if lastError.None? then "None" else lastError.value)
  }

  /** The fallback loop over the outcomes still to try, with `lastError`
      the error of the latest model that raised. */
  function Fallback(outcomes: seq<Outcome>, lastError: Option<string>): (g: Generation)
    ensures g.Generated? || g.AllFailed?
    ensures g.Generated? ==> g.text != ""
  {
    if outcomes == [] then AllFailed(FailureMessage(lastError))
    else match outcomes[0]
      case Answered(text) =>
        if text != "" then Generated(text) else Fallback(outcomes[1..], lastError)
      case Threw(error) => Fallback(outcomes[1..], Some(error))
  }

  /** `generate_content`: the image is decoded before any model is tried. */
  function Generate(client: GeminiClient, image: seq<byte>, decodes: seq<byte> -> bool, outcomes: seq<Outcome>): Generation
  {
    if |image| > 0 && !decodes(image) then ImageUnreadable else Fallback(outcomes, None)
  }

  /** The index of the first successful outcome, or `|outcomes|`. */
  function FirstSuccess(outcomes: seq<Outcome>): (k: nat)
    ensures k <= |outcomes|
    ensures forall j :: 0 <= j < k ==> !IsSuccess(outcomes[j])
    ensures k < |outcomes| ==> IsSuccess(outcomes[k])
  {
    if outcomes == [] then 0
    else if IsSuccess(outcomes[0]) then 0
    else 1 + FirstSuccess(outcomes[1..])
  }

  /** The error of the last outcome in `outcomes` that raised. */
  function LastThrown(outcomes: seq<Outcome>): (e: Option<string>)
    ensures e.None? <==> forall j :: 0 <= j < |outcomes| ==> !outcomes[j].Threw?
  {
    if outcomes == [] then None
    else if outcomes[|outcomes| - 1].Threw? then Some(outcomes[|outcomes| - 1].error)
    else LastThrown(outcomes[..|outcomes| - 1])
  }

  /** The error `LastThrown` reports is the one of an outcome that raised,
      with no outcome after it raising. */
  lemma {:induction false} LastThrownIsLast(outcomes: seq<Outcome>)
    ensures LastThrown(outcomes).Some? ==>
              exists k :: 0 <= k < |outcomes| && outcomes[k] == Threw(LastThrown(outcomes).value)
                          && forall j :: k < j < |outcomes| ==> !outcomes[j].Threw?
    decreases |outcomes|
  {
    if outcomes != [] {
      var n := |outcomes| - 1;
      if outcomes[n].Threw? {
        assert outcomes[n] == Threw(LastThrown(outcomes).value);
      } else {
        var p := outcomes[..n];
        LastThrownIsLast(p);
        if LastThrown(p).Some? {
          var k :| 0 <= k < |p| && p[k] == Threw(LastThrown(p).value)
                   && forall j :: k < j < |p| ==> !p[j].Threw?;
          assert outcomes[k] == p[k];
          forall j | k < j < |outcomes|
            ensures !outcomes[j].Threw?
          {
            if j < n {
              assert outcomes[j] == p[j];
            }
          }
        }
      }
    }
  }

  /** The latest error is the one of the rest if the rest raised at all. */
  lemma {:induction false} LastThrownCons(o: Outcome, rest: seq<Outcome>)
    ensures LastThrown([o] + rest)
         == if LastThrown(rest).Some? then LastThrown(rest) else if o.Threw? then Some(o.error) else None
    decreases |rest|
  {
    var s := [o] + rest;
    if rest == [] {
      assert s == [o];
      assert s[..0] == [];
    } else {
      assert s[|s| - 1] == rest[|rest| - 1];
      if !rest[|rest| - 1].Threw? {
        assert s[..|s| - 1] == [o] + rest[..|rest| - 1];
        LastThrownCons(o, rest[..|rest| - 1]);
      }
    }
  }

  /** The fallback chain, characterised: the first successful model's text
      is returned; with none, the failure names the error of the last model
      that raised (empty answers do not count as errors). */
  lemma {:induction false} FallbackIsFirstSuccess(outcomes: seq<Outcome>, lastError: Option<string>)
    ensures var k := FirstSuccess(outcomes);
            Fallback(outcomes, lastError)
            == if k < |outcomes| then Generated(outcomes[k].text)
               else AllFailed(FailureMessage(if LastThrown(outcomes).Some? then LastThrown(outcomes) else lastError))
  {
    if outcomes != [] {
      var o := outcomes[0];
      var rest := outcomes[1..];
      assert outcomes == [o] + rest;
      LastThrownCons(o, rest);
      if !IsSuccess(o) {
        FallbackIsFirstSuccess(rest, if o.Threw? then Some(o.error) else lastError);
      }
    }
  }

  /** The chain raises exactly when no model succeeds, in particular when
      the list of models is empty. */
  lemma AllFailIffNoSuccess(outcomes: seq<Outcome>)
    ensures Fallback(outcomes, None).AllFailed? <==> forall j :: 0 <= j < |outcomes| ==> !IsSuccess(outcomes[j])
    ensures outcomes == [] ==> Fallback(outcomes, None) == AllFailed(FailureMessage(None))
  {
    FallbackIsFirstSuccess(outcomes, None);
  }

  /** Only raised errors are remembered: when every model answered with
      empty text the failure message names no error. */
  lemma EmptyAnswersAreNotErrors(outcomes: seq<Outcome>)
    requires forall j :: 0 <= j < |outcomes| ==> outcomes[j] == Answered("")
    ensures Fallback(outcomes, None) == AllFailed(AllFailedPrefix + "None")
  {
    FallbackIsFirstSuccess(outcomes, None);
  }

  /** The number of models `generate_content` invokes: up to and including
      the first success, or all of them. */
  function Invoked(outcomes: seq<Outcome>): (n: nat)
    ensures n <= |outcomes|
  {
    var k := FirstSuccess(outcomes);
    if k < |outcomes| then k + 1 else |outcomes|
  }

  lemma FirstSuccessAt(outcomes: seq<Outcome>, k: nat)
    requires k <= |outcomes|
    requires forall j :: 0 <= j < k ==> !IsSuccess(outcomes[j])
    requires k < |outcomes| ==> IsSuccess(outcomes[k])
    ensures FirstSuccess(outcomes) == k
  {
  }
}
