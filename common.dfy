/** Values shared by the whole pipeline: optional values, results, the JSON
    values exchanged with the search API and the models, and the few pieces of
    Python string semantics (whitespace, strip, slicing, `str(int)`) that the
    core's text shaping depends on. */
module Common {

  datatype Option<+T> = None | Some(value: T)

  datatype Result<+T, +E> = Ok(value: T) | Err(error: E)

  /** A byte of an uploaded image. */
  newtype byte = x: int | 0 <= x < 256

  /** A JSON value as `json.loads` returns it. Python's `None` and JSON
      `null` are the same object, so `JNull` also stands for `None`.
      Numbers keep their literal text: no arithmetic is done on them. */
  datatype Json =
    | JNull
    | JBool(b: bool)
    | JNum(literal: string)
    | JStr(s: string)
    | JArr(elems: seq<Json>)
    | JObj(fields: map<string, Json>)

  /** Python's `dict.get(key)`: a missing key reads as `None`. */
  function Get(m: map<string, Json>, key: string): (r: Json)
    ensures key !in m ==> r == JNull
    ensures key in m ==> r == m[key]
  {
    if key in m then m[key] else JNull
  }

  /** Truthiness of an optional string (`None` and `""` are falsy). */
  predicate Truthy(s: Option<string>)
  {
    s.Some? && s.value != ""
  }

  /** The characters for which Python's `str.isspace()` holds; the regular
      expression class `\s` on `str` patterns matches the same ones. */
  predicate IsSpace(c: char)
  {
    c == ' ' || ('\t' <= c <= '\r') || ('\U{1C}' <= c <= '\U{1F}')
    || c == '\U{85}' || c == '\U{A0}' || c == '\U{1680}'
    || ('\U{2000}' <= c <= '\U{200A}') || c == '\U{2028}' || c == '\U{2029}'
    || c == '\U{202F}' || c == '\U{205F}' || c == '\U{3000}'
  }

  predicate AllSpace(s: string)
  {
    forall i :: 0 <= i < |s| ==> IsSpace(s[i])
  }

  /** Neither end of `s` is whitespace. */
  predicate Stripped(s: string)
  {
    s == [] || (!IsSpace(s[0]) && !IsSpace(s[|s| - 1]))
  }

  /** Python's `s.lstrip()`: a suffix of `s` (`TrimLeftSuffix`) from which
      only whitespace was dropped (`TrimLeftCuts`). */
  function TrimLeft(s: string): (r: string)
    ensures |r| <= |s|
    ensures r == [] || !IsSpace(r[0])
  {
    if |s| > 0 && IsSpace(s[0]) then TrimLeft(s[1..]) else s
  }

  /** Python's `s.rstrip()`: a prefix of `s` (`TrimRightPrefix`,
      `TrimRightCuts`). */
  function TrimRight(s: string): (r: string)
    ensures |r| <= |s|
    ensures r == [] || (!IsSpace(r[|r| - 1]) && r[0] == s[0])
  {
    if |s| > 0 && IsSpace(s[|s| - 1]) then TrimRight(s[..|s| - 1]) else s
  }

  lemma {:induction false} TrimLeftSuffix(s: string)
    ensures TrimLeft(s) == s[|s| - |TrimLeft(s)|..]
  {
    if |s| > 0 && IsSpace(s[0]) {
      TrimLeftSuffix(s[1..]);
    }
  }

  lemma {:induction false} TrimRightPrefix(s: string)
    ensures TrimRight(s) == s[..|TrimRight(s)|]
  {
    if |s| > 0 && IsSpace(s[|s| - 1]) {
      TrimRightPrefix(s[..|s| - 1]);
    }
  }

  lemma {:induction false} TrimLeftCuts(s: string)
    ensures forall j :: 0 <= j < |s| - |TrimLeft(s)| ==> IsSpace(s[j])
  {
    if |s| > 0 && IsSpace(s[0]) {
      TrimLeftCuts(s[1..]);
    }
  }

  lemma {:induction false} TrimRightCuts(s: string)
    ensures forall j :: |TrimRight(s)| <= j < |s| ==> IsSpace(s[j])
  {
    if |s| > 0 && IsSpace(s[|s| - 1]) {
      TrimRightCuts(s[..|s| - 1]);
    }
  }

  /** Python's `s.strip()`: the longest middle part of `s` with no
      whitespace at either end (`StripCuts`). */
  function Strip(s: string): (r: string)
    ensures Stripped(r)
    ensures |r| <= |s|
  {
    TrimRight(TrimLeft(s))
  }

  /** What `strip` removes is whitespace, from the two ends only. */
  lemma StripCuts(s: string)
    ensures var r := Strip(s); var i := |s| - |TrimLeft(s)|;
            i + |r| <= |s| && r == s[i..i + |r|]
            && (forall j :: 0 <= j < i ==> IsSpace(s[j]))
            && (forall j :: i + |r| <= j < |s| ==> IsSpace(s[j]))
  {
    TrimLeftSuffix(s);
    TrimRightPrefix(TrimLeft(s));
    TrimLeftCuts(s);
    TrimRightCuts(TrimLeft(s));
    CutTwice(s, TrimLeft(s), Strip(s));
  }

  lemma CutTwice(s: string, l: string, r: string)
    requires |l| <= |s| && l == s[|s| - |l|..] && |r| <= |l| && r == l[..|r|]
    requires forall j :: 0 <= j < |s| - |l| ==> IsSpace(s[j])
    requires forall j :: |r| <= j < |l| ==> IsSpace(l[j])
    ensures var i := |s| - |l|;
            i + |r| <= |s| && r == s[i..i + |r|]
            && (forall j :: 0 <= j < i ==> IsSpace(s[j]))
            && (forall j :: i + |r| <= j < |s| ==> IsSpace(s[j]))
  {
    var i := |s| - |l|;
    assert forall j :: i + |r| <= j < |s| ==> s[j] == l[j - i];
  }

  lemma {:induction false} TrimLeftOfStripped(s: string)
    requires s == [] || !IsSpace(s[0])
    ensures TrimLeft(s) == s
  {
  }

  lemma {:induction false} TrimRightOfStripped(s: string)
    requires s == [] || !IsSpace(s[|s| - 1])
    ensures TrimRight(s) == s
  {
  }

  /** Stripping a string that is already stripped changes nothing. */
  lemma StripStripped(s: string)
    requires Stripped(s)
    ensures Strip(s) == s
  {
    TrimLeftOfStripped(s);
    TrimRightOfStripped(s);
  }

  /** Leading whitespace never survives `lstrip`. */
  lemma {:induction false} TrimLeftSkipsSpace(w: string, s: string)
    requires AllSpace(w)
    ensures TrimLeft(w + s) == TrimLeft(s)
  {
    if w == [] {
      assert w + s == s;
    } else {
      var ws := w + s;
      assert ws[0] == w[0] && IsSpace(ws[0]);
      assert TrimLeft(ws) == TrimLeft(ws[1..]);
      assert ws[1..] == w[1..] + s;
      TrimLeftSkipsSpace(w[1..], s);
    }
  }

  /** Trailing whitespace never survives `rstrip`. */
  lemma {:induction false} TrimRightSkipsSpace(s: string, w: string)
    requires AllSpace(w)
    ensures TrimRight(s + w) == TrimRight(s)
  {
    if w == [] {
      assert s + w == s;
    } else {
      var sw := s + w;
      assert sw[|sw| - 1] == w[|w| - 1] && IsSpace(sw[|sw| - 1]);
      assert TrimRight(sw) == TrimRight(sw[..|sw| - 1]);
      assert sw[..|sw| - 1] == s + w[..|w| - 1];
      TrimRightSkipsSpace(s, w[..|w| - 1]);
    }
  }

  /** Whitespace around a string is exactly what `strip` removes. */
  lemma StripPadded(w1: string, s: string, w2: string)
    requires AllSpace(w1) && AllSpace(w2)
    ensures Strip(w1 + s + w2) == Strip(s)
  {
    var b := s + w2;
    assert w1 + s + w2 == w1 + b;
    calc {
      Strip(w1 + b);
      TrimRight(TrimLeft(w1 + b));
      { TrimLeftSkipsSpace(w1, b); }
      TrimRight(TrimLeft(b));
      { TrimLeftPadded(s, w2); }
      TrimRight(TrimLeft(s) + w2);
      { TrimRightSkipsSpace(TrimLeft(s), w2); }
      TrimRight(TrimLeft(s));
      Strip(s);
    }
  }

  lemma {:induction false} TrimLeftPadded(s: string, w: string)
    requires AllSpace(w)
    ensures TrimRight(TrimLeft(s + w)) == TrimRight(TrimLeft(s) + w)
  {
    if s == [] {
      assert s + w == w && [] + w == w && w + [] == w;
      TrimLeftSkipsSpace(w, []);
      TrimRightSkipsSpace([], w);
    } else if IsSpace(s[0]) {
      assert (s + w)[1..] == s[1..] + w;
      TrimLeftPadded(s[1..], w);
    } else {
    }
  }

  /** Python's `s[:n]`. */
  function Take(s: string, n: nat): (r: string)
    ensures |r| == Min(n, |s|)
    ensures r == s[..|r|]
  {
    if |s| <= n then s else s[..n]
  }

  function Min(a: int, b: int): int
  {
    if a <= b then a else b
  }

  /** Python's `s[start:end]` for non-negative bounds: both ends are
      clipped to the length, and an empty range gives "". */
  function Slice(s: string, start: nat, end: nat): (r: string)
    ensures start <= end <= |s| ==> r == s[start..end]
    ensures end <= start ==> r == []
  {
    var lo := Min(start, |s|);
    var hi := Min(end, |s|);
    if hi <= lo then [] else s[lo..hi]
  }

  /** `b` raised to the power `n`. */
  function Pow(b: real, n: nat): real
  {
    if n == 0 then 1.0 else b * Pow(b, n - 1)
  }

  /** The decimal digit for `d`. */
  function Digit(d: nat): char
    requires d < 10
  {
    "0123456789"[d]
  }

  /** Python's `str(n)` for a natural number. */
  function NatToDecimal(n: nat): (r: string)
    ensures |r| >= 1
    decreases n
  {
    if n < 10 then [Digit(n)] else NatToDecimal(n / 10) + [Digit(n % 10)]
  }

  /** Python's `str(n)` for an integer. */
  function IntToDecimal(n: int): string
  {
    if n < 0 then "-" + NatToDecimal(-n) else NatToDecimal(n)
  }
}
