/**
  Whitespace trimming shared by the backend (Python `str.strip()`) and the
  frontend (JavaScript `String.prototype.trim()`). Both are modelled with
  one fixed ASCII whitespace set; the Unicode spaces the two runtimes also
  remove are not modelled.
 */
module Text {

  /** Space, tab, line feed, carriage return, vertical tab and form feed. */
  predicate IsSpace(c: char) {
    c == ' ' || c == '\t' || c == '\n' || c == '\r' || c == '\U{000B}' || c == '\U{000C}'
  }

  /** Every character of `s` is whitespace (the empty string included). */
  predicate IsBlank(s: string) {
    forall i :: 0 <= i < |s| ==> IsSpace(s[i])
  }

  predicate StartsWith(s: string, prefix: string) {
    |prefix| <= |s| && s[..|prefix|] == prefix
  }

  predicate EndsWith(s: string, suffix: string) {
    |suffix| <= |s| && s[|s| - |suffix|..] == suffix
  }

  /** `s` with its leading whitespace removed: the longest suffix of `s`
      that does not start with whitespace, everything before it blank. */
  function TrimStart(s: string): (r: string)
    ensures |r| <= |s| && r == s[|s| - |r|..]
    ensures IsBlank(s[..|s| - |r|])
    ensures r == [] || !IsSpace(r[0])
  {
    if |s| > 0 && IsSpace(s[0]) then
      var r := TrimStart(s[1..]);
      assert s[..|s| - |r|] == [s[0]] + s[1..][..|s| - 1 - |r|];
      r
    else
      s
  }

  /** `s` with its trailing whitespace removed: the longest prefix of `s`
      that does not end with whitespace, everything after it blank. */
  function TrimEnd(s: string): (r: string)
    ensures |r| <= |s| && r == s[..|r|]
    ensures IsBlank(s[|r|..])
    ensures r == [] || !IsSpace(r[|r| - 1])
  {
    if |s| > 0 && IsSpace(s[|s| - 1]) then
      var r := TrimEnd(s[..|s| - 1]);
      assert s[|r|..] == s[..|s| - 1][|r|..] + [s[|s| - 1]];
      r
    else
      s
  }

  /** Whitespace removed at both ends: the result neither starts nor ends
      with whitespace. */
  function Strip(s: string): (r: string)
    ensures |r| <= |s|
    ensures r == [] || (!IsSpace(r[0]) && !IsSpace(r[|r| - 1]))
  {
    TrimEnd(TrimStart(s))
  }

  /** Where the text kept by Strip begins. */
  function StripStart(s: string): nat {
    |s| - |TrimStart(s)|
  }

  /** What Strip removes is whitespace only: the result is the piece of the
      input at StripStart, with blank text before and after it. */
  lemma StripRemovesOnlyBlank(s: string)
    ensures StripStart(s) + |Strip(s)| <= |s|
    ensures s[StripStart(s)..StripStart(s) + |Strip(s)|] == Strip(s)
    ensures IsBlank(s[..StripStart(s)]) && IsBlank(s[StripStart(s) + |Strip(s)|..])
  {
    var t := TrimStart(s);
    var r := TrimEnd(t);
    var i := |s| - |t|;
    assert StripStart(s) == i && Strip(s) == r;
    SliceOfSuffix(s, t, |r|);
    assert IsBlank(s[i + |r|..]) by {
      assert s[i + |r|..] == t[|r|..];
    }
  }

  /** Slicing a suffix of `s` is slicing `s` at shifted positions. */
  lemma SliceOfSuffix(s: string, t: string, k: nat)
    requires |t| <= |s| && t == s[|s| - |t|..] && k <= |t|
    ensures s[|s| - |t|..|s| - |t| + k] == t[..k]
    ensures s[|s| - |t| + k..] == t[k..]
  {
  }

  /** Stripping leaves nothing exactly when the text is all whitespace; this
      is the test behind `!inputValue.trim()`. */
  lemma StripEmptyIffBlank(s: string)
    ensures Strip(s) == [] <==> IsBlank(s)
  {
    var t := TrimStart(s);
    if !IsBlank(s) {
      var k :| 0 <= k < |s| && !IsSpace(s[k]);
      assert k >= |s| - |t|;
    }
  }

  /** The JavaScript test `!s.trim()`: nothing is left after trimming. It
      holds exactly when `s` is all whitespace. */
  function TrimsToEmpty(s: string): (empty: bool)
    ensures empty <==> IsBlank(s)
  {
    StripEmptyIffBlank(s);
    Strip(s) == []
  }

  /** A string that does not start with whitespace is its own TrimStart. */
  lemma TrimStartNoLeadingSpace(s: string)
    requires s == [] || !IsSpace(s[0])
    ensures TrimStart(s) == s
  {
  }

  /** A string that does not end with whitespace is its own TrimEnd. */
  lemma TrimEndNoTrailingSpace(s: string)
    requires s == [] || !IsSpace(s[|s| - 1])
    ensures TrimEnd(s) == s
  {
  }

  /** Leading whitespace in front of `t` makes no difference to TrimStart. */
  lemma {:induction false} TrimStartBlankPrefix(w: string, t: string)
    requires IsBlank(w)
    ensures TrimStart(w + t) == TrimStart(t)
  {
    if w != [] {
      assert (w + t)[1..] == w[1..] + t;
      TrimStartBlankPrefix(w[1..], t);
    } else {
      assert w + t == t;
    }
  }

  /** Trailing whitespace after `t` makes no difference to TrimEnd. */
  lemma {:induction false} TrimEndBlankSuffix(t: string, w: string)
    requires IsBlank(w)
    ensures TrimEnd(t + w) == TrimEnd(t)
  {
    if w != [] {
      assert (t + w)[..|t + w| - 1] == t + w[..|w| - 1];
      TrimEndBlankSuffix(t, w[..|w| - 1]);
    } else {
      assert t + w == t;
    }
  }

  /** Trimming the front of `a + b` only reaches into `b` when `b` itself
      starts with whitespace. */
  lemma {:induction false} TrimStartAppend(a: string, b: string)
    requires b == [] || !IsSpace(b[0])
    ensures TrimStart(a + b) == TrimStart(a) + b
  {
    if a == [] {
      assert a + b == b;
      TrimStartNoLeadingSpace(b);
    } else if IsSpace(a[0]) {
      assert (a + b)[1..] == a[1..] + b;
      TrimStartAppend(a[1..], b);
    } else {
      assert (a + b)[0] == a[0];
    }
  }

  /** Whitespace around a piece that neither starts nor ends with whitespace
      is exactly what Strip removes. */
  lemma StripAround(before: string, core: string, after: string)
    requires IsBlank(before) && IsBlank(after)
    requires core == [] || (!IsSpace(core[0]) && !IsSpace(core[|core| - 1]))
    ensures Strip(before + core + after) == core
  {
    assert before + core + after == before + (core + after);
    TrimStartBlankPrefix(before, core + after);
    if core == [] {
      assert core + after == after;
      StripEmptyIffBlank(after);
    } else {
      TrimStartNoLeadingSpace(core + after);
      TrimEndBlankSuffix(core, after);
      TrimEndNoTrailingSpace(core);
    }
  }

  /** Stripping text that ends in a piece with no whitespace at either end
      only trims the front of what comes before that piece. */
  lemma StripAppend(a: string, b: string)
    requires b != [] && !IsSpace(b[0]) && !IsSpace(b[|b| - 1])
    ensures Strip(a + b) == TrimStart(a) + b
  {
    TrimStartAppend(a, b);
    var t := TrimStart(a) + b;
    assert t[|t| - 1] == b[|b| - 1];
    TrimEndNoTrailingSpace(t);
  }
}
