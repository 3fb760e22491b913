/**
 * The string operations the request handlers apply to form fields:
 * `str.strip()`, `str.lower()`, `str.startswith` and `str.replace(old, new, 1)`.
 */
module Text {
  import opened Wrappers

  /** Python's `str.isspace()` for one character: the characters `str.strip()` removes. */
  predicate IsSpace(c: char) {
    var n := c as int;
    || (0x09 <= n <= 0x0D)
    || (0x1C <= n <= 0x20)
    || n == 0x85 || n == 0xA0 || n == 0x1680
    || (0x2000 <= n <= 0x200A)
    || n == 0x2028 || n == 0x2029 || n == 0x202F || n == 0x205F || n == 0x3000
  }

  /** True when every character of `s` is whitespace (so `s.strip()` is falsy). */
  ghost predicate AllSpace(s: string) {
    forall k :: 0 <= k < |s| ==> IsSpace(s[k])
  }

  /** True when `s` neither starts nor ends with whitespace. */
  predicate Trimmed(s: string) {
    s == [] || (!IsSpace(s[0]) && !IsSpace(s[|s| - 1]))
  }

  /** `r` is `s` with `i` whitespace characters cut from its front and the rest of the cut from its back. */
  ghost predicate CutFrom(s: string, r: string, i: int) {
    && 0 <= i && i + |r| <= |s|
    && r == s[i..i + |r|]
    && (forall k :: 0 <= k < i ==> IsSpace(s[k]))
    && (forall k :: i + |r| <= k < |s| ==> IsSpace(s[k]))
  }

  /** `s.lstrip()`: drops leading whitespace. */
  function StripLeft(s: string): string {
    if s != [] && IsSpace(s[0]) then StripLeft(s[1..]) else s
  }

  /** `lstrip()` keeps a suffix, having cut only whitespace, and leaves no whitespace in front. */
  lemma {:induction false} StripLeftSpec(s: string)
    ensures |StripLeft(s)| <= |s| && StripLeft(s) == s[|s| - |StripLeft(s)|..]
    ensures forall k :: 0 <= k < |s| - |StripLeft(s)| ==> IsSpace(s[k])
    ensures StripLeft(s) != [] ==> !IsSpace(StripLeft(s)[0])
  {
    if s != [] && IsSpace(s[0]) {
      var t, r := s[1..], StripLeft(s);
      StripLeftSpec(t);
      assert r == StripLeft(t) && r == t[|t| - |r|..];
      assert t[|t| - |r|..] == s[|s| - |r|..];
      forall k | 1 <= k < |s| - |r|
        ensures IsSpace(s[k])
      {
        assert s[k] == t[k - 1];
      }
    }
  }

  /** `s.rstrip()`: drops trailing whitespace. */
  function StripRight(s: string): string {
    if s != [] && IsSpace(s[|s| - 1]) then StripRight(s[..|s| - 1]) else s
  }

  /** `rstrip()` keeps a prefix, having cut only whitespace, and leaves no whitespace at the back. */
  lemma {:induction false} StripRightSpec(s: string)
    ensures |StripRight(s)| <= |s| && StripRight(s) == s[..|StripRight(s)|]
    ensures forall k :: |StripRight(s)| <= k < |s| ==> IsSpace(s[k])
    ensures StripRight(s) != [] ==> !IsSpace(StripRight(s)[|StripRight(s)| - 1])
  {
    if s != [] && IsSpace(s[|s| - 1]) {
      var t, r := s[..|s| - 1], StripRight(s);
      StripRightSpec(t);
      assert r == StripRight(t) && r == t[..|r|];
      assert t[..|r|] == s[..|r|];
      forall k | |r| <= k < |s| - 1
        ensures IsSpace(s[k])
      {
        assert s[k] == t[k];
      }
    }
  }

  /** `s.strip()`: never longer than its argument; `StripSpec` and `StripCuts` say what it keeps. */
  function Strip(s: string): (r: string)
    ensures |r| <= |s|
  {
    StripLeftSpec(s);
    StripRightSpec(StripLeft(s));
    StripRight(StripLeft(s))
  }

  /**
   * What `strip()` promises: the result is trimmed, and it is empty exactly
   * when `s` is all whitespace (which is how every "required field" check of
   * the handlers treats a blank field).
   */
  lemma StripSpec(s: string)
    ensures Trimmed(Strip(s))
    ensures Strip(s) == [] <==> AllSpace(s)
  {
    StripLeftSpec(s);
    StripRightSpec(StripLeft(s));
    StripCuts(s);
  }

  /** `strip()` cuts whitespace from the two ends of its argument and nothing else. */
  lemma StripCuts(s: string)
    ensures CutFrom(s, Strip(s), |s| - |StripLeft(s)|)
  {
    var l := StripLeft(s);
    var r := StripRight(l);
    StripLeftSpec(s);
    StripRightSpec(l);
    var i := |s| - |l|;
    assert r == s[i..i + |r|] by {
      assert r == l[..|r|] && l == s[i..];
    }
    SpaceAfterSuffix(s, i, |r|);
  }

  /** Whitespace after `m` characters of the suffix `s[i..]` is whitespace of `s` from index `i + m` on. */
  lemma SpaceAfterSuffix(s: string, i: nat, m: nat)
    requires i + m <= |s|
    requires forall k :: m <= k < |s| - i ==> IsSpace(s[i..][k])
    ensures forall k :: i + m <= k < |s| ==> IsSpace(s[k])
  {
    forall k | i + m <= k < |s|
      ensures IsSpace(s[k])
    {
      assert s[k] == s[i..][k - i];
    }
  }

  /** A string that already has no whitespace at either end is left alone by `strip()`. */
  lemma StripTrimmed(s: string)
    requires Trimmed(s)
    ensures Strip(s) == s
  {
  }

  /** `strip()` is idempotent. */
  lemma StripIdempotent(s: string)
    ensures Strip(Strip(s)) == Strip(s)
  {
    StripSpec(s);
    StripTrimmed(Strip(s));
  }

  /** One character of `str.lower()`, restricted to ASCII letters. */
  function LowerChar(c: char): char {
    if 'A' <= c <= 'Z' then (c as int + 32) as char else c
  }

  /** `s.lower()`, character by character. */
  function Lower(s: string): (r: string)
    ensures |r| == |s|
    ensures forall k :: 0 <= k < |s| ==> r[k] == LowerChar(s[k])
  {
    if s == [] then [] else [LowerChar(s[0])] + Lower(s[1..])
  }

  /** Lowering never turns a letter into whitespace or the other way round. */
  lemma LowerKeepsTrimmed(s: string)
    requires Trimmed(s)
    ensures Trimmed(Lower(s))
  {
  }

  /** `lower()` is idempotent. */
  lemma LowerIdempotent(s: string)
    ensures Lower(Lower(s)) == Lower(s)
  {
  }

  /**
   * The normal form of an e-mail address: `email.strip().lower()`. It is never
   * longer than the input, and neither step changes it again.
   */
  function NormalizeEmail(s: string): (r: string)
    ensures |r| <= |s|
    ensures Strip(r) == r && Lower(r) == r
  {
    var t := Strip(s);
    StripSpec(s);
    LowerKeepsTrimmed(t);
    StripTrimmed(Lower(t));
    LowerIdempotent(t);
    Lower(t)
  }

  /**
   * Normalising an already normalised address changes nothing, so every
   * address the user table stores is its own normal form.
   */
  lemma NormalizeEmailIdempotent(s: string)
    ensures NormalizeEmail(NormalizeEmail(s)) == NormalizeEmail(s)
  {
  }

  /** `pat` occurs in `s` starting at index `i`. */
  predicate OccursAt(s: string, pat: string, i: nat) {
    i + |pat| <= |s| && s[i..i + |pat|] == pat
  }

  /** `s.startswith(p)`: `p` occurs at the front of `s`, where `s.find(p)` then reports it. */
  predicate HasPrefix(s: string, p: string)
    ensures HasPrefix(s, p) <==> OccursAt(s, p, 0)
    ensures HasPrefix(s, p) ==> IndexFrom(s, p, 0) == Some(0)
  {
    |p| <= |s| && s[..|p|] == p
  }

  /** The search inside `replace(pat, rep, 1)`: the first index at or after `from` where `pat` occurs. */
  function IndexFrom(s: string, pat: string, from: nat): (r: Option<nat>)
    requires from <= |s|
    ensures r.Some? ==> from <= r.value && OccursAt(s, pat, r.value)
    ensures r.Some? ==> forall j :: from <= j < r.value ==> !OccursAt(s, pat, j)
    ensures r.None? ==> forall j :: from <= j <= |s| ==> !OccursAt(s, pat, j)
    decreases |s| - from
  {
    if OccursAt(s, pat, from) then Some(from)
    else if from == |s| then None
    else IndexFrom(s, pat, from + 1)
  }

  /**
   * `s.replace(pat, rep, 1)`: a string in which `pat` occurs nowhere comes back
   * unchanged; otherwise the first occurrence of `pat`, and only it, becomes `rep`.
   */
  function ReplaceFirst(s: string, pat: string, rep: string): (r: string)
    ensures (forall j :: 0 <= j <= |s| ==> !OccursAt(s, pat, j)) ==> r == s
    ensures forall i: nat ::
      && i <= |s| && OccursAt(s, pat, i)
      && (forall j :: 0 <= j < i ==> !OccursAt(s, pat, j))
      ==> r == s[..i] + rep + s[i + |pat|..]
    ensures HasPrefix(s, pat) ==> r == rep + s[|pat|..]
  {
    match IndexFrom(s, pat, 0)
    case None => s
    case Some(i) => s[..i] + rep + s[i + |pat|..]
  }
}
