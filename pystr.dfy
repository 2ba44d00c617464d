/** The few Python built-ins on sequences and strings that the inference
    harness relies on: slicing with a step of one, `str.rfind` and
    `str.strip`, each stated with CPython's edge cases. */
module PyStr {

  function Min(a: int, b: int): int { if a <= b then a else b }

  /** CPython's adjustment of one slice bound against a length `n`:
      a negative bound counts from the end, and the result is clamped
      into `0..n`. */
  function ClampIndex(i: int, n: nat): (k: nat)
    ensures k <= n
    ensures 0 <= i <= n ==> k == i
    ensures i > n ==> k == n
    ensures i < 0 ==> k == if n + i < 0 then 0 else n + i
  {
    if i < 0 then (if n + i < 0 then 0 else n + i)
    else if i > n then n
    else i
  }

  /** Python `s[start:stop]` (step one). */
  function Slice<T>(s: seq<T>, start: int, stop: int): (r: seq<T>)
    ensures |r| <= |s|
    ensures 0 <= start <= stop <= |s| ==> r == s[start..stop]
    ensures 0 <= stop <= start ==> r == []
  {
    var a, b := ClampIndex(start, |s|), ClampIndex(stop, |s|);
    if a <= b then s[a..b] else []
  }

  /** Python `s[start:]`: the stop bound defaults to the end. */
  function SliceFrom<T>(s: seq<T>, start: int): (r: seq<T>)
    ensures 0 <= start <= |s| ==> r == s[start..]
    ensures |s| <= start ==> r == []
    ensures start < 0 ==> r == s[|s| - Min(-start, |s|)..]
  {
    Slice(s, start, |s|)
  }

  /** `sub` occurs in `s` starting at index `i`. */
  predicate OccursAt(s: string, sub: string, i: int) {
    0 <= i && i + |sub| <= |s| && s[i..i + |sub|] == sub
  }

  /** The greatest index in `lo..hi` at which `sub` occurs, or -1. */
  function LastOccurrence(s: string, sub: string, lo: nat, hi: int): (r: int)
    decreases hi - lo
    ensures r == -1 || (lo <= r <= hi && OccursAt(s, sub, r))
    ensures r == -1 ==> forall j :: lo <= j <= hi ==> !OccursAt(s, sub, j)
    ensures r != -1 ==> forall j :: r < j <= hi ==> !OccursAt(s, sub, j)
  {
    if hi < lo then -1
    else if OccursAt(s, sub, hi) then hi
    else LastOccurrence(s, sub, lo, hi - 1)
  }

  /** Python `s.rfind(sub, start)` for a non-negative `start`: the highest
      index at or after `start` where `sub` begins, or -1 when there is none.
      An empty `sub` is found at `|s|` unless `start > |s|`. */
  function RFind(s: string, sub: string, start: nat): (r: int)
    ensures r == -1 || (start <= r && OccursAt(s, sub, r))
    ensures r != -1 ==> forall j :: r < j ==> !OccursAt(s, sub, j)
    ensures r == -1 <==> forall j :: start <= j ==> !OccursAt(s, sub, j)
  {
    LastOccurrence(s, sub, start, |s| - |sub|)
  }

  /** The characters CPython's `str.isspace` accepts, which are the ones
      `str.strip()` with no argument removes. */
  predicate IsSpace(c: char) {
    || ('\t' <= c <= '\r')
    || ('\U{1C}' <= c <= ' ')
    || c == '\U{85}' || c == '\U{A0}' || c == '\U{1680}'
    || ('\U{2000}' <= c <= '\U{200A}')
    || c == '\U{2028}' || c == '\U{2029}' || c == '\U{202F}'
    || c == '\U{205F}' || c == '\U{3000}'
  }

  /** Neither the first nor the last character is whitespace. */
  predicate IsStripped(s: string) {
    s == [] || (!IsSpace(s[0]) && !IsSpace(s[|s| - 1]))
  }

  predicate AllSpace(s: string) {
    forall i :: 0 <= i < |s| ==> IsSpace(s[i])
  }

  /** Python `s.strip()` with no argument: whitespace is dropped from the
      front while there is any, then from the back. */
  function Strip(s: string): (r: string)
    ensures |r| <= |s|
  {
    if s != [] && IsSpace(s[0]) then Strip(s[1..])
    else if s != [] && IsSpace(s[|s| - 1]) then Strip(s[..|s| - 1])
    else s
  }

  /** The result never starts or ends with whitespace. */
  lemma {:induction false} StripIsStripped(s: string)
    decreases |s|
    ensures IsStripped(Strip(s))
  {
    if s != [] && IsSpace(s[0]) {
      StripIsStripped(s[1..]);
    } else if s != [] && IsSpace(s[|s| - 1]) {
      StripIsStripped(s[..|s| - 1]);
    }
  }

  /** Stripping a string that has no surrounding whitespace changes nothing. */
  lemma StrippedIsFixed(s: string)
    requires IsStripped(s)
    ensures Strip(s) == s
  {
  }

  lemma StripIdempotent(s: string)
    ensures Strip(Strip(s)) == Strip(s)
  {
    StripIsStripped(s);
    StrippedIsFixed(Strip(s));
  }

  /** A string of whitespace only, such as a blank line, strips to "". */
  lemma {:induction false} StripAllSpace(s: string)
    requires AllSpace(s)
    decreases |s|
    ensures Strip(s) == []
  {
    if s != [] {
      StripAllSpace(s[1..]);
    }
  }

  /** The part `strip` keeps, at `i..j`, with only whitespace around it. */
  predicate KeepsMiddle(s: string, i: int, j: int) {
    0 <= i <= j <= |s| && Strip(s) == s[i..j] && AllSpace(s[..i]) && AllSpace(s[j..])
  }

  lemma MiddleAfterFront(s: string, i: int, j: int)
    requires s != [] && IsSpace(s[0]) && KeepsMiddle(s[1..], i, j)
    ensures KeepsMiddle(s, i + 1, j + 1)
  {
    var u := s[1..];
    assert s[..i + 1] == [s[0]] + u[..i];
    assert s[i + 1..j + 1] == u[i..j] && s[j + 1..] == u[j..];
  }

  lemma MiddleBeforeBack(s: string, i: int, j: int)
    requires s != [] && !IsSpace(s[0]) && IsSpace(s[|s| - 1]) && KeepsMiddle(s[..|s| - 1], i, j)
    ensures KeepsMiddle(s, i, j)
  {
    var u := s[..|s| - 1];
    assert s[j..] == u[j..] + [s[|s| - 1]];
    assert s[i..j] == u[i..j] && s[..i] == u[..i];
  }

  /** What `strip` keeps is a contiguous piece of the input, and everything
      it drops on either side is whitespace. */
  lemma {:induction false} StripKeepsMiddle(s: string)
    decreases |s|
    ensures exists i, j :: KeepsMiddle(s, i, j)
  {
    if s != [] && IsSpace(s[0]) {
      StripKeepsMiddle(s[1..]);
      var i, j :| KeepsMiddle(s[1..], i, j);
      MiddleAfterFront(s, i, j);
    } else if s != [] && IsSpace(s[|s| - 1]) {
      StripKeepsMiddle(s[..|s| - 1]);
      var i, j :| KeepsMiddle(s[..|s| - 1], i, j);
      MiddleBeforeBack(s, i, j);
    } else {
      assert s[0..|s|] == s && s[..0] == [] && s[|s|..] == [];
      assert KeepsMiddle(s, 0, |s|);
    }
  }
}
