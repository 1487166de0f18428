/**
 * Values shared by the modules of the chat back end: optional values, results,
 * chat messages, and the few Python string operations the back end relies on
 * (`startswith`, `str.strip`, `str.find`, slicing with negative indices).
 */
module Common {

  datatype Option<T> = None | Some(value: T)

  datatype Result<T, E> = Ok(value: T) | Err(error: E)

  /** One `{"role": ..., "content": ...}` entry of a chat message list. */
  datatype Message = Message(role: string, content: string)

  const SystemRole: string := "system"
  const UserRole: string := "user"
  const AssistantRole: string := "assistant"

  /** `s.startswith(prefix)` */
  predicate StartsWith(s: string, prefix: string) {
    |prefix| <= |s| && s[..|prefix|] == prefix
  }

  /** The characters for which Python's `str.isspace()` holds; `str.strip()` removes these. */
  predicate IsPyWhitespace(c: char) {
    c == ' ' || c == '\t' || c == '\n' || c == '\r' || c == '\U{000B}' || c == '\U{000C}'
    || ('\U{001C}' <= c <= '\U{001F}') || c == '\U{0085}' || c == '\U{00A0}' || c == '\U{1680}'
    || ('\U{2000}' <= c <= '\U{200A}') || c == '\U{2028}' || c == '\U{2029}' || c == '\U{202F}'
    || c == '\U{205F}' || c == '\U{3000}'
  }

  /** A string with no character of `drop` at either end. */
  predicate StrippedBy(s: string, drop: char -> bool) {
    s == [] || (!drop(s[0]) && !drop(s[|s| - 1]))
  }

  /** A string that `str.strip()` leaves unchanged: empty, or non-whitespace at both ends. */
  predicate IsStripped(s: string) {
    StrippedBy(s, IsPyWhitespace)
  }

  /** Number of leading characters in `drop`. */
  function LeadingRun(s: string, drop: char -> bool): (n: nat)
    ensures n <= |s|
  {
    if s == [] || !drop(s[0]) then 0 else 1 + LeadingRun(s[1..], drop)
  }

  /** The leading run is all in `drop` and ends at a character outside it or at the end. */
  lemma {:induction false} LeadingRunSpec(s: string, drop: char -> bool)
    ensures forall i :: 0 <= i < LeadingRun(s, drop) ==> drop(s[i])
    ensures LeadingRun(s, drop) < |s| ==> !drop(s[LeadingRun(s, drop)])
    decreases |s|
  {
    if s != [] && drop(s[0]) {
      LeadingRunSpec(s[1..], drop);
      forall i | 0 < i < LeadingRun(s, drop)
        ensures drop(s[i])
      {
        assert s[i] == s[1..][i - 1];
      }
    }
  }

  /** Number of trailing characters in `drop`. */
  function TrailingRun(s: string, drop: char -> bool): (n: nat)
    ensures n <= |s|
  {
    if s == [] || !drop(s[|s| - 1]) then 0 else 1 + TrailingRun(s[..|s| - 1], drop)
  }

  /** The trailing run is all in `drop` and starts after a character outside it or at the start. */
  lemma {:induction false} TrailingRunSpec(s: string, drop: char -> bool)
    ensures forall i :: |s| - TrailingRun(s, drop) <= i < |s| ==> drop(s[i])
    ensures TrailingRun(s, drop) < |s| ==> !drop(s[|s| - 1 - TrailingRun(s, drop)])
    decreases |s|
  {
    if s != [] && drop(s[|s| - 1]) {
      var init := s[..|s| - 1];
      TrailingRunSpec(init, drop);
      forall i | |s| - TrailingRun(s, drop) <= i < |s| - 1
        ensures drop(s[i])
      {
        assert s[i] == init[i];
      }
      if TrailingRun(s, drop) < |s| {
        assert s[|s| - 1 - TrailingRun(s, drop)] == init[|init| - 1 - TrailingRun(init, drop)];
      }
    }
  }

  /** Both runs of `drop` characters removed. */
  function StripBy(s: string, drop: char -> bool): (r: string)
    ensures |r| <= |s|
  {
    var t := s[LeadingRun(s, drop)..];
    t[..|t| - TrailingRun(t, drop)]
  }

  /**
   * What stripping returns: a middle part of `s` that starts and ends with a
   * character outside `drop`, with only `drop` characters outside it.
   */
  lemma StripBySpec(s: string, drop: char -> bool)
    ensures var a := LeadingRun(s, drop); var r := StripBy(s, drop);
            && StrippedBy(r, drop)
            && a + |r| <= |s|
            && r == s[a..a + |r|]
            && (forall i :: 0 <= i < a ==> drop(s[i]))
            && (forall i :: a + |r| <= i < |s| ==> drop(s[i]))
  {
    var a := LeadingRun(s, drop);
    var t := s[a..];
    var n := TrailingRun(t, drop);
    var r := StripBy(s, drop);
    LeadingRunSpec(s, drop);
    TrailingRunSpec(t, drop);
    assert r == s[a..a + |r|];
    if r != [] {
      assert r[0] == s[a];
      assert r[|r| - 1] == t[|t| - 1 - n];
    }
    forall i | a + |r| <= i < |s|
      ensures drop(s[i])
    {
      assert s[i] == t[i - a];
    }
  }

  /** Stripping a string that is already stripped changes nothing. */
  lemma StripByStripped(s: string, drop: char -> bool)
    requires StrippedBy(s, drop)
    ensures StripBy(s, drop) == s
  {
    if s != [] {
      assert LeadingRun(s, drop) == 0;
      assert TrailingRun(s, drop) == 0;
    }
  }

  /** `s.strip()`: both whitespace runs removed. */
  function PyStrip(s: string): (r: string)
    ensures |r| <= |s|
  {
    StripBy(s, IsPyWhitespace)
  }

  /** `s.strip()` is stripped, and what it removed is whitespace. */
  lemma PyStripSpec(s: string)
    ensures var a := LeadingRun(s, IsPyWhitespace); var r := PyStrip(s);
            && IsStripped(r)
            && a + |r| <= |s|
            && r == s[a..a + |r|]
            && (forall i :: 0 <= i < a ==> IsPyWhitespace(s[i]))
            && (forall i :: a + |r| <= i < |s| ==> IsPyWhitespace(s[i]))
  {
    StripBySpec(s, IsPyWhitespace);
  }

  lemma PyStripIsStripped(s: string)
    ensures IsStripped(PyStrip(s))
  {
    PyStripSpec(s);
  }

  /** Stripping a string that is already stripped changes nothing. */
  lemma StripStripped(s: string)
    requires IsStripped(s)
    ensures PyStrip(s) == s
  {
    StripByStripped(s, IsPyWhitespace);
  }

  /** The concatenation of two stripped strings is stripped. */
  lemma ConcatStripped(a: string, b: string)
    requires IsStripped(a) && IsStripped(b)
    ensures IsStripped(a + b)
  {
    if a != [] && b != [] {
      assert (a + b)[0] == a[0];
      assert (a + b)[|a + b| - 1] == b[|b| - 1];
    } else if a == [] {
      assert a + b == b;
    } else {
      assert a + b == a;
    }
  }

  /** Does `sub` occur in `s` at index `k`? */
  predicate OccursAt(s: string, sub: string, k: int) {
    0 <= k && k + |sub| <= |s| && s[k..k + |sub|] == sub
  }

  /** `s.find(sub, start)`: the lowest index at or after `start` where `sub` occurs, or -1. */
  function Find(s: string, sub: string, start: nat): (r: int)
    ensures r == -1 || (start <= r && OccursAt(s, sub, r))
    ensures r == -1 ==> forall k :: start <= k ==> !OccursAt(s, sub, k)
    ensures r != -1 ==> forall k :: start <= k < r ==> !OccursAt(s, sub, k)
    decreases |s| - start
  {
    if start + |sub| > |s| then -1
    else if s[start..start + |sub|] == sub then start
    else Find(s, sub, start + 1)
  }

  /** The first occurrence at or after `start` is the one `Find` reports. */
  lemma FindFirst(s: string, sub: string, start: nat, r: nat)
    requires start <= r && OccursAt(s, sub, r)
    requires forall k :: start <= k < r ==> !OccursAt(s, sub, k)
    ensures Find(s, sub, start) == r
  {
  }

  /** `s.find(c, start)` for one character: the first position at or after `start` holding it. */
  lemma FindChar(s: string, c: char, start: nat, n: nat)
    requires start <= n < |s| && s[n] == c
    requires forall k :: start <= k < n ==> s[k] != c
    ensures Find(s, [c], start) == n
  {
    assert s[n..n + 1] == [s[n]];
    forall k | start <= k < n
      ensures !OccursAt(s, [c], k)
    {
      assert s[k..k + 1] == [s[k]];
    }
    FindFirst(s, [c], start, n);
  }

  /** A slice bound as Python normalises it: negative counts from the end, then clamped to `[0, n]`. */
  function SliceBound(i: int, n: nat): (r: nat)
    ensures r <= n
    ensures 0 <= i <= n ==> r == i
    ensures i < 0 && 0 <= i + n ==> r == i + n
    ensures i + n < 0 ==> r == 0
    ensures i > n ==> r == n
  {
    if i < 0 then (if i + n < 0 then 0 else i + n) else if i > n then n else i
  }

  /** `s[a:b]` with Python's treatment of negative and out-of-range bounds. */
  function PySlice(s: string, a: int, b: int): (r: string)
    ensures 0 <= a <= b <= |s| ==> r == s[a..b]
    ensures 0 <= a <= |s| && b < 0 && 0 <= b + |s| ==> r == if a < b + |s| then s[a..b + |s|] else []
    ensures a >= |s| || b + |s| <= 0 || (0 <= b <= a) ==> r == []
    ensures b > |s| && 0 <= a <= |s| ==> r == s[a..]
  {
    var lo := SliceBound(a, |s|);
    var hi := SliceBound(b, |s|);
    if lo < hi then s[lo..hi] else []
  }

  /** `s[a:-1]`, the slice to a `find` that reported -1, drops the last character. */
  lemma SliceToNotFound(s: string, a: nat)
    requires a < |s|
    ensures PySlice(s, a, -1) == s[a..|s| - 1]
  {
  }
}
