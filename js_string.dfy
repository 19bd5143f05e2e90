/**
 * The JavaScript string operations used by the extension, over `seq<char>`:
 * case mapping (ASCII letters only), `substring` with its clamping of the
 * bounds, `lastIndexOf`, `split` and `join`, and the slash-separated paths
 * built by template literals.
 */
module JsString {
  predicate IsLowerAscii(c: char) { 'a' <= c <= 'z' }

  predicate IsUpperAscii(c: char) { 'A' <= c <= 'Z' }

  /** `c.toLowerCase()` on one character. */
  function LowerChar(c: char): (r: char)
    ensures !IsUpperAscii(r)
    ensures IsUpperAscii(c) ==> IsLowerAscii(r) && r as int == c as int + 32
    ensures !IsUpperAscii(c) ==> r == c
  {
    if IsUpperAscii(c) then (c as int + 32) as char else c
  }

  /** `c.toUpperCase()` on one character: never lower-case, same letter. */
  function UpperChar(c: char): (r: char)
    ensures !IsLowerAscii(r)
    ensures IsLowerAscii(c) ==> IsUpperAscii(r) && r as int == c as int - 32
    ensures !IsLowerAscii(c) ==> r == c
    ensures LowerChar(r) == LowerChar(c)
  {
    if IsLowerAscii(c) then (c as int - 32) as char else c
  }

  /** `s.toLowerCase()`. */
  function ToLower(s: string): (r: string)
    ensures |r| == |s|
    ensures forall i :: 0 <= i < |s| ==> r[i] == LowerChar(s[i])
  {
    seq(|s|, i requires 0 <= i < |s| => LowerChar(s[i]))
  }

  /** `s[0].toUpperCase() + s.slice(1)`; `s[0]` of the empty string is undefined in JavaScript. */
  function Capitalize(s: string): (r: string)
    requires s != ""
    ensures |r| == |s| && r[1..] == s[1..]
    ensures r[0] == UpperChar(s[0]) && !IsLowerAscii(r[0]) && LowerChar(r[0]) == LowerChar(s[0])
  {
    [UpperChar(s[0])] + s[1..]
  }

  function Clamp(i: int, n: nat): (r: nat)
    ensures r <= n
    ensures 0 <= i <= n ==> r == i
  {
    if i < 0 then 0 else if i > n then n else i
  }

  /** `s.substring(start, end)`: both bounds clamped to the string, swapped when reversed. */
  function Substring(s: string, start: int, end: int): (r: string)
    ensures var a, b := Clamp(start, |s|), Clamp(end, |s|);
            |r| == (if a <= b then b - a else a - b)
    ensures 0 <= start <= end <= |s| ==> r == s[start..end]
    ensures 0 <= start <= |s| <= end ==> r == s[start..]
    ensures 0 <= end <= start <= |s| ==> r == s[end..start]
    ensures start <= 0 && end <= 0 ==> r == ""
  {
    var a, b := Clamp(start, |s|), Clamp(end, |s|);
    if a <= b then s[a..b] else s[b..a]
  }

  /** `s.lastIndexOf(c)`: the last index holding `c`, or -1 when there is none. */
  function LastIndexOf(s: string, c: char): (r: int)
    ensures -1 <= r < |s|
    ensures r >= 0 ==> s[r] == c
    ensures forall j :: r < j < |s| ==> s[j] != c
  {
    if s == [] then -1
    else
      var k := LastIndexOf(s[1..], c);
      if k >= 0 then k + 1 else if s[0] == c then 0 else -1
  }

  /** `c` occurs in `s` exactly when `lastIndexOf` finds it. */
  lemma LastIndexOfFound(s: string, c: char)
    ensures LastIndexOf(s, c) >= 0 <==> c in s
  {
    var k := LastIndexOf(s, c);
    if c in s {
      var j :| 0 <= j < |s| && s[j] == c;
      assert j <= k;
    }
  }

  /** The characterisation in `LastIndexOf`'s contract fixes its result. */
  lemma LastIndexOfAt(s: string, c: char, k: nat)
    requires k < |s| && s[k] == c
    requires forall j :: k < j < |s| ==> s[j] != c
    ensures LastIndexOf(s, c) == k
  {
  }

  /** `s.split(sep)`: the pieces between the separators; always at least one piece. */
  function Split(s: string, sep: char): (parts: seq<string>)
    ensures |parts| >= 1
    ensures forall i :: 0 <= i < |parts| ==> sep !in parts[i]
  {
    if s == [] then [""]
    else
      var rest := Split(s[1..], sep);
      if s[0] == sep then [""] + rest
      else
        assert forall i :: 1 <= i < |rest| ==> rest[1..][i - 1] == rest[i];
        [[s[0]] + rest[0]] + rest[1..]
  }

  /** `parts.join(sep)`. */
  function JoinWith(parts: seq<string>, sep: char): string
  {
    if parts == [] then ""
    else if |parts| == 1 then parts[0]
    else parts[0] + [sep] + JoinWith(parts[1..], sep)
  }

  /** Joining the pieces of a split gives the string back. */
  lemma {:induction false} JoinSplit(s: string, sep: char)
    ensures JoinWith(Split(s, sep), sep) == s
    decreases |s|
  {
    if s != [] {
      var rest := Split(s[1..], sep);
      JoinSplit(s[1..], sep);
      if s[0] == sep {
        assert ([""] + rest)[1..] == rest;
      } else if |rest| > 1 {
        var parts := [[s[0]] + rest[0]] + rest[1..];
        assert parts[1..] == rest[1..];
        assert s == [s[0]] + s[1..];
      } else {
        assert s == [s[0]] + s[1..];
      }
    }
  }

  /** A split yields a single piece exactly when the separator does not occur. */
  lemma {:induction false} SplitSingle(s: string, sep: char)
    ensures |Split(s, sep)| == 1 <==> sep !in s
    decreases |s|
  {
    if s != [] {
      SplitSingle(s[1..], sep);
      assert s == [s[0]] + s[1..];
    }
  }

  /** The last piece of a split is what follows the last separator. */
  lemma {:induction false} SplitLast(s: string, sep: char)
    ensures var parts := Split(s, sep);
            parts[|parts| - 1] == s[LastIndexOf(s, sep) + 1..]
    decreases |s|
  {
    if s != [] {
      SplitLast(s[1..], sep);
      SplitSingle(s[1..], sep);
      LastIndexOfFound(s[1..], sep);
    }
  }

  /** `s` is `prefix`, then `middle`, then `suffix`: a template literal with one varying part. */
  predicate Framed(s: string, prefix: string, middle: string, suffix: string)
  {
    && |s| == |prefix| + |middle| + |suffix|
    && s[..|prefix|] == prefix
    && s[|prefix|..|prefix| + |middle|] == middle
    && s[|prefix| + |middle|..] == suffix
  }

  /** Dropping a common prefix. */
  lemma PrefixCancel(p: string, a: string, b: string)
    requires p + a == p + b
    ensures a == b
  {
    assert a == (p + a)[|p|..];
    assert b == (p + b)[|p|..];
  }

  /** Dropping a common prefix and suffix around the pieces that vary. */
  lemma AffixCancel(p: string, a: string, b: string, q: string)
    requires p + a + q == p + b + q
    ensures a == b
  {
    assert |a| == |b|;
    assert a == (p + a + q)[|p|..|p| + |a|];
    assert b == (p + b + q)[|p|..|p| + |b|];
  }

  /** Dropping a common suffix. */
  lemma SuffixCancel(a: string, b: string, q: string)
    requires a + q == b + q
    ensures a == b
  {
    assert a == (a + q)[..|a|];
    assert b == (b + q)[..|b|];
  }

  /** A first path segment without `/` is determined by the path. */
  lemma SlashSplit(a: string, b: string, c: string, d: string)
    requires '/' !in a && '/' !in c
    requires a + "/" + b == c + "/" + d
    ensures a == c && b == d
  {
    var s := a + "/" + b;
    assert s[|a|] == '/';
    assert forall i :: 0 <= i < |a| ==> s[i] == a[i];
    assert forall i :: 0 <= i < |c| ==> s[i] == c[i];
    assert s[|c|] == '/';
    if |a| < |c| {
      assert false;
    } else if |c| < |a| {
      assert false;
    }
    assert a == s[..|a|];
    assert c == (c + "/" + d)[..|c|];
    assert b == s[|a| + 1..];
    assert d == (c + "/" + d)[|c| + 1..];
  }
}
