/**
 * The Kotlin standard-library string operations the core relies on
 * (`regionMatches`, `indexOf`, `contains`, `startsWith`, `substringAfter`,
 * `trim`, `isBlank`, `split`, `replace`), on strings as sequences of
 * characters. `ignoreCase` comparisons fold ASCII letters only.
 */
module Text {
  import opened Wrappers

  /** ASCII lower-casing of one character. */
  function LowerChar(c: char): char {
    if 'A' <= c <= 'Z' then (c as int + 32) as char else c
  }

  /** ASCII lower-casing of a whole string (Kotlin's `lowercase()` on ASCII text). */
  function Lower(s: string): (r: string)
    ensures |r| == |s|
    ensures forall i :: 0 <= i < |s| ==> r[i] == LowerChar(s[i])
  {
    seq(|s|, i requires 0 <= i < |s| => LowerChar(s[i]))
  }

  /** Kotlin's `Char.equals(other, ignoreCase)`. */
  predicate CharEquals(a: char, b: char, ignoreCase: bool) {
    a == b || (ignoreCase && LowerChar(a) == LowerChar(b))
  }

  /** Kotlin's `p.regionMatches(0, s, i, p.length, ignoreCase)`: `p` occurs in `s` at offset `i`. */
  predicate RegionMatches(s: string, i: int, p: string, ignoreCase: bool) {
    0 <= i && i + |p| <= |s| &&
    forall j :: 0 <= j < |p| ==> CharEquals(s[i + j], p[j], ignoreCase)
  }

  /**
   * Kotlin's `s.indexOf(p, from, ignoreCase)`: the first offset at or after
   * `from` where `p` occurs, or -1.
   */
  function IndexOf(s: string, p: string, from: nat, ignoreCase: bool): (r: int)
    decreases |s| + 1 - from
    ensures r == -1 || (from <= r && RegionMatches(s, r, p, ignoreCase))
    ensures r == -1 ==> forall i :: from <= i ==> !RegionMatches(s, i, p, ignoreCase)
    ensures r != -1 ==> forall i :: from <= i < r ==> !RegionMatches(s, i, p, ignoreCase)
  {
    if from + |p| > |s| then -1
    else if RegionMatches(s, from, p, ignoreCase) then from
    else IndexOf(s, p, from + 1, ignoreCase)
  }

  /** Kotlin's `s.contains(p, ignoreCase)`. */
  predicate Contains(s: string, p: string, ignoreCase: bool)
    ensures Contains(s, p, ignoreCase) <==> exists i :: RegionMatches(s, i, p, ignoreCase)
  {
    IndexOf(s, p, 0, ignoreCase) >= 0
  }

  /** Kotlin's `s.startsWith(p, ignoreCase)`. */
  predicate StartsWith(s: string, p: string, ignoreCase: bool) {
    RegionMatches(s, 0, p, ignoreCase)
  }

  /** Kotlin's `s.substringAfter(d)`: the text after the first `d`, or all of `s` when `d` is absent. */
  function SubstringAfter(s: string, d: string): string {
    var i := IndexOf(s, d, 0, false);
    if i == -1 then s else s[i + |d|..]
  }

  /** What precedes the result of `SubstringAfter` is the text up to and including the first `d`. */
  lemma SubstringAfterSplits(s: string, d: string)
    ensures var i := IndexOf(s, d, 0, false);
      if i == -1 then SubstringAfter(s, d) == s else s == s[..i] + d + SubstringAfter(s, d)
  {
    var i := IndexOf(s, d, 0, false);
    if i != -1 {
      assert s[i..i + |d|] == d;
      assert s == s[..i] + s[i..i + |d|] + s[i + |d|..];
    }
  }

  /** Kotlin's `Char.isWhitespace()`: Java whitespace together with the Unicode space separators. */
  predicate IsWhitespace(c: char) {
    ('\t' <= c <= '\r') || ('\U{1C}' <= c <= ' ') || c == '\U{A0}' || c == '\U{1680}' ||
    ('\U{2000}' <= c <= '\U{200A}') || c == '\U{2028}' || c == '\U{2029}' || c == '\U{202F}' ||
    c == '\U{205F}' || c == '\U{3000}'
  }

  /** Kotlin's `isBlank()`: empty or whitespace only. */
  predicate IsBlank(s: string) {
    forall i :: 0 <= i < |s| ==> IsWhitespace(s[i])
  }

  /** `r` is `s` with its leading `a` and some trailing characters removed, all of them whitespace. */
  ghost predicate TrimmedAt(s: string, r: string, a: int) {
    0 <= a && a + |r| <= |s| && r == s[a..a + |r|] &&
    (forall j :: 0 <= j < a ==> IsWhitespace(s[j])) &&
    (forall j :: a + |r| <= j < |s| ==> IsWhitespace(s[j]))
  }

  /** Kotlin's `trim()`: drop whitespace from both ends. */
  function Trim(s: string): string
    decreases |s|
  {
    if |s| > 0 && IsWhitespace(s[0]) then Trim(s[1..])
    else if |s| > 0 && IsWhitespace(s[|s| - 1]) then Trim(s[..|s| - 1])
    else s
  }

  /** Trimming the rest of a string that starts with whitespace trims the string. */
  lemma TrimmedAfterFront(s: string, r: string, a: int)
    requires |s| > 0 && IsWhitespace(s[0]) && TrimmedAt(s[1..], r, a)
    ensures TrimmedAt(s, r, a + 1)
  {
    assert s[a + 1..a + 1 + |r|] == s[1..][a..a + |r|];
    forall j | 0 < j < a + 1 ensures IsWhitespace(s[j]) {
      assert s[j] == s[1..][j - 1];
    }
    forall j | a + 1 + |r| <= j < |s| ensures IsWhitespace(s[j]) {
      assert s[j] == s[1..][j - 1];
    }
  }

  /** Trimming the front of a string that ends with whitespace trims the string. */
  lemma TrimmedAfterBack(s: string, r: string, a: int)
    requires |s| > 0 && IsWhitespace(s[|s| - 1]) && TrimmedAt(s[..|s| - 1], r, a)
    ensures TrimmedAt(s, r, a)
  {
    assert s[a..a + |r|] == s[..|s| - 1][a..a + |r|];
    forall j | 0 <= j < a ensures IsWhitespace(s[j]) {
      assert s[j] == s[..|s| - 1][j];
    }
    forall j | a + |r| <= j < |s| - 1 ensures IsWhitespace(s[j]) {
      assert s[j] == s[..|s| - 1][j];
    }
  }

  /** Trimming removes whitespace only, and only from the two ends, and leaves none there. */
  lemma {:induction false} TrimSpec(s: string)
    ensures exists a :: TrimmedAt(s, Trim(s), a)
    ensures Trim(s) != [] ==> !IsWhitespace(Trim(s)[0]) && !IsWhitespace(Trim(s)[|Trim(s)| - 1])
    decreases |s|
  {
    if |s| > 0 && IsWhitespace(s[0]) {
      TrimSpec(s[1..]);
      var a :| TrimmedAt(s[1..], Trim(s[1..]), a);
      TrimmedAfterFront(s, Trim(s), a);
    } else if |s| > 0 && IsWhitespace(s[|s| - 1]) {
      TrimSpec(s[..|s| - 1]);
      var a :| TrimmedAt(s[..|s| - 1], Trim(s[..|s| - 1]), a);
      TrimmedAfterBack(s, Trim(s), a);
    } else {
      assert Trim(s) == s;
      assert s[0..|s|] == s;
      assert TrimmedAt(s, Trim(s), 0);
    }
  }

  /** Trimming twice is trimming once. */
  lemma TrimIdempotent(s: string)
    ensures Trim(Trim(s)) == Trim(s)
  {
    var r := Trim(s);
    TrimSpec(s);
    TrimSpec(r);
    var a :| TrimmedAt(r, Trim(r), a);
    if r != [] {
      assert !IsWhitespace(r[0]) && !IsWhitespace(r[|r| - 1]);
    }
  }

  /** A string is blank exactly when trimming empties it. */
  lemma BlankIffTrimEmpty(s: string)
    ensures IsBlank(s) <==> Trim(s) == ""
  {
    TrimSpec(s);
    var a :| TrimmedAt(s, Trim(s), a);
    if Trim(s) == "" {
      forall i | 0 <= i < |s| ensures IsWhitespace(s[i]) {
        if i >= a { assert a + |Trim(s)| <= i; }
      }
    } else {
      assert Trim(s)[0] == s[a];
      assert !IsWhitespace(s[a]);
    }
  }

  /** Kotlin's `replace(".", "_")` and the like, for a one-character pattern. */
  function ReplaceChar(s: string, from: char, to: char): (r: string)
    ensures |r| == |s|
    ensures forall i :: 0 <= i < |s| ==> r[i] == (if s[i] == from then to else s[i])
  {
    seq(|s|, i requires 0 <= i < |s| => if s[i] == from then to else s[i])
  }

  const CRLF: string := "\r\n"

  /** Kotlin's `split("\r\n")`: the pieces between the line breaks, empty ones included. */
  function SplitLines(s: string): (lines: seq<string>)
    decreases |s|
    ensures |lines| >= 1
  {
    var i := IndexOf(s, CRLF, 0, false);
    if i == -1 then [s] else [s[..i]] + SplitLines(s[i + 2..])
  }

  /** Kotlin's `joinToString("\r\n")`. */
  function JoinLines(lines: seq<string>): string
    requires |lines| >= 1
  {
    if |lines| == 1 then lines[0] else lines[0] + CRLF + JoinLines(lines[1..])
  }

  /** A region of a prefix is a region of the whole string. */
  lemma RegionOfPrefix(s: string, n: nat, i: int, p: string, ignoreCase: bool)
    requires n <= |s|
    requires RegionMatches(s[..n], i, p, ignoreCase)
    ensures RegionMatches(s, i, p, ignoreCase)
  {
    forall j | 0 <= j < |p| ensures CharEquals(s[i + j], p[j], ignoreCase) {
      assert s[..n][i + j] == s[i + j];
    }
  }

  /** Splitting and joining again gives back the text. */
  lemma {:induction false} SplitJoin(s: string)
    ensures JoinLines(SplitLines(s)) == s
    decreases |s|
  {
    var i := IndexOf(s, CRLF, 0, false);
    if i != -1 {
      var rest := s[i + 2..];
      SplitJoin(rest);
      BreakAt(s, i);
      var lines := SplitLines(s);
      assert lines == [s[..i]] + SplitLines(rest);
      assert lines[1..] == SplitLines(rest);
    }
  }

  /** The text is its first line, a line break, and the rest. */
  lemma BreakAt(s: string, i: int)
    requires i == IndexOf(s, CRLF, 0, false) && i != -1
    ensures s == s[..i] + CRLF + s[i + 2..]
  {
    assert s[i..i + 2] == CRLF;
    assert s == s[..i] + s[i..i + 2] + s[i + 2..];
  }

  /** No line of a split holds a line break. */
  lemma {:induction false} SplitLinesHaveNoBreak(s: string)
    ensures forall l :: l in SplitLines(s) ==> !Contains(l, CRLF, false)
    decreases |s|
  {
    var i := IndexOf(s, CRLF, 0, false);
    if i != -1 {
      SplitLinesHaveNoBreak(s[i + 2..]);
      FirstLineHasNoBreak(s, i);
    }
  }

  /** The text before the first line break holds no line break. */
  lemma FirstLineHasNoBreak(s: string, i: int)
    requires i == IndexOf(s, CRLF, 0, false) && i != -1
    ensures !Contains(s[..i], CRLF, false)
  {
    if Contains(s[..i], CRLF, false) {
      var k :| RegionMatches(s[..i], k, CRLF, false);
      RegionOfPrefix(s, i, k, CRLF, false);
    }
  }

  /** Kotlin's rendering of a nullable string inside a string template. */
  function Show(s: Option<string>): string {
    if s.Some? then s.value else "null"
  }
}
