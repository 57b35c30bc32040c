/** JavaScript strings as the route handlers see them: sequences of UTF-16 code
    units, with the whitespace set, ASCII case folding, `trim` and `split("\n")`
    that the normaliser and the height estimators use. */
module JsText {

  /** One UTF-16 code unit (what `String.prototype.charCodeAt` returns). */
  newtype CodeUnit = x: int | 0 <= x < 0x1_0000

  /** A JavaScript string value. */
  type JsString = seq<CodeUnit>

  const TAB: CodeUnit := 9
  const LF: CodeUnit := 10
  const SPACE: CodeUnit := 32
  const HASH: CodeUnit := 35
  const AMP: CodeUnit := 38
  const SLASH: CodeUnit := 47
  const SEMICOLON: CodeUnit := 59
  const LT: CodeUnit := 60
  const GT: CodeUnit := 62

  /** `\s` in a regular expression and the set `String.prototype.trim` removes:
      the WhiteSpace and LineTerminator code points of ECMA-262 (all in the BMP). */
  predicate IsWhitespace(c: CodeUnit)
  {
    c == 0x09 || c == 0x0A || c == 0x0B || c == 0x0C || c == 0x0D || c == 0x20
    || c == 0xA0 || c == 0x1680 || (0x2000 <= c <= 0x200A) || c == 0x2028 || c == 0x2029
    || c == 0x202F || c == 0x205F || c == 0x3000 || c == 0xFEFF
  }

  predicate IsAsciiDigit(c: CodeUnit) { 0x30 <= c <= 0x39 }

  predicate IsAsciiUpper(c: CodeUnit) { 0x41 <= c <= 0x5A }

  predicate IsAsciiLower(c: CodeUnit) { 0x61 <= c <= 0x7A }

  /** `[a-z]` under the `i` flag: only the 52 ASCII letters (a non-ASCII code unit
      never folds onto an ASCII one in ECMAScript's Canonicalize). */
  predicate IsAsciiLetter(c: CodeUnit) { IsAsciiUpper(c) || IsAsciiLower(c) }

  function LowerUnit(c: CodeUnit): (r: CodeUnit)
    ensures IsAsciiUpper(c) ==> r == c + 32
    ensures !IsAsciiUpper(c) ==> r == c
  {
    if IsAsciiUpper(c) then c + 32 else c
  }

  /** `toLowerCase` restricted to ASCII letters (the only letters an entity name can hold). */
  function LowerAscii(s: JsString): (r: JsString)
    ensures |r| == |s|
    ensures forall k :: 0 <= k < |s| ==> r[k] == LowerUnit(s[k])
  {
    seq(|s|, k requires 0 <= k < |s| => LowerUnit(s[k]))
  }

  predicate AllWhitespace(s: JsString)
  {
    forall k :: 0 <= k < |s| ==> IsWhitespace(s[k])
  }

  /** `line.trim().length === 0`. */
  predicate IsBlank(line: JsString)
  {
    AllWhitespace(line)
  }

  /** Number of leading whitespace code units. */
  function LeadingWhitespace(s: JsString): (n: nat)
    ensures n <= |s|
    ensures AllWhitespace(s[..n])
    ensures n < |s| ==> !IsWhitespace(s[n])
  {
    if s != [] && IsWhitespace(s[0]) then
      var m := LeadingWhitespace(s[1..]);
      assert s[..1 + m] == [s[0]] + s[1..][..m];
      1 + m
    else 0
  }

  /** Number of trailing whitespace code units. */
  function TrailingWhitespace(s: JsString): (n: nat)
    ensures n <= |s|
    ensures AllWhitespace(s[|s| - n..])
    ensures n < |s| ==> !IsWhitespace(s[|s| - n - 1])
  {
    if s != [] && IsWhitespace(s[|s| - 1]) then
      var m := TrailingWhitespace(s[..|s| - 1]);
      SuffixStep(s, m);
      1 + m
    else 0
  }

  /** The m + 1 last code units are the m last ones before the final one, then it. */
  lemma SuffixStep(s: JsString, m: nat)
    requires m < |s|
    ensures s[|s| - (1 + m)..] == s[..|s| - 1][|s| - 1 - m..] + [s[|s| - 1]]
  {
    var u := s[|s| - (1 + m)..];
    var v := s[..|s| - 1][|s| - 1 - m..] + [s[|s| - 1]];
    assert |u| == |v|;
    forall k | 0 <= k < |u| ensures u[k] == v[k] {
      if k < m {
        assert v[k] == s[..|s| - 1][|s| - 1 - m + k];
      }
    }
  }

  /** `String.prototype.trim`: the result is empty exactly for an all-whitespace
      string, and otherwise neither starts nor ends with whitespace. */
  function Trim(s: JsString): (r: JsString)
    ensures |r| <= |s|
    ensures r == [] <==> AllWhitespace(s)
    ensures r != [] ==> !IsWhitespace(r[0]) && !IsWhitespace(r[|r| - 1])
  {
    var i := LeadingWhitespace(s);
    if i == |s| then
      assert s[..i] == s;
      []
    else
      var t := TrailingWhitespace(s);
      TrimBounds(s, i, t);
      var r := s[i..|s| - t];
      assert r[0] == s[i] && r[|r| - 1] == s[|s| - t - 1];
      assert s == s[..i] + r + s[|s| - t..];
      assert i + |r| == |s| - t;
      r
  }

  /** s is the trimmed string wrapped in whitespace on both sides. */
  lemma TrimSplits(s: JsString)
    ensures LeadingWhitespace(s) + |Trim(s)| <= |s|
    ensures s == s[..LeadingWhitespace(s)] + Trim(s) + s[LeadingWhitespace(s) + |Trim(s)|..]
    ensures AllWhitespace(s[LeadingWhitespace(s) + |Trim(s)|..])
  {
    var i := LeadingWhitespace(s);
    if i == |s| {
      assert s[..i] == s;
    } else {
      var t := TrailingWhitespace(s);
      TrimBounds(s, i, t);
      var j := |s| - t;
      assert Trim(s) == s[i..j];
      ThreeWay(s, i, j);
    }
  }

  /** A string is its prefix, middle and suffix around two cut points. */
  lemma ThreeWay(s: JsString, i: nat, j: nat)
    requires i <= j <= |s|
    ensures s == s[..i] + s[i..j] + s[j..]
  {
  }

  lemma TrimBounds(s: JsString, i: nat, t: nat)
    requires i < |s| && !IsWhitespace(s[i])
    requires t <= |s| && AllWhitespace(s[|s| - t..])
    ensures t < |s| - i
    ensures !AllWhitespace(s)
  {
  }

  /** Trimming does nothing to a string that starts and ends with non-whitespace. */
  lemma TrimUnchanged(s: JsString)
    requires s != [] ==> !IsWhitespace(s[0]) && !IsWhitespace(s[|s| - 1])
    ensures Trim(s) == s
  {
    if s != [] {
      assert LeadingWhitespace(s) == 0;
      assert !AllWhitespace(s);
    }
  }

  /** Trimming strips exactly the whitespace wrapped around a text that starts
      and ends with non-whitespace. */
  lemma TrimSurrounded(lead: JsString, x: JsString, trail: JsString)
    requires AllWhitespace(lead) && AllWhitespace(trail)
    requires x != [] && !IsWhitespace(x[0]) && !IsWhitespace(x[|x| - 1])
    ensures Trim(lead + x + trail) == x
  {
    var s := lead + x + trail;
    var i := |lead|;
    var j := |lead| + |x|;
    assert s[..i] == lead && s[i..j] == x && s[j..] == trail;
    LeadingIs(s, i);
    TrailingIs(s, |trail|);
    assert Trim(s) == s[i..j];
  }

  /** The leading whitespace ends where the first non-whitespace code unit is. */
  lemma LeadingIs(s: JsString, i: nat)
    requires i < |s| && AllWhitespace(s[..i]) && !IsWhitespace(s[i])
    ensures LeadingWhitespace(s) == i
  {
  }

  /** The trailing whitespace starts after the last non-whitespace code unit. */
  lemma TrailingIs(s: JsString, t: nat)
    requires t < |s| && AllWhitespace(s[|s| - t..]) && !IsWhitespace(s[|s| - t - 1])
    ensures TrailingWhitespace(s) == t
  {
  }

  /** Number of occurrences of c in s. */
  function Count(s: JsString, c: CodeUnit): nat
  {
    if s == [] then 0 else (if s[0] == c then 1 else 0) + Count(s[1..], c)
  }

  /** `text.split("\n")`: the lines between line feeds, always at least one. */
  function SplitLines(s: JsString): (lines: seq<JsString>)
    ensures |lines| >= 1
  {
    if s == [] then [[]]
    else
      var rest := SplitLines(s[1..]);
      if s[0] == LF then [[]] + rest else [[s[0]] + rest[0]] + rest[1..]
  }

  /** `lines.join("\n")`, the inverse of SplitLines. */
  function JoinLines(lines: seq<JsString>): JsString
    requires |lines| >= 1
  {
    if |lines| == 1 then lines[0] else lines[0] + [LF] + JoinLines(lines[1..])
  }

  predicate NoLineFeed(s: JsString)
  {
    forall k :: 0 <= k < |s| ==> s[k] != LF
  }

  /** split("\n") yields one more line than there are line feeds, none of the lines
      holds a line feed, and joining them with line feeds gives back the text. */
  lemma {:induction false} SplitLinesSpec(s: JsString)
    ensures |SplitLines(s)| == Count(s, LF) + 1
    ensures forall k :: 0 <= k < |SplitLines(s)| ==> NoLineFeed(SplitLines(s)[k])
    ensures JoinLines(SplitLines(s)) == s
  {
    if s != [] {
      SplitLinesSpec(s[1..]);
      var rest := SplitLines(s[1..]);
      if s[0] == LF {
        assert SplitLines(s) == [[]] + rest;
        assert SplitLines(s)[1..] == rest;
        assert s == [] + [LF] + s[1..];
      } else {
        ExtendFirstLine(s[0], rest, s[1..]);
        assert [s[0]] + s[1..] == s;
      }
    }
  }

  /** A code unit other than a line feed joins the first line. */
  lemma ExtendFirstLine(c: CodeUnit, rest: seq<JsString>, t: JsString)
    requires c != LF && |rest| >= 1 && JoinLines(rest) == t
    requires forall k :: 0 <= k < |rest| ==> NoLineFeed(rest[k])
    ensures forall k :: 0 <= k < |rest| ==> NoLineFeed(([[c] + rest[0]] + rest[1..])[k])
    ensures JoinLines([[c] + rest[0]] + rest[1..]) == [c] + t
  {
    var lines := [[c] + rest[0]] + rest[1..];
    forall k | 0 <= k < |lines| ensures NoLineFeed(lines[k]) {
      if k == 0 {
        ConsNoLineFeed(c, rest[0]);
      } else {
        assert lines[k] == rest[k];
      }
    }
    JoinExtended(c, rest, t);
  }

  lemma ConsNoLineFeed(c: CodeUnit, x: JsString)
    requires c != LF && NoLineFeed(x)
    ensures NoLineFeed([c] + x)
  {
  }

  lemma JoinExtended(c: CodeUnit, rest: seq<JsString>, t: JsString)
    requires |rest| >= 1 && JoinLines(rest) == t
    ensures JoinLines([[c] + rest[0]] + rest[1..]) == [c] + t
  {
    var first := [c] + rest[0];
    var lines := [first] + rest[1..];
    if |rest| > 1 {
      assert lines[1..] == rest[1..];
      Assoc4([c], rest[0], [LF], JoinLines(rest[1..]));
    }
  }

  lemma Assoc4(a: JsString, b: JsString, c: JsString, d: JsString)
    ensures a + (b + c + d) == (a + b) + c + d
  {
  }

  /** A text without line feeds is a single line. */
  lemma SplitSingleLine(s: JsString)
    requires NoLineFeed(s)
    ensures SplitLines(s) == [s]
  {
    SplitLinesSpec(s);
    assert Count(s, LF) == 0 by { CountAbsent(s, LF); }
    var lines := SplitLines(s);
    assert |lines| == 1;
    assert JoinLines(lines) == lines[0];
  }

  lemma {:induction false} CountAbsent(s: JsString, c: CodeUnit)
    requires forall k :: 0 <= k < |s| ==> s[k] != c
    ensures Count(s, c) == 0
  {
    if s != [] {
      CountAbsent(s[1..], c);
    }
  }
}
