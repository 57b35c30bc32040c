/** The regular-expression passes of `processHtmlContent` and `decodeHtmlEntities`.
    Each `text.replace(/re/g, f)` is `ReplaceAll(p, text)`: scanning left to right,
    a match of `re` starting at the current position is replaced and scanning
    resumes after it; otherwise the code unit is kept. None of the expressions has
    anchors or look-behind, so whether (and how long) a match starts at a position
    depends only on the text from there on, which `MatchLen` computes; none can
    match the empty string. */
module HtmlPasses {
  import opened JsText

  /** Named-reference tables: lower-case entity name to replacement text. */
  type EntityTable = map<JsString, JsString>

  datatype Pattern =
    | BreakTag              // /<br\s*\/?>/gi                                   -> "\n"
    | ParagraphClose        // /<\/p>/gi                                        -> "\n\n"
    | ParagraphOpen         // /<p[^>]*>/gi                                     -> ""
    | BlockClose            // /<\/(div|blockquote|h[1-6])>/gi                  -> "\n"
    | BlockOpen             // /<(div|blockquote|h[1-6])[^>]*>/gi               -> ""
    | InlineTag             // /<\/?(?:strong|b|em|i|u|span|a|code|pre)[^>]*>/gi -> ""
    | AnyTag                // /<[^>]*>/g                                       -> ""
    | LineFeedRun           // /\n{3,}/g                                        -> "\n\n"
    | LineFeedPadding       // /[ \t]*\n[ \t]*/g                                -> "\n"
    | NumericRef            // /&#(\d+);/g                -> String.fromCharCode(Number(dec))
    | NamedRef(table: EntityTable)  // /&([a-z]+);/gi     -> table[name.toLowerCase()] || match
    | AnyRef(table: EntityTable)    // /&#(\d+);|&([a-z]+);/gi, one callback for both
    | LineFeed              // /\n/g                                            -> "\n"

  // Literal pieces of the expressions, as code units.
  const Br: JsString := [0x62, 0x72]  // "br"
  const P: JsString := [0x70]  // "p"
  const Div: JsString := [0x64, 0x69, 0x76]  // "div"
  const Blockquote: JsString := [0x62, 0x6C, 0x6F, 0x63, 0x6B, 0x71, 0x75, 0x6F, 0x74, 0x65]  // "blockquote"
  const H: JsString := [0x68]  // "h"
  const Strong: JsString := [0x73, 0x74, 0x72, 0x6F, 0x6E, 0x67]  // "strong"
  const B: JsString := [0x62]  // "b"
  const Em: JsString := [0x65, 0x6D]  // "em"
  const I: JsString := [0x69]  // "i"
  const U: JsString := [0x75]  // "u"
  const Span: JsString := [0x73, 0x70, 0x61, 0x6E]  // "span"
  const A: JsString := [0x61]  // "a"
  const Code: JsString := [0x63, 0x6F, 0x64, 0x65]  // "code"
  const Pre: JsString := [0x70, 0x72, 0x65]  // "pre"

  datatype CharClass = Whitespace | Digit | Letter | SpaceOrTab | LineFeedOnly

  predicate InClass(c: CodeUnit, k: CharClass)
  {
    match k
    case Whitespace => IsWhitespace(c)
    case Digit => IsAsciiDigit(c)
    case Letter => IsAsciiLetter(c)
    case SpaceOrTab => c == SPACE || c == TAB
    case LineFeedOnly => c == LF
  }

  /** End of the longest run of class-k code units starting at i (a greedy `k*`). */
  function RunEnd(s: JsString, i: nat, k: CharClass): (e: nat)
    requires i <= |s|
    ensures i <= e <= |s|
    ensures forall m :: i <= m < e ==> InClass(s[m], k)
    ensures e < |s| ==> !InClass(s[e], k)
    decreases |s| - i
  {
    if i < |s| && InClass(s[i], k) then RunEnd(s, i + 1, k) else i
  }

  /** Index of the first `>` at or after i, |s| when there is none (`[^>]*>`). */
  function GtFrom(s: JsString, i: nat): (j: nat)
    requires i <= |s|
    ensures i <= j <= |s|
    ensures forall m :: i <= m < j ==> s[m] != GT
    ensures j < |s| ==> s[j] == GT
    decreases |s| - i
  {
    if i == |s| || s[i] == GT then i else GtFrom(s, i + 1)
  }

  /** s continues at i with w, ASCII letters compared without case (w is lower case). */
  predicate StartsWithCI(s: JsString, i: nat, w: JsString)
  {
    i + |w| <= |s| && forall k :: 0 <= k < |w| ==> LowerUnit(s[i + k]) == w[k]
  }

  predicate IsHeadingDigit(c: CodeUnit) { 0x31 <= c <= 0x36 }

  /** Length of `(div|blockquote|h[1-6])` at i, 0 when none of the names is there. */
  function BlockNameLen(s: JsString, i: nat): (n: nat)
    requires i <= |s|
    ensures i + n <= |s|
  {
    if StartsWithCI(s, i, Div) then 3
    else if StartsWithCI(s, i, Blockquote) then 10
    else if StartsWithCI(s, i, H) && i + 1 < |s| && IsHeadingDigit(s[i + 1]) then 2
    else 0
  }

  /** One of `strong|b|em|i|u|span|a|code|pre` starts at i. */
  predicate InlineNameAt(s: JsString, i: nat)
  {
    StartsWithCI(s, i, Strong) || StartsWithCI(s, i, B)
    || StartsWithCI(s, i, Em) || StartsWithCI(s, i, I)
    || StartsWithCI(s, i, U) || StartsWithCI(s, i, Span)
    || StartsWithCI(s, i, A) || StartsWithCI(s, i, Code)
    || StartsWithCI(s, i, Pre)
  }

  /** The code units a match of p can start with. */
  predicate IsLead(p: Pattern, c: CodeUnit)
  {
    match p
    case LineFeedRun => c == LF
    case LineFeed => c == LF
    case LineFeedPadding => c == SPACE || c == TAB || c == LF
    case NumericRef => c == AMP
    case NamedRef(_) => c == AMP
    case AnyRef(_) => c == AMP
    case _ => c == LT
  }

  predicate NoLead(p: Pattern, s: JsString)
  {
    forall k :: 0 <= k < |s| ==> !IsLead(p, s[k])
  }

  /** End of a tag whose `[^>]*>` tail starts at i: one past the first `>`, or 0. */
  function TagTail(s: JsString, i: nat): (n: nat)
    requires i <= |s|
    ensures n <= |s|
    ensures n > 0 ==> i < n
  {
    var j := GtFrom(s, i);
    if j < |s| then j + 1 else 0
  }

  /** Length of the match of p at the start of s, 0 when there is none. */
  function MatchLen(p: Pattern, s: JsString): (n: nat)
    ensures n <= |s|
    ensures n > 0 ==> IsLead(p, s[0])
  {
    match p
    case BreakTag =>
      if |s| > 0 && s[0] == LT && StartsWithCI(s, 1, Br) then
        var e := RunEnd(s, 3, Whitespace);
        var f := if e < |s| && s[e] == SLASH then e + 1 else e;
        if f < |s| && s[f] == GT then f + 1 else 0
      else 0
    case ParagraphClose =>
      if |s| > 3 && s[0] == LT && s[1] == SLASH && StartsWithCI(s, 2, P) && s[3] == GT then 4 else 0
    case ParagraphOpen =>
      if |s| > 0 && s[0] == LT && StartsWithCI(s, 1, P) then TagTail(s, 2) else 0
    case BlockClose =>
      if |s| > 1 && s[0] == LT && s[1] == SLASH then
        var n := BlockNameLen(s, 2);
        if n > 0 && 2 + n < |s| && s[2 + n] == GT then 3 + n else 0
      else 0
    case BlockOpen =>
      if |s| > 0 && s[0] == LT && BlockNameLen(s, 1) > 0 then TagTail(s, 1) else 0
    case InlineTag =>
      if |s| > 0 && s[0] == LT then
        var k := if |s| > 1 && s[1] == SLASH then 2 else 1;
        if InlineNameAt(s, k) then TagTail(s, k) else 0
      else 0
    case AnyTag =>
      if |s| > 0 && s[0] == LT then TagTail(s, 1) else 0
    case LineFeedRun =>
      var e := RunEnd(s, 0, LineFeedOnly);
      if e >= 3 then e else 0
    case LineFeedPadding =>
      var e := RunEnd(s, 0, SpaceOrTab);
      if e < |s| && s[e] == LF then RunEnd(s, e + 1, SpaceOrTab) else 0
    case NumericRef =>
      NumericRefLen(s)
    case NamedRef(_) =>
      NamedRefLen(s)
    case AnyRef(_) =>
      if NumericRefLen(s) > 0 then NumericRefLen(s) else NamedRefLen(s)
    case LineFeed =>
      if |s| > 0 && s[0] == LF then 1 else 0
  }

  /** Length of `&#(\d+);` at the start of s, or 0. */
  function NumericRefLen(s: JsString): (n: nat)
    ensures n <= |s|
    ensures n > 0 ==> n >= 4 && s[0] == AMP && s[1] == HASH && s[n - 1] == SEMICOLON
    ensures n > 0 ==> forall m :: 2 <= m < n - 1 ==> IsAsciiDigit(s[m])
  {
    if |s| >= 2 && s[0] == AMP && s[1] == HASH then
      var e := RunEnd(s, 2, Digit);
      if e > 2 && e < |s| && s[e] == SEMICOLON then e + 1 else 0
    else 0
  }

  /** Length of `&([a-z]+);` (case-insensitive) at the start of s, or 0. */
  function NamedRefLen(s: JsString): (n: nat)
    ensures n <= |s|
    ensures n > 0 ==> n >= 3 && s[0] == AMP && s[n - 1] == SEMICOLON
    ensures n > 0 ==> forall m :: 1 <= m < n - 1 ==> IsAsciiLetter(s[m])
  {
    if |s| >= 1 && s[0] == AMP then
      var e := RunEnd(s, 1, Letter);
      if e > 1 && e < |s| && s[e] == SEMICOLON then e + 1 else 0
    else 0
  }

  /** `Number(d)` for a string of decimal digits. */
  function DecimalValue(d: JsString): nat
  {
    if d == [] then 0 else 10 * DecimalValue(d[..|d| - 1]) + (d[|d| - 1] as int - 0x30) % 10
  }

  /** `String.fromCharCode(n)`: ToUint16, i.e. the code unit n modulo 2^16. */
  function FromCharCode(n: nat): (c: CodeUnit)
    ensures c as int == n % 0x1_0000
  {
    (n % 0x1_0000) as CodeUnit
  }

  /** `table[name.toLowerCase()] || whole`: an unknown name (or an empty entry,
      which is falsy) leaves the whole reference as it was. */
  function NamedValue(table: EntityTable, whole: JsString, name: JsString): (r: JsString)
    ensures r == whole || (r in table.Values && r != [])
  {
    var key := LowerAscii(name);
    if key in table && table[key] != [] then table[key] else whole
  }

  /** What the match of p of length n at the start of s is replaced with. */
  function Replacement(p: Pattern, s: JsString, n: nat): JsString
    requires 0 < n == MatchLen(p, s)
  {
    match p
    case BreakTag => [LF]
    case ParagraphClose => [LF, LF]
    case BlockClose => [LF]
    case LineFeedRun => [LF, LF]
    case LineFeedPadding => [LF]
    case LineFeed => [LF]
    case NumericRef => [FromCharCode(DecimalValue(s[2..n - 1]))]
    case NamedRef(t) => NamedValue(t, s[..n], s[1..n - 1])
    case AnyRef(t) =>
      if NumericRefLen(s) > 0 then [FromCharCode(DecimalValue(s[2..n - 1]))]
      else NamedValue(t, s[..n], s[1..n - 1])
    case _ => []
  }

  /** `s.replace(p, …)` with the global flag. It never lengthens the text when no
      replacement is longer than its match. */
  function ReplaceAll(p: Pattern, s: JsString): (r: JsString)
    ensures ShortReplacements(p) ==> |r| <= |s|
    decreases |s|
  {
    if s == [] then []
    else
      var n := MatchLen(p, s);
      if n > 0 then
        ReplacementNoLonger(p, s, n);
        Replacement(p, s, n) + ReplaceAll(p, s[n..])
      else [s[0]] + ReplaceAll(p, s[1..])
  }

  /** Every entry of the table is at most three code units, no longer than the
      shortest reference `&x;` that could name it. */
  predicate ShortEntries(t: EntityTable)
  {
    forall k :: k in t ==> |t[k]| <= 3
  }

  /** The pass replaces no match by something longer: true of every tag and
      whitespace pass and of the numeric pass; the named-reference passes need a
      table of short entries. */
  predicate ShortReplacements(p: Pattern)
  {
    match p
    case NamedRef(t) => ShortEntries(t)
    case AnyRef(t) => ShortEntries(t)
    case _ => true
  }

  lemma ReplacementNoLonger(p: Pattern, s: JsString, n: nat)
    requires 0 < n == MatchLen(p, s)
    ensures ShortReplacements(p) ==> |Replacement(p, s, n)| <= n
  {
    match p
    case NamedRef(t) =>
      var key := LowerAscii(s[1..n - 1]);
      assert ShortEntries(t) && key in t && t[key] != [] ==> |t[key]| <= 3;
    case AnyRef(t) =>
      var key := LowerAscii(s[1..n - 1]);
      assert ShortEntries(t) && key in t && t[key] != [] ==> |t[key]| <= 3;
    case _ =>
  }

  // ---------------------------------------------------------------------------
  // Stepping a pass over a concatenation, one piece at a time.

  /** One step of a pass at a position where no match starts. */
  lemma KeepStep(p: Pattern, s: JsString)
    requires s != [] && MatchLen(p, s) == 0
    ensures ReplaceAll(p, s) == [s[0]] + ReplaceAll(p, s[1..])
  {
  }

  /** A piece with no code unit that could start a match passes through unchanged. */
  lemma {:induction false} PlainChunk(p: Pattern, c: JsString, rest: JsString)
    requires NoLead(p, c)
    ensures ReplaceAll(p, c + rest) == c + ReplaceAll(p, rest)
    decreases |c|
  {
    if c != [] {
      var s := c + rest;
      assert s[0] == c[0] && !IsLead(p, s[0]);
      assert MatchLen(p, s) == 0;
      KeepStep(p, s);
      assert s[1..] == c[1..] + rest;
      PlainChunk(p, c[1..], rest);
      Regroup(c, ReplaceAll(p, s), ReplaceAll(p, c[1..] + rest), ReplaceAll(p, rest));
    } else {
      assert c + rest == rest;
    }
  }

  /** A pass is the identity on a text in which no match can start. */
  lemma NoLeadUnchanged(p: Pattern, s: JsString)
    requires NoLead(p, s)
    ensures ReplaceAll(p, s) == s
  {
    PlainChunk(p, s, []);
    assert s + [] == s;
  }

  /** A piece that is exactly one match is replaced. */
  lemma MatchChunk(p: Pattern, c: JsString, rest: JsString)
    requires 0 < |c| == MatchLen(p, c + rest)
    ensures ReplaceAll(p, c + rest) == Replacement(p, c + rest, |c|) + ReplaceAll(p, rest)
  {
    assert (c + rest)[|c|..] == rest;
  }

  /** A match of length n at the start of s is replaced by v, and the pass goes on after it. */
  lemma MatchAt(p: Pattern, s: JsString, n: nat, rest: JsString, v: JsString)
    requires 0 < n == MatchLen(p, s)
    requires s[n..] == rest && Replacement(p, s, n) == v
    ensures ReplaceAll(p, s) == v + ReplaceAll(p, rest)
  {
  }

  /** A piece that starts with a lead code unit but no match, and has no lead after it. */
  lemma SkipChunk(p: Pattern, c: JsString, rest: JsString)
    requires |c| > 0 && MatchLen(p, c + rest) == 0 && NoLead(p, c[1..])
    ensures ReplaceAll(p, c + rest) == c + ReplaceAll(p, rest)
  {
    var s := c + rest;
    assert s[0] == c[0] && s[1..] == c[1..] + rest;
    KeepStep(p, s);
    PlainChunk(p, c[1..], rest);
    Regroup(c, ReplaceAll(p, s), ReplaceAll(p, c[1..] + rest), ReplaceAll(p, rest));
  }

  /** The first unit of a piece, then the rest of it, then a tail is the piece then the tail. */
  lemma Regroup(c: JsString, x: JsString, y: JsString, z: JsString)
    requires c != [] && x == [c[0]] + y && y == c[1..] + z
    ensures x == c + z
  {
    assert [c[0]] + c[1..] == c;
  }

  /** The first code unit of a pass's output is a replacement's or the input's own. */
  lemma FirstUnit(p: Pattern, s: JsString)
    requires s != [] && MatchLen(p, s) == 0
    ensures ReplaceAll(p, s) != [] && ReplaceAll(p, s)[0] == s[0]
  {
  }
}
