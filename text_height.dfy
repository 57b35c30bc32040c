/** The height estimators of card-comment (`calculateHeight`) and of comment-youtube
    (`estimateTextHeight`): both split the text at line feeds and let each line
    wrap at an estimated number of characters per line. */
module TextHeight {
  import opened Wrappers
  import opened JsText
  import opened JsNumber

  // ---------------------------------------------------------------------------
  // Wrapped lines

  /** Characters per line in card-comment: the text width (width less twice the
      padding) over an average character width of 0.55 font sizes, floored and
      never below 1. */
  function CharsPerLine(width: real, fontSize: real, padding: real): (c: int)
    requires fontSize > 0.0
    ensures c >= 1
    ensures c > 1 ==> c == UnguardedCharsPerLine(width, fontSize, padding)
    ensures UnguardedCharsPerLine(width, fontSize, padding) >= 1 ==> c == UnguardedCharsPerLine(width, fontSize, padding)
  {
    var n := UnguardedCharsPerLine(width, fontSize, padding);
    if n >= 1 then n else 1
  }

  /** Characters per line in comment-youtube: the same quotient without the lower
      bound, so zero or negative when the padding leaves no room. */
  function UnguardedCharsPerLine(width: real, fontSize: real, padding: real): (c: int)
    requires fontSize > 0.0
    ensures c as real * (fontSize * 0.55) <= width - padding * 2.0 < (c + 1) as real * (fontSize * 0.55)
  {
    FloorQuotient(width - padding * 2.0, fontSize * 0.55);
    Floor((width - padding * 2.0) / (fontSize * 0.55))
  }

  /** The floor of `y / k` brackets `y` between two multiples of `k`. */
  lemma FloorQuotient(y: real, k: real)
    requires k > 0.0
    ensures Floor(y / k) as real * k <= y < (Floor(y / k) + 1) as real * k
  {
    var x := y / k;
    var c := Floor(x);
    var upper := c as real + 1.0;
    assert x * k == y;
    assert c as real <= x < upper;
    MulMonotone(c as real, x, k);
    MulStrict(x, upper, k);
    assert x * k < upper * k;
    assert y < upper * k;
    assert (c + 1) as real == upper;
    assert c as real * k <= y;
    assert y < (c + 1) as real * k;
  }

  /** Rows one line occupies: 1 for a blank line, otherwise the fewest rows of
      `cpl` characters that hold it. */
  function LineRows(line: JsString, cpl: int): (r: int)
    requires cpl >= 1
    ensures r >= 1
    ensures IsBlank(line) ==> r == 1
    ensures !IsBlank(line) ==> (r - 1) * cpl < |line| <= r * cpl
  {
    if IsBlank(line) then 1
    else
      var q := Ceil(|line| as real / cpl as real);
      CeilDivBounds(|line|, cpl);
      if q >= 1 then q else 1
  }

  /** `Math.ceil(n / c)` is the least r with n <= r * c. */
  lemma CeilDivBounds(n: nat, c: int)
    requires n >= 1 && c >= 1
    ensures Ceil(n as real / c as real) >= 1
    ensures (Ceil(n as real / c as real) - 1) * c < n <= Ceil(n as real / c as real) * c
  {
    var r := Ceil(n as real / c as real);
    CeilDivUpper(n, c, r);
    CeilDivLower(n, c, r);
  }

  /** A row count at least the quotient holds the line. */
  lemma CeilDivUpper(n: nat, c: int, r: int)
    requires c >= 1 && n as real / c as real <= r as real
    ensures n <= r * c
  {
    var x := n as real / c as real;
    assert x * c as real == n as real;
    MulMonotone(x, r as real, c as real);
    IntToRealMul(r, c);
  }

  /** One row fewer than a count below the quotient plus one does not. */
  lemma CeilDivLower(n: nat, c: int, r: int)
    requires c >= 1 && r as real < n as real / c as real + 1.0
    ensures (r - 1) * c < n
  {
    var x := n as real / c as real;
    assert x * c as real == n as real;
    MulStrict(r as real - 1.0, x, c as real);
    IntToRealMul(r - 1, c);
  }

  lemma IntToRealMul(a: int, b: int)
    ensures (a * b) as real == a as real * b as real
  {
  }

  lemma MulMonotone(a: real, b: real, c: real)
    requires a <= b && c >= 0.0
    ensures a * c <= b * c
  {
  }

  lemma MulStrict(a: real, b: real, c: real)
    requires a < b && c > 0.0
    ensures a * c < b * c
  {
  }

  /** Total rows of a sequence of lines. */
  function TotalRows(lines: seq<JsString>, cpl: int): (r: int)
    requires cpl >= 1
    ensures r >= |lines|
  {
    if lines == [] then 0
    else TotalRows(lines[..|lines| - 1], cpl) + LineRows(lines[|lines| - 1], cpl)
  }

  /** Every line takes at least one row, so a text takes at least one row more
      than it has line feeds. */
  lemma RowsAtLeastLineCount(text: JsString, cpl: int)
    requires cpl >= 1
    ensures TotalRows(SplitLines(text), cpl) >= Count(text, LF) + 1
  {
    SplitLinesSpec(text);
  }

  /** A line holds no fewer rows when it grows, unless it grows from holding
      content into a blank line. */
  lemma LineRowsMonotone(a: JsString, b: JsString, cpl: int)
    requires cpl >= 1
    requires |a| <= |b|
    requires IsBlank(a) || !IsBlank(b)
    ensures LineRows(a, cpl) <= LineRows(b, cpl)
  {
    if !IsBlank(a) {
      var ra := LineRows(a, cpl);
      var rb := LineRows(b, cpl);
      assert (ra - 1) * cpl < rb * cpl;
      IntMulCancel(ra - 1, rb, cpl);
    }
  }

  lemma IntMulCancel(a: int, b: int, c: int)
    requires a * c < b * c && c > 0
    ensures a < b
  {
    if a >= b {
      IntMulMonotone(b, a, c);
    }
  }

  lemma IntMulMonotone(a: int, b: int, c: int)
    requires a <= b && c >= 0
    ensures a * c <= b * c
  {
  }

  /** Line-wise longer lines (in that sense) need no fewer rows in total. */
  lemma {:induction false} TotalRowsMonotone(xs: seq<JsString>, ys: seq<JsString>, cpl: int)
    requires cpl >= 1
    requires |xs| == |ys|
    requires forall k :: 0 <= k < |xs| ==> |xs[k]| <= |ys[k]| && (IsBlank(xs[k]) || !IsBlank(ys[k]))
    ensures TotalRows(xs, cpl) <= TotalRows(ys, cpl)
  {
    if xs != [] {
      var n := |xs| - 1;
      TotalRowsMonotone(xs[..n], ys[..n], cpl);
      LineRowsMonotone(xs[n], ys[n], cpl);
    }
  }

  // ---------------------------------------------------------------------------
  // calculateHeight

  /** The avatar row: 52 px with the author image and 40 px without, at font size 16. */
  function HeaderHeight(showAuthorImage: bool, fontSize: real): real
  {
    if showAuthorImage then 52.0 * (fontSize / 16.0) else 40.0 * (fontSize / 16.0)
  }

  /** The like-count row: 32 px at font size 16, or nothing. */
  function FooterHeight(showLikeCount: bool, fontSize: real): real
  {
    if showLikeCount then 32.0 * (fontSize / 16.0) else 0.0
  }

  /** Content height for a number of rows: text, header, footer, padding on both
      sides and a spacing buffer of 24 px at font size 16. */
  function ContentFromRows(rows: int, fontSize: real, padding: real,
                           showAuthorImage: bool, showLikeCount: bool, lineHeight: real): real
  {
    rows as real * (fontSize * lineHeight) + HeaderHeight(showAuthorImage, fontSize) +
      FooterHeight(showLikeCount, fontSize) + padding * 2.0 + 24.0 * (fontSize / 16.0)
  }

  /** The card height for a number of rows: the content height, at least 150 px at
      font size 16, rounded up. */
  function HeightFromRows(rows: int, fontSize: real, padding: real,
                          showAuthorImage: bool, showLikeCount: bool, lineHeight: real): (h: int)
    ensures h as real >= 150.0 * (fontSize / 16.0)
    ensures h as real >= ContentFromRows(rows, fontSize, padding, showAuthorImage, showLikeCount, lineHeight)
    ensures h == Ceil(150.0 * (fontSize / 16.0)) ||
      h == Ceil(ContentFromRows(rows, fontSize, padding, showAuthorImage, showLikeCount, lineHeight))
  {
    Ceil(Max(150.0 * (fontSize / 16.0),
      ContentFromRows(rows, fontSize, padding, showAuthorImage, showLikeCount, lineHeight)))
  }

  /** `calculateHeight` as a function of its arguments: a whole number of pixels,
      at least 150 px at font size 16 and at least the content height of the
      wrapped rows. */
  function CalculatedHeight(text: JsString, width: real, fontSize: real, padding: real,
                            showAuthorImage: bool, showLikeCount: bool, lineHeight: real): (h: int)
    requires fontSize > 0.0
    ensures h >= 1 && h as real >= 150.0 * (fontSize / 16.0)
    ensures h as real >= ContentFromRows(TotalRows(SplitLines(text), CharsPerLine(width, fontSize, padding)),
      fontSize, padding, showAuthorImage, showLikeCount, lineHeight)
  {
    HeightFromRows(TotalRows(SplitLines(text), CharsPerLine(width, fontSize, padding)),
      fontSize, padding, showAuthorImage, showLikeCount, lineHeight)
  }

  /** Rows one line adds in `calculateHeight` at font size 0, where the average
      character width is 0 and characters per line is `room / 0` for the text
      width `room`: NaN (None) when `room` is 0, +Infinity when it is positive, and
      clamped to 1 when it is negative. A blank line adds 1 without reading it; a
      line with content adds NaN, 1 (`Math.ceil(length / Infinity)` is 0, raised
      to 1) or its length. */
  function ZeroFontLineRows(line: JsString, room: real): (r: Option<int>)
    ensures r.None? <==> room == 0.0 && !IsBlank(line)
    ensures r.Some? ==> r.value >= 1
  {
    if IsBlank(line) then Some(1)
    else if room == 0.0 then None
    else if room > 0.0 then Some(1)
    else Some(|line|)
  }

  /** The row total at font size 0: NaN (None) as soon as one line adds NaN. */
  function ZeroFontRows(lines: seq<JsString>, room: real): (r: Option<int>)
    ensures r.None? <==> room == 0.0 && HasContentLine(lines)
    ensures r.Some? ==> r.value >= |lines|
  {
    if lines == [] then Some(0)
    else
      var n := |lines| - 1;
      var a := ZeroFontRows(lines[..n], room);
      var b := ZeroFontLineRows(lines[n], room);
      ContentLineSplit(lines);
      if a.None? || b.None? then None else Some(a.value + b.value)
  }

  /** Some line of a non-empty list has content exactly when one of the lines
      before the last does or the last one does. */
  lemma ContentLineSplit(lines: seq<JsString>)
    requires lines != []
    ensures HasContentLine(lines) <==> HasContentLine(lines[..|lines| - 1]) || !IsBlank(lines[|lines| - 1])
  {
    var n := |lines| - 1;
    if HasContentLine(lines) {
      var k :| 0 <= k < |lines| && !IsBlank(lines[k]);
      if k < n { assert !IsBlank(lines[..n][k]); }
    }
    if HasContentLine(lines[..n]) {
      var k :| 0 <= k < n && !IsBlank(lines[..n][k]);
      assert !IsBlank(lines[k]);
    }
  }

  /** `calculateHeight` at font size 0. The text height, header, footer and buffer
      are all 0 px, so a finite row total leaves only the padding, rounded up;
      the height is NaN exactly when the width leaves no room between the
      paddings and some line has content. */
  function ZeroFontHeight(text: JsString, width: real, padding: real,
                          showAuthorImage: bool, showLikeCount: bool, lineHeight: real): (h: Number)
    ensures h.NaN? <==> width == padding * 2.0 && HasContentLine(SplitLines(text))
    ensures !h.NaN? ==> h == Finite(Ceil(Max(0.0, padding * 2.0)) as real)
  {
    var rows := ZeroFontRows(SplitLines(text), width - padding * 2.0);
    if rows.None? then NaN
    else
      assert ContentFromRows(rows.value, 0.0, padding, showAuthorImage, showLikeCount, lineHeight) == padding * 2.0;
      Finite(HeightFromRows(rows.value, 0.0, padding, showAuthorImage, showLikeCount, lineHeight) as real)
  }

  /** A text has a line with content exactly when it is not all whitespace (a line
      feed is whitespace itself). */
  lemma {:induction false} ContentLineIffNotBlank(s: JsString)
    ensures HasContentLine(SplitLines(s)) <==> !AllWhitespace(s)
  {
    if s == [] {
      assert SplitLines(s) == [[]];
      assert IsBlank(SplitLines(s)[0]);
    } else {
      ContentLineIffNotBlank(s[1..]);
      var rest := SplitLines(s[1..]);
      assert AllWhitespace(s) <==> IsWhitespace(s[0]) && AllWhitespace(s[1..]) by {
        if IsWhitespace(s[0]) && AllWhitespace(s[1..]) {
          forall k | 0 <= k < |s| ensures IsWhitespace(s[k]) {
            if k > 0 { assert s[k] == s[1..][k - 1]; }
          }
        }
        if AllWhitespace(s) {
          forall k | 0 <= k < |s| - 1 ensures IsWhitespace(s[1..][k]) {
            assert s[1..][k] == s[k + 1];
          }
        }
      }
      if s[0] == LF {
        assert SplitLines(s) == [[]] + rest;
        ContentLineCons([], rest);
      } else {
        assert SplitLines(s) == [[s[0]] + rest[0]] + rest[1..];
        ContentLineExtend(s[0], rest);
      }
    }
  }

  lemma ContentLineCons(line: JsString, rest: seq<JsString>)
    requires IsBlank(line)
    ensures HasContentLine([line] + rest) <==> HasContentLine(rest)
  {
    var lines := [line] + rest;
    if HasContentLine(lines) {
      var k :| 0 <= k < |lines| && !IsBlank(lines[k]);
      assert k > 0 && lines[k] == rest[k - 1];
    }
    if HasContentLine(rest) {
      var k :| 0 <= k < |rest| && !IsBlank(rest[k]);
      assert lines[k + 1] == rest[k];
    }
  }

  /** A code unit joining the first line gives that line content exactly when it
      is not whitespace or the line had content already. */
  lemma ContentLineExtend(c: CodeUnit, rest: seq<JsString>)
    requires rest != []
    ensures HasContentLine([[c] + rest[0]] + rest[1..]) <==> !IsWhitespace(c) || HasContentLine(rest)
  {
    var lines := [[c] + rest[0]] + rest[1..];
    assert IsBlank(lines[0]) <==> IsWhitespace(c) && IsBlank(rest[0]) by {
      var first := [c] + rest[0];
      if IsWhitespace(c) && IsBlank(rest[0]) {
        forall k | 0 <= k < |first| ensures IsWhitespace(first[k]) {
          if k > 0 { assert first[k] == rest[0][k - 1]; }
        }
      }
      if IsBlank(first) {
        assert IsWhitespace(first[0]);
        forall k | 0 <= k < |rest[0]| ensures IsWhitespace(rest[0][k]) {
          assert rest[0][k] == first[k + 1];
        }
      }
    }
    if HasContentLine(lines) {
      var k :| 0 <= k < |lines| && !IsBlank(lines[k]);
      if k > 0 { assert lines[k] == rest[k]; }
    }
    if HasContentLine(rest) {
      var k :| 0 <= k < |rest| && !IsBlank(rest[k]);
      if k > 0 { assert lines[k] == rest[k]; }
    }
  }

  /** `calculateHeight`: adds up the rows line by line, then sizes the card. */
  method CalculateHeight(text: JsString, width: real, fontSize: real, padding: real,
                         showAuthorImage: bool, showLikeCount: bool, lineHeight: real) returns (h: int)
    requires fontSize > 0.0
    ensures h == CalculatedHeight(text, width, fontSize, padding, showAuthorImage, showLikeCount, lineHeight)
    ensures h as real >= 150.0 * (fontSize / 16.0)
    ensures h >= 1
  {
    var availableWidth := width - padding * 2.0;
    var avgCharWidth := fontSize * 0.55;
    var cpl := Floor(availableWidth / avgCharWidth);
    if cpl < 1 {
      cpl := 1;
    }
    assert cpl == CharsPerLine(width, fontSize, padding);
    var lines := SplitLines(text);
    var totalLines := 0;
    for i := 0 to |lines|
      invariant totalLines == TotalRows(lines[..i], cpl)
    {
      assert lines[..i + 1][..i] == lines[..i];
      if AllWhitespace(lines[i]) {
        totalLines := totalLines + 1;
      } else {
        var q := Ceil(|lines[i]| as real / cpl as real);
        totalLines := totalLines + (if q >= 1 then q else 1);
      }
    }
    assert lines[..|lines|] == lines;
    // Text, header, footer, padding and buffer, at least 150 px at size 16, rounded up.
    h := HeightFromRows(totalLines, fontSize, padding, showAuthorImage, showLikeCount, lineHeight);
  }

  /** More rows, the author image and the like count each give a card no lower. */
  lemma HeightFromRowsMonotone(r1: int, r2: int, fontSize: real, padding: real,
                               a1: bool, a2: bool, l1: bool, l2: bool, lineHeight: real)
    requires r1 <= r2 && fontSize > 0.0 && lineHeight >= 0.0
    requires a1 ==> a2
    requires l1 ==> l2
    ensures HeightFromRows(r1, fontSize, padding, a1, l1, lineHeight) <=
      HeightFromRows(r2, fontSize, padding, a2, l2, lineHeight)
  {
    var c1 := ContentFromRows(r1, fontSize, padding, a1, l1, lineHeight);
    var c2 := ContentFromRows(r2, fontSize, padding, a2, l2, lineHeight);
    MulMonotone(r1 as real, r2 as real, fontSize * lineHeight);
    FlagsMonotone(a1, a2, l1, l2, fontSize);
    SumMonotone(r1 as real * (fontSize * lineHeight), r2 as real * (fontSize * lineHeight),
      HeaderHeight(a1, fontSize), HeaderHeight(a2, fontSize),
      FooterHeight(l1, fontSize), FooterHeight(l2, fontSize), padding * 2.0 + 24.0 * (fontSize / 16.0));
    CeilMonotone(Max(150.0 * (fontSize / 16.0), c1), Max(150.0 * (fontSize / 16.0), c2));
  }

  lemma FlagsMonotone(a1: bool, a2: bool, l1: bool, l2: bool, fontSize: real)
    requires fontSize > 0.0 && (a1 ==> a2) && (l1 ==> l2)
    ensures HeaderHeight(a1, fontSize) <= HeaderHeight(a2, fontSize)
    ensures FooterHeight(l1, fontSize) <= FooterHeight(l2, fontSize)
  {
  }

  lemma SumMonotone(t1: real, t2: real, h1: real, h2: real, f1: real, f2: real, rest: real)
    requires t1 <= t2 && h1 <= h2 && f1 <= f2
    ensures t1 + h1 + f1 + rest <= t2 + h2 + f2 + rest
  {
  }

  /** calculateHeight is non-decreasing in the length of each line and in both flags. */
  lemma CalculatedHeightMonotone(t1: JsString, t2: JsString, width: real, fontSize: real, padding: real,
                                 a1: bool, a2: bool, l1: bool, l2: bool, lineHeight: real)
    requires fontSize > 0.0 && lineHeight >= 0.0
    requires a1 ==> a2
    requires l1 ==> l2
    requires |SplitLines(t1)| == |SplitLines(t2)|
    requires forall k :: 0 <= k < |SplitLines(t1)| ==>
      |SplitLines(t1)[k]| <= |SplitLines(t2)[k]| && (IsBlank(SplitLines(t1)[k]) || !IsBlank(SplitLines(t2)[k]))
    ensures CalculatedHeight(t1, width, fontSize, padding, a1, l1, lineHeight) <=
      CalculatedHeight(t2, width, fontSize, padding, a2, l2, lineHeight)
  {
    var cpl := CharsPerLine(width, fontSize, padding);
    TotalRowsMonotone(SplitLines(t1), SplitLines(t2), cpl);
    HeightFromRowsMonotone(TotalRows(SplitLines(t1), cpl), TotalRows(SplitLines(t2), cpl),
      fontSize, padding, a1, a2, l1, l2, lineHeight);
  }

  /** "short" on a 600 px card at font size 16 with 24 px padding, avatar and like
      count shown: 62 characters per line, one row, 180 px. */
  lemma ShortCommentHeight()
    ensures CharsPerLine(600.0, 16.0, 24.0) == 62
    ensures CalculatedHeight([0x73, 0x68, 0x6F, 0x72, 0x74], 600.0, 16.0, 24.0, true, true, 1.5) == 180
  {
    var text: JsString := [0x73, 0x68, 0x6F, 0x72, 0x74];
    assert (600.0 - 24.0 * 2.0) / (16.0 * 0.55) == 552.0 / 8.8;
    assert 62.0 <= 552.0 / 8.8 < 63.0;
    assert UnguardedCharsPerLine(600.0, 16.0, 24.0) == 62;
    assert NoLineFeed(text);
    SplitSingleLine(text);
    assert !IsBlank(text) by { assert !IsWhitespace(text[0]); }
    assert LineRows(text, 62) == 1;
    assert TotalRows([text], 62) == 1 by { assert [text][..0] == []; }
    assert ContentFromRows(1, 16.0, 24.0, true, true, 1.5) == 180.0;
    CeilOfInt(180);
  }

  // ---------------------------------------------------------------------------
  // estimateTextHeight

  /** Rows one line occupies in comment-youtube: 1 for a blank line; for a line
      with content, infinitely many when no character fits (line.length / 0 is
      Infinity), exactly 1 when the quotient is negative, and the wrapped count
      otherwise. */
  function EstimatedLineRows(line: JsString, cpl: int): (r: Number)
    ensures r.Finite? || r.PosInfinity?
    ensures r.PosInfinity? <==> !IsBlank(line) && cpl == 0
    ensures cpl >= 1 ==> r == Finite(LineRows(line, cpl) as real)
    ensures cpl < 0 ==> r == Finite(1.0)
  {
    if IsBlank(line) then Finite(1.0)
    else if cpl == 0 then PosInfinity
    else
      var q := Ceil(|line| as real / cpl as real);
      assert cpl < 0 ==> q <= 0 by {
        if cpl < 0 { assert |line| as real / cpl as real <= 0.0; }
      }
      Finite(Max(1.0, q as real))
  }

  /** Total rows in comment-youtube, infinite as soon as one line is. */
  function EstimatedRows(lines: seq<JsString>, cpl: int): (r: Number)
    ensures r.Finite? || r.PosInfinity?
  {
    if lines == [] then Finite(0.0)
    else Add(EstimatedRows(lines[..|lines| - 1], cpl), EstimatedLineRows(lines[|lines| - 1], cpl))
  }

  /** `estimateTextHeight` as a function of its arguments: rows times 1.5 font sizes. */
  function TextHeightEstimate(text: JsString, width: real, fontSize: real, padding: real): (r: Number)
    requires fontSize > 0.0
    ensures r.Finite? || r.PosInfinity?
  {
    Times(EstimatedRows(SplitLines(text), UnguardedCharsPerLine(width, fontSize, padding)), fontSize * 1.5)
  }

  /** `estimateTextHeight`: adds up the rows line by line. */
  method EstimateTextHeight(text: JsString, width: real, fontSize: real, padding: real) returns (h: Number)
    requires fontSize > 0.0
    ensures h == TextHeightEstimate(text, width, fontSize, padding)
  {
    var avgCharWidth := fontSize * 0.55;
    var availableWidth := width - padding * 2.0;
    var cpl := Floor(availableWidth / avgCharWidth);
    var lines := SplitLines(text);
    var totalLines := Finite(0.0);
    for i := 0 to |lines|
      invariant totalLines == EstimatedRows(lines[..i], cpl)
    {
      assert lines[..i + 1][..i] == lines[..i];
      if AllWhitespace(lines[i]) {
        totalLines := Add(totalLines, Finite(1.0));
      } else if cpl == 0 {
        totalLines := Add(totalLines, PosInfinity);
      } else {
        var q := Ceil(|lines[i]| as real / cpl as real);
        totalLines := Add(totalLines, Finite(Max(1.0, q as real)));
      }
    }
    assert lines[..|lines|] == lines;
    var lineHeight := fontSize * 1.5;
    h := Times(totalLines, lineHeight);
  }

  /** Where at least one character fits, comment-youtube counts rows exactly as
      card-comment does. */
  lemma {:induction false} EstimatedRowsGuarded(lines: seq<JsString>, cpl: int)
    requires cpl >= 1
    ensures EstimatedRows(lines, cpl) == Finite(TotalRows(lines, cpl) as real)
  {
    if lines != [] {
      EstimatedRowsGuarded(lines[..|lines| - 1], cpl);
    }
  }

  lemma EstimateAgreesWithCalculatedRows(text: JsString, width: real, fontSize: real, padding: real)
    requires fontSize > 0.0
    requires UnguardedCharsPerLine(width, fontSize, padding) >= 1
    ensures TextHeightEstimate(text, width, fontSize, padding) ==
      Times(Finite(TotalRows(SplitLines(text), CharsPerLine(width, fontSize, padding)) as real), fontSize * 1.5)
  {
    var lines := SplitLines(text);
    var cpl := UnguardedCharsPerLine(width, fontSize, padding);
    assert cpl == CharsPerLine(width, fontSize, padding);
    var rows := TotalRows(lines, cpl);
    assert EstimatedRows(lines, cpl) == Finite(rows as real) by { EstimatedRowsGuarded(lines, cpl); }
    assert TextHeightEstimate(text, width, fontSize, padding) == Times(Finite(rows as real), fontSize * 1.5);
  }

  /** An empty comment is one blank line: 1.5 font sizes. */
  lemma EmptyTextOneRow(width: real, fontSize: real, padding: real)
    requires fontSize > 0.0
    ensures TextHeightEstimate([], width, fontSize, padding) == Finite(fontSize * 1.5)
  {
    var lines: seq<JsString> := [[]];
    var cpl := UnguardedCharsPerLine(width, fontSize, padding);
    assert SplitLines([]) == lines;
    assert IsBlank(lines[0]);
    assert lines[..0] == [];
    assert EstimatedLineRows(lines[0], cpl) == Finite(1.0);
    assert EstimatedRows(lines, cpl) == Finite(1.0);
  }

  /** With no room for a character, the estimate is infinite exactly when some line
      has content. */
  predicate HasContentLine(lines: seq<JsString>)
  {
    exists k :: 0 <= k < |lines| && !IsBlank(lines[k])
  }

  lemma {:induction false} EstimatedRowsNoRoom(lines: seq<JsString>)
    ensures EstimatedRows(lines, 0).PosInfinity? <==> HasContentLine(lines)
  {
    if lines != [] {
      var n := |lines| - 1;
      EstimatedRowsNoRoom(lines[..n]);
      ContentLineSplit(lines);
    }
  }

  lemma NoRoomIsInfinite(text: JsString, width: real, fontSize: real, padding: real)
    requires fontSize > 0.0
    requires UnguardedCharsPerLine(width, fontSize, padding) == 0
    ensures TextHeightEstimate(text, width, fontSize, padding).PosInfinity? <==> HasContentLine(SplitLines(text))
  {
    var lines := SplitLines(text);
    var rows := EstimatedRows(lines, 0);
    EstimatedRowsNoRoom(lines);
    assert TextHeightEstimate(text, width, fontSize, padding) == Times(rows, fontSize * 1.5);
    assert Times(rows, fontSize * 1.5).PosInfinity? <==> rows.PosInfinity?;
  }

  /** With a negative quotient every line, blank or not, counts one row. */
  lemma {:induction false} EstimatedRowsNegative(lines: seq<JsString>, cpl: int)
    requires cpl < 0
    ensures EstimatedRows(lines, cpl) == Finite(|lines| as real)
  {
    if lines != [] {
      EstimatedRowsNegative(lines[..|lines| - 1], cpl);
    }
  }

  lemma NegativeRoomOneRowPerLine(text: JsString, width: real, fontSize: real, padding: real)
    requires fontSize > 0.0
    requires UnguardedCharsPerLine(width, fontSize, padding) < 0
    ensures TextHeightEstimate(text, width, fontSize, padding) ==
      Finite((Count(text, LF) + 1) as real * (fontSize * 1.5))
  {
    var lines := SplitLines(text);
    EstimatedRowsNegative(lines, UnguardedCharsPerLine(width, fontSize, padding));
    assert |lines| == Count(text, LF) + 1 by { SplitLinesSpec(text); }
    assert TextHeightEstimate(text, width, fontSize, padding) == Times(Finite(|lines| as real), fontSize * 1.5);
  }
}
