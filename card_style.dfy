/** The card style shared by the front end and comment-youtube (`sharedCardStyle`)
    and the unwrapped content-height estimate (`calculateContentHeight`). */
module CardStyle {
  import opened Wrappers
  import opened JsText
  import opened JsNumber
  import TextHeight

  /** A CSS length written `${n}px`. */
  datatype Px = Px(n: real)

  /** The options object; `None` is an option left undefined. */
  datatype StyleOptions = StyleOptions(
    backgroundColor: Option<JsString>,
    textColor: Option<JsString>,
    fontFamily: Option<JsString>,
    fontWeight: Option<JsString>,
    fontSize: Option<real>,
    padding: Option<real>,
    borderRadius: Option<real>,
    width: Option<real>,
    height: Option<real>,
    verticalAlign: Option<JsString>)

  /** The style object; `height` and `justifyContent` may be absent. */
  datatype Style = Style(
    display: JsString,
    flexDirection: JsString,
    backgroundColor: JsString,
    color: JsString,
    fontFamily: JsString,
    fontWeight: JsString,
    fontSize: real,
    lineHeight: real,
    padding: Px,
    borderRadius: Px,
    width: Px,
    height: Option<Px>,
    justifyContent: Option<JsString>)

  const Start: JsString := [0x73, 0x74, 0x61, 0x72, 0x74]  // "start"
  const Center: JsString := [0x63, 0x65, 0x6E, 0x74, 0x65, 0x72]  // "center"
  const End: JsString := [0x65, 0x6E, 0x64]  // "end"
  const FlexStart: JsString := [0x66, 0x6C, 0x65, 0x78, 0x2D] + Start  // "flex-start"
  const FlexEnd: JsString := [0x66, 0x6C, 0x65, 0x78, 0x2D] + End  // "flex-end"
  const Flex: JsString := [0x66, 0x6C, 0x65, 0x78]  // "flex"
  const Column: JsString := [0x63, 0x6F, 0x6C, 0x75, 0x6D, 0x6E]  // "column"
  const White: JsString := [HASH, 0x66, 0x66, 0x66]  // "#fff"
  const Black: JsString := [HASH, 0x30, 0x30, 0x30]  // "#000"
  const Bold: JsString := [0x62, 0x6F, 0x6C, 0x64]  // "bold"
  const SystemFonts: JsString := [0x73, 0x79, 0x73, 0x74, 0x65, 0x6D, 0x2D, 0x75, 0x69, 0x2C, 0x20, 0x41, 0x72, 0x69, 0x61, 0x6C, 0x2C, 0x20, 0x73, 0x61, 0x6E, 0x73, 0x2D, 0x73, 0x65, 0x72, 0x69, 0x66]
    // "system-ui, Arial, sans-serif"

  /** A destructuring default: the given value, or the default when undefined. */
  function OrElse<T>(o: Option<T>, default: T): T
  {
    if o.Some? then o.value else default
  }

  /** The `switch` on the vertical alignment: start, center and end become
      flex-start, center and flex-end; any other value sets nothing. */
  function Justify(align: JsString): (r: Option<JsString>)
    ensures r.Some? <==> align == Start || align == Center || align == End
    ensures r.Some? ==> r.value in {FlexStart, Center, FlexEnd}
  {
    if align == Start then Some(FlexStart)
    else if align == Center then Some(Center)
    else if align == End then Some(FlexEnd)
    else None
  }

  /** `sharedCardStyle`: a flex column at line height 1.5; a height, and with it a
      `justifyContent`, only when a height is given. */
  function SharedCardStyle(o: StyleOptions): (s: Style)
    ensures s.display == Flex && s.flexDirection == Column && s.lineHeight == 1.5
    ensures s.height.Some? <==> o.height.Some?
    ensures o.height.Some? ==> s.height == Some(Px(o.height.value))
    ensures s.justifyContent.Some? ==> o.height.Some?
    ensures o.height.Some? ==> s.justifyContent == Justify(OrElse(o.verticalAlign, Center))
    ensures s.padding == Px(OrElse(o.padding, 20.0)) && s.borderRadius == Px(OrElse(o.borderRadius, 24.0))
    ensures s.width == Px(OrElse(o.width, 400.0))
  {
    var base := Style(Flex, Column,
      OrElse(o.backgroundColor, White), OrElse(o.textColor, Black),
      OrElse(o.fontFamily, SystemFonts), OrElse(o.fontWeight, Bold),
      OrElse(o.fontSize, 16.0), 1.5,
      Px(OrElse(o.padding, 20.0)), Px(OrElse(o.borderRadius, 24.0)), Px(OrElse(o.width, 400.0)),
      None, None);
    if o.height.None? then base
    else base.(height := Some(Px(o.height.value)), justifyContent := Justify(OrElse(o.verticalAlign, Center)))
  }

  /** With no options at all: white card, black bold system text at 16 px, 20 px
      padding, 24 px corners, 400 px wide, no height and no alignment. */
  lemma DefaultStyle()
    ensures SharedCardStyle(StyleOptions(None, None, None, None, None, None, None, None, None, None)) ==
      Style(Flex, Column, White, Black, SystemFonts, Bold, 16.0, 1.5, Px(20.0), Px(24.0), Px(400.0), None, None)
  {
  }

  /** The three alignments in a card of a given height. */
  lemma AlignmentMapping(o: StyleOptions)
    requires o.height.Some?
    ensures o.verticalAlign == Some(Start) ==> SharedCardStyle(o).justifyContent == Some(FlexStart)
    ensures o.verticalAlign == Some(End) ==> SharedCardStyle(o).justifyContent == Some(FlexEnd)
    ensures o.verticalAlign.None? || o.verticalAlign == Some(Center) ==> SharedCardStyle(o).justifyContent == Some(Center)
  {
    assert Start != Center && Start != End && End != Center by {
      assert Start[0] != Center[0] && Start[0] != End[0] && |End| != |Center|;
    }
  }

  // ---------------------------------------------------------------------------
  // calculateContentHeight

  /** `calculateContentHeight`: one row per line with no wrapping, a 52 or 40 px
      header, a 32 px footer or none, padding on both sides, rounded up. The
      header and footer do not scale with the font size. */
  function CalculateContentHeight(text: JsString, fontSize: real, padding: real,
                                  showAuthorImage: bool, showLikeCount: bool, lineHeight: real): (h: int)
    ensures h as real >= ContentSum(|SplitLines(text)|, fontSize, padding, showAuthorImage, showLikeCount, lineHeight)
    ensures (h - 1) as real < ContentSum(|SplitLines(text)|, fontSize, padding, showAuthorImage, showLikeCount, lineHeight)
  {
    Ceil(ContentSum(|SplitLines(text)|, fontSize, padding, showAuthorImage, showLikeCount, lineHeight))
  }

  function ContentSum(lines: int, fontSize: real, padding: real,
                      showAuthorImage: bool, showLikeCount: bool, lineHeight: real): real
  {
    lines as real * (fontSize * lineHeight) + (if showAuthorImage then 52.0 else 40.0) +
      (if showLikeCount then 32.0 else 0.0) + padding * 2.0
  }

  /** The line count is the number of line feeds plus one. */
  lemma ContentCountsLineFeeds(text: JsString, fontSize: real, padding: real,
                               showAuthorImage: bool, showLikeCount: bool, lineHeight: real)
    ensures CalculateContentHeight(text, fontSize, padding, showAuthorImage, showLikeCount, lineHeight) ==
      Ceil(ContentSum(Count(text, LF) + 1, fontSize, padding, showAuthorImage, showLikeCount, lineHeight))
  {
    SplitLinesSpec(text);
  }

  /** More lines and either flag give no lower estimate. */
  lemma ContentSumMonotone(n1: int, n2: int, fontSize: real, padding: real,
                           a1: bool, a2: bool, l1: bool, l2: bool, lineHeight: real)
    requires n1 <= n2 && fontSize >= 0.0 && lineHeight >= 0.0
    requires a1 ==> a2
    requires l1 ==> l2
    ensures Ceil(ContentSum(n1, fontSize, padding, a1, l1, lineHeight)) <=
      Ceil(ContentSum(n2, fontSize, padding, a2, l2, lineHeight))
  {
    TextHeight.MulMonotone(n1 as real, n2 as real, fontSize * lineHeight);
    CeilMonotone(ContentSum(n1, fontSize, padding, a1, l1, lineHeight), ContentSum(n2, fontSize, padding, a2, l2, lineHeight));
  }

  lemma ContentHeightMonotone(t1: JsString, t2: JsString, fontSize: real, padding: real,
                              a1: bool, a2: bool, l1: bool, l2: bool, lineHeight: real)
    requires Count(t1, LF) <= Count(t2, LF) && fontSize >= 0.0 && lineHeight >= 0.0
    requires a1 ==> a2
    requires l1 ==> l2
    ensures CalculateContentHeight(t1, fontSize, padding, a1, l1, lineHeight) <=
      CalculateContentHeight(t2, fontSize, padding, a2, l2, lineHeight)
  {
    SplitLinesSpec(t1);
    SplitLinesSpec(t2);
    ContentSumMonotone(|SplitLines(t1)|, |SplitLines(t2)|, fontSize, padding, a1, a2, l1, l2, lineHeight);
  }

  /** At font size 16 the wrapping estimate of card-comment is never below this
      one: it counts at least one row per line, uses the same header and footer,
      and adds a 24 px buffer. */
  lemma CalculatedAtLeastContent(text: JsString, width: real, padding: real,
                                 showAuthorImage: bool, showLikeCount: bool, lineHeight: real)
    requires lineHeight >= 0.0
    ensures TextHeight.CalculatedHeight(text, width, 16.0, padding, showAuthorImage, showLikeCount, lineHeight) >=
      CalculateContentHeight(text, 16.0, padding, showAuthorImage, showLikeCount, lineHeight)
  {
    var lines := SplitLines(text);
    var rows := TextHeight.TotalRows(lines, TextHeight.CharsPerLine(width, 16.0, padding));
    ContentBelowWrapped(|lines|, rows, padding, showAuthorImage, showLikeCount, lineHeight);
  }

  lemma ContentBelowWrapped(n: int, rows: int, padding: real,
                            showAuthorImage: bool, showLikeCount: bool, lineHeight: real)
    requires n <= rows && lineHeight >= 0.0
    ensures ContentSum(n, 16.0, padding, showAuthorImage, showLikeCount, lineHeight) <=
      TextHeight.ContentFromRows(rows, 16.0, padding, showAuthorImage, showLikeCount, lineHeight)
  {
    assert n as real * 16.0 * lineHeight <= rows as real * 16.0 * lineHeight by {
      TextHeight.MulMonotone(n as real, rows as real, 16.0 * lineHeight);
      assert n as real * 16.0 * lineHeight == n as real * (16.0 * lineHeight);
      assert rows as real * 16.0 * lineHeight == rows as real * (16.0 * lineHeight);
    }
    assert TextHeight.HeaderHeight(showAuthorImage, 16.0) == (if showAuthorImage then 52.0 else 40.0);
    assert TextHeight.FooterHeight(showLikeCount, 16.0) == (if showLikeCount then 32.0 else 0.0);
  }
}
