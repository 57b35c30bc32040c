/** The comment-text normalisers of the four card routes, composed from the passes:
    the staged pipeline of card-comment and of both puppeteer routes (tags,
    whitespace, numeric references, named references, trim) and the pipeline of
    comment-youtube (tags, whitespace, trim, then one decoding pass for both
    reference kinds). */
module HtmlNormalize {
  import opened JsText
  import opened HtmlPasses
  import opened HtmlPassFacts

  // ---------------------------------------------------------------------------
  // Entity tables (lower-case name to replacement)

  // The thirteen entity names the tables know.
  const NameAmp: JsString := [0x61, 0x6D, 0x70]  // "amp"
  const NameLt: JsString := [0x6C, 0x74]  // "lt"
  const NameGt: JsString := [0x67, 0x74]  // "gt"
  const NameQuot: JsString := [0x71, 0x75, 0x6F, 0x74]  // "quot"
  const NameApos: JsString := [0x61, 0x70, 0x6F, 0x73]  // "apos"
  const NameNbsp: JsString := [0x6E, 0x62, 0x73, 0x70]  // "nbsp"
  const NameHellip: JsString := [0x68, 0x65, 0x6C, 0x6C, 0x69, 0x70]  // "hellip"
  const NameMdash: JsString := [0x6D, 0x64, 0x61, 0x73, 0x68]  // "mdash"
  const NameNdash: JsString := [0x6E, 0x64, 0x61, 0x73, 0x68]  // "ndash"
  const NameRsquo: JsString := [0x72, 0x73, 0x71, 0x75, 0x6F]  // "rsquo"
  const NameLsquo: JsString := [0x6C, 0x73, 0x71, 0x75, 0x6F]  // "lsquo"
  const NameRdquo: JsString := [0x72, 0x64, 0x71, 0x75, 0x6F]  // "rdquo"
  const NameLdquo: JsString := [0x6C, 0x64, 0x71, 0x75, 0x6F]  // "ldquo"

  /** card-comment: `&` `<` `>` `"` `'`, an ASCII space for nbsp, three full stops
      for hellip, U+2014 and U+2013 for the dashes, ASCII apostrophes for the
      single quotes and U+201D / U+201C for the double quotes. */
  const CardCommentEntities: EntityTable := map[
    NameAmp := [AMP],
    NameLt := [LT],
    NameGt := [GT],
    NameQuot := [0x22],
    NameApos := [0x27],
    NameNbsp := [SPACE],
    NameHellip := [0x2E, 0x2E, 0x2E],
    NameMdash := [0x2014],
    NameNdash := [0x2013],
    NameRsquo := [0x27],
    NameLsquo := [0x27],
    NameRdquo := [0x201D],
    NameLdquo := [0x201C]]

  /** Both puppeteer routes: as card-comment, except that each dash is the
      three-character sequence stored in their sources, U+201A U+00C4 U+00EE for
      mdash and U+201A U+00C4 U+00EC for ndash (a UTF-8 dash read back as Mac Roman). */
  const PuppeteerEntities: EntityTable := map[
    NameAmp := [AMP],
    NameLt := [LT],
    NameGt := [GT],
    NameQuot := [0x22],
    NameApos := [0x27],
    NameNbsp := [SPACE],
    NameHellip := [0x2E, 0x2E, 0x2E],
    NameMdash := [0x201A, 0x00C4, 0x00EE],
    NameNdash := [0x201A, 0x00C4, 0x00EC],
    NameRsquo := [0x27],
    NameLsquo := [0x27],
    NameRdquo := [0x201D],
    NameLdquo := [0x201C]]

  /** comment-youtube: as card-comment, except U+2019 / U+2018 for the single quotes. */
  const YouTubeEntities: EntityTable := map[
    NameAmp := [AMP],
    NameLt := [LT],
    NameGt := [GT],
    NameQuot := [0x22],
    NameApos := [0x27],
    NameNbsp := [SPACE],
    NameHellip := [0x2E, 0x2E, 0x2E],
    NameMdash := [0x2014],
    NameNdash := [0x2013],
    NameRsquo := [0x2019],
    NameLsquo := [0x2018],
    NameRdquo := [0x201D],
    NameLdquo := [0x201C]]

  // ---------------------------------------------------------------------------
  // Stages

  /** The six passes for known tags, in source order. */
  function ConvertKnownTags(s: JsString): JsString
  {
    ReplaceAll(InlineTag, ReplaceAll(BlockOpen, ReplaceAll(BlockClose,
      ReplaceAll(ParagraphOpen, ReplaceAll(ParagraphClose, ReplaceAll(BreakTag, s))))))
  }

  /** The tag stage: its output holds no `>` after a `<`. */
  function TagStage(s: JsString): (r: JsString)
    ensures NoGtAfterLt(r)
  {
    var x := ConvertKnownTags(s);
    AnyTagLeavesNoTag(x);
    ReplaceAll(AnyTag, x)
  }

  /** The whitespace stage: runs of line feeds collapse, then the blanks around
      each line feed go; no space or tab is left next to a line feed. */
  function WhitespaceStage(s: JsString): (r: JsString)
    ensures NoBlankBesideLineFeed(r)
  {
    var x := ReplaceAll(LineFeedRun, s);
    PaddingLeavesNoBlank(x);
    ReplaceAll(LineFeedPadding, x)
  }

  /** processHtmlContent of card-comment and of both puppeteer routes, over the
      route's entity table: trimming comes last, so the result neither starts
      nor ends with whitespace. */
  function StagedNormalize(t: EntityTable, s: JsString): (r: JsString)
    ensures r != [] ==> !IsWhitespace(r[0]) && !IsWhitespace(r[|r| - 1])
  {
    AfterTagsStaged(t, TagStage(s))
  }

  /** The staged pipeline from the whitespace stage on. */
  function AfterTagsStaged(t: EntityTable, x: JsString): (r: JsString)
    ensures r != [] ==> !IsWhitespace(r[0]) && !IsWhitespace(r[|r| - 1])
  {
    Trim(ReplaceAll(NamedRef(t), ReplaceAll(NumericRef, WhitespaceStage(x))))
  }

  /** processHtmlContent of card-comment: never longer than its input, and
      without whitespace at either end. */
  function CardCommentText(s: JsString): (r: JsString)
    ensures |r| <= |s|
    ensures r != [] ==> !IsWhitespace(r[0]) && !IsWhitespace(r[|r| - 1])
  {
    TablesShort();
    StagedNoLonger(CardCommentEntities, s);
    StagedNormalize(CardCommentEntities, s)
  }

  /** processHtmlContent of both puppeteer routes: never longer than its input
      (each mojibake dash is three code units, no longer than `&mdash;`), and
      without whitespace at either end. */
  function PuppeteerText(s: JsString): (r: JsString)
    ensures |r| <= |s|
    ensures r != [] ==> !IsWhitespace(r[0]) && !IsWhitespace(r[|r| - 1])
  {
    TablesShort();
    StagedNoLonger(PuppeteerEntities, s);
    StagedNormalize(PuppeteerEntities, s)
  }

  /** decodeHtmlEntities of comment-youtube: one pass for both kinds of reference;
      a text without `&` is returned as it is. */
  function DecodeHtmlEntities(s: JsString): (r: JsString)
    ensures NoUnit(s, AMP) ==> r == s
    ensures |r| <= |s|
  {
    assert NoUnit(s, AMP) ==> ReplaceAll(AnyRef(YouTubeEntities), s) == s by {
      if NoUnit(s, AMP) { NoAmpUnchanged(AnyRef(YouTubeEntities), s); }
    }
    TablesShort();
    ReplaceAll(AnyRef(YouTubeEntities), s)
  }

  /** processHtmlContent of comment-youtube: trimming comes before decoding, and
      the result is never longer than the input. */
  function YouTubeText(s: JsString): (r: JsString)
    ensures |r| <= |s|
  {
    TagStageNoLonger(s);
    AfterTagsYouTube(TagStage(s))
  }

  /** The comment-youtube pipeline from the whitespace stage on: never longer than
      its input. */
  function AfterTagsYouTube(x: JsString): (r: JsString)
    ensures |r| <= |x|
  {
    WhitespaceStageNoLonger(x);
    DecodeHtmlEntities(Trim(WhitespaceStage(x)))
  }

  // ---------------------------------------------------------------------------
  // No normaliser lengthens the text

  /** Every entry of the three tables is at most three code units. */
  lemma TablesShort()
    ensures ShortEntries(CardCommentEntities)
    ensures ShortEntries(PuppeteerEntities)
    ensures ShortEntries(YouTubeEntities)
  {
  }

  lemma TagStageNoLonger(s: JsString)
    ensures |TagStage(s)| <= |s|
  {
    var x1 := ReplaceAll(BreakTag, s);
    var x2 := ReplaceAll(ParagraphClose, x1);
    var x3 := ReplaceAll(ParagraphOpen, x2);
    var x4 := ReplaceAll(BlockClose, x3);
    var x5 := ReplaceAll(BlockOpen, x4);
    var x6 := ReplaceAll(InlineTag, x5);
    assert ConvertKnownTags(s) == x6;
  }

  lemma WhitespaceStageNoLonger(s: JsString)
    ensures |WhitespaceStage(s)| <= |s|
  {
  }

  /** The staged normaliser over a table of short entries never lengthens the text. */
  lemma StagedNoLonger(t: EntityTable, s: JsString)
    requires ShortEntries(t)
    ensures |StagedNormalize(t, s)| <= |s|
  {
    var x := TagStage(s);
    TagStageNoLonger(s);
    var y := WhitespaceStage(x);
    WhitespaceStageNoLonger(x);
    var z := ReplaceAll(NumericRef, y);
    StagedThrough(t, s, y, z, ReplaceAll(NamedRef(t), z));
  }

  /** renderTextWithLineBreaks: replacing each line feed by a line feed is the identity. */
  function RenderTextWithLineBreaks(s: JsString): (r: JsString)
    ensures r == s
  {
    LineFeedPassIsIdentity(s);
    ReplaceAll(LineFeed, s)
  }

  /** The staged normaliser, given what each of its steps makes of the text. */
  lemma StagedThrough(t: EntityTable, s: JsString, x: JsString, y: JsString, z: JsString)
    requires WhitespaceStage(TagStage(s)) == x
    requires ReplaceAll(NumericRef, x) == y
    requires ReplaceAll(NamedRef(t), y) == z
    ensures StagedNormalize(t, s) == Trim(z)
  {
  }

  /** The comment-youtube normaliser, given what each of its steps makes of the text. */
  lemma YouTubeThrough(s: JsString, x: JsString, z: JsString)
    requires Trim(WhitespaceStage(TagStage(s))) == x
    requires ReplaceAll(AnyRef(YouTubeEntities), x) == z
    ensures YouTubeText(s) == z
  {
  }

  // ---------------------------------------------------------------------------
  // Texts a stage leaves alone

  predicate NoUnit(s: JsString, c: CodeUnit) { forall k :: 0 <= k < |s| ==> s[k] != c }

  lemma NoAmpUnchanged(p: Pattern, s: JsString)
    requires p.NumericRef? || p.NamedRef? || p.AnyRef?
    requires NoUnit(s, AMP)
    ensures ReplaceAll(p, s) == s
  {
    NoLeadUnchanged(p, s);
  }

  /** A text without `<` passes the tag stage unchanged. */
  lemma NoMarkupUnchanged(s: JsString)
    requires NoUnit(s, LT)
    ensures TagStage(s) == s
  {
    NoLeadUnchanged(BreakTag, s);
    NoLeadUnchanged(ParagraphClose, s);
    NoLeadUnchanged(ParagraphOpen, s);
    NoLeadUnchanged(BlockClose, s);
    NoLeadUnchanged(BlockOpen, s);
    NoLeadUnchanged(InlineTag, s);
    NoLeadUnchanged(AnyTag, s);
  }

  /** A text in the shape the first two stages produce passes them unchanged. */
  lemma TidyTextUnchanged(s: JsString)
    requires NoTripleLineFeed(s) && NoBlankBesideLineFeed(s)
    ensures WhitespaceStage(s) == s
  {
    LineFeedRunUnchanged(s);
    PaddingUnchanged(s);
  }

  /** Text without markup, references or untidy line feeds: both normalisers
      reduce to trimming. */
  lemma CleanTextOnlyTrimmed(t: EntityTable, s: JsString)
    requires NoUnit(s, LT) && NoUnit(s, AMP)
    requires NoTripleLineFeed(s) && NoBlankBesideLineFeed(s)
    ensures TagStage(s) == s
    ensures AfterTagsStaged(t, s) == Trim(s)
    ensures AfterTagsYouTube(s) == Trim(s)
  {
    NoMarkupUnchanged(s);
    CleanTextStaged(t, s);
    CleanTextYouTube(s);
  }

  lemma CleanTextStaged(t: EntityTable, s: JsString)
    requires NoUnit(s, AMP) && NoTripleLineFeed(s) && NoBlankBesideLineFeed(s)
    ensures AfterTagsStaged(t, s) == Trim(s)
  {
    TidyTextUnchanged(s);
    NoAmpUnchanged(NumericRef, s);
    NoAmpUnchanged(NamedRef(t), s);
  }

  lemma CleanTextYouTube(s: JsString)
    requires NoUnit(s, AMP) && NoTripleLineFeed(s) && NoBlankBesideLineFeed(s)
    ensures AfterTagsYouTube(s) == Trim(s)
  {
    TidyTextUnchanged(s);
    NoAmpTrimmed(s);
  }

  /** Trimming keeps a text free of `&`. */
  lemma NoAmpTrimmed(s: JsString)
    requires NoUnit(s, AMP)
    ensures NoUnit(Trim(s), AMP)
  {
    var u := Trim(s);
    TrimSplits(s);
    var i := LeadingWhitespace(s);
    forall k | 0 <= k < |u| ensures u[k] != AMP {
      assert u[k] == s[i + k];
    }
  }
}
