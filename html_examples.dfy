/** Worked inputs for the normalisers: how `<br>` and paragraph markup become line
    breaks, and how the order of the decoding passes shows in the output. The
    words a and b stand for any text free of markup, references and whitespace. */
module HtmlExamples {
  import opened JsText
  import opened HtmlPasses
  import opened HtmlPassFacts
  import opened HtmlNormalize

  /** A non-empty run of text with no `<`, no `&` and no whitespace. */
  predicate Word(w: JsString)
  {
    w != [] && forall k :: 0 <= k < |w| ==> w[k] != LT && w[k] != AMP && !IsWhitespace(w[k])
  }

  /** Text without markup or references whose line feeds already have the shape
      the whitespace stage produces. */
  predicate Tidy(s: JsString)
  {
    NoUnit(s, LT) && NoUnit(s, AMP) && NoTripleLineFeed(s) && NoBlankBesideLineFeed(s)
  }

  /** Two words joined by one or two line feeds, optionally followed by two more. */
  lemma WordsAroundBreaks(a: JsString, sep: JsString, b: JsString, tail: JsString)
    requires Word(a) && Word(b)
    requires sep == [LF] || sep == [LF, LF]
    requires tail == [] || tail == [LF, LF]
    ensures Tidy(a + sep + b + tail)
  {
    var s := a + sep + b + tail;
    var j := |a| + |sep|;
    assert forall k :: 0 <= k < |a| ==> s[k] == a[k];
    assert forall k :: |a| <= k < j ==> s[k] == LF;
    assert forall k :: j <= k < j + |b| ==> s[k] == b[k - j];
    assert forall k :: j + |b| <= k < |s| ==> s[k] == LF;
  }

  // ---------------------------------------------------------------------------
  // Tags

  const BrTag: JsString := [LT, 0x62, 0x72, GT]  // "<br>"
  const BrSelfClosing: JsString := [LT, 0x62, 0x72, SLASH, GT]  // "<br/>"
  const BrUpperSpaced: JsString := [LT, 0x42, 0x52, SPACE, SLASH, GT]  // "<BR />"

  /** The three spellings of a line break the break-tag expression matches whole. */
  lemma BreakTagMatches(br: JsString, b: JsString)
    requires br == BrTag || br == BrSelfClosing || br == BrUpperSpaced
    ensures MatchLen(BreakTag, br + b) == |br|
  {
    var s := br + b;
    if br == BrTag {
      assert s[0] == LT && s[1] == 0x62 && s[2] == 0x72 && s[3] == GT;
      RunEndIs(s, 3, Whitespace, 3);
    } else if br == BrSelfClosing {
      assert s[0] == LT && s[1] == 0x62 && s[2] == 0x72 && s[3] == SLASH && s[4] == GT;
      RunEndIs(s, 3, Whitespace, 3);
    } else {
      assert s[0] == LT && s[1] == 0x42 && s[2] == 0x52 && s[3] == SPACE && s[4] == SLASH && s[5] == GT;
      RunEndIs(s, 3, Whitespace, 4);
    }
  }

  /** The tag stage turns a break tag between two words into a line feed. */
  lemma BreakTagStage(a: JsString, br: JsString, b: JsString)
    requires Word(a) && Word(b)
    requires 0 < |br| == MatchLen(BreakTag, br + b)
    ensures TagStage(a + br + b) == a + [LF] + b
  {
    var s := a + (br + b);
    assert a + br + b == s;
    PlainChunk(BreakTag, a, br + b);
    MatchChunk(BreakTag, br, b);
    NoLeadUnchanged(BreakTag, b);
    var t := a + [LF] + b;
    assert ReplaceAll(BreakTag, s) == t;
    WordsAroundBreaks(a, [LF], b, []);
    assert t + [] == t;
    NoLeadUnchanged(ParagraphClose, t);
    NoLeadUnchanged(ParagraphOpen, t);
    NoLeadUnchanged(BlockClose, t);
    NoLeadUnchanged(BlockOpen, t);
    NoLeadUnchanged(InlineTag, t);
    NoLeadUnchanged(AnyTag, t);
  }

  /** A break tag between two words, through the staged pipeline over any table. */
  lemma BreakTagStaged(t: EntityTable, a: JsString, br: JsString, b: JsString)
    requires Word(a) && Word(b)
    requires 0 < |br| == MatchLen(BreakTag, br + b)
    ensures StagedNormalize(t, a + br + b) == a + [LF] + b
  {
    var u := a + [LF] + b;
    assert TagStage(a + br + b) == u by { BreakTagStage(a, br, b); }
    assert Tidy(u) by { WordsAroundBreaks(a, [LF], b, []); assert u + [] == u; }
    assert AfterTagsStaged(t, u) == Trim(u) by { CleanTextOnlyTrimmed(t, u); }
    TrimUnchanged(u);
  }

  /** A break tag between two words, through the comment-youtube pipeline. */
  lemma BreakTagYouTube(a: JsString, br: JsString, b: JsString)
    requires Word(a) && Word(b)
    requires 0 < |br| == MatchLen(BreakTag, br + b)
    ensures YouTubeText(a + br + b) == a + [LF] + b
  {
    var u := a + [LF] + b;
    assert TagStage(a + br + b) == u by { BreakTagStage(a, br, b); }
    assert Tidy(u) by { WordsAroundBreaks(a, [LF], b, []); assert u + [] == u; }
    assert AfterTagsYouTube(u) == Trim(u) by { CleanTextOnlyTrimmed(YouTubeEntities, u); }
    TrimUnchanged(u);
  }

  /** `<br>`, `<br/>` and `<BR />` each become a single line feed. */
  lemma BreakTagBecomesLineFeed(a: JsString, br: JsString, b: JsString)
    requires Word(a) && Word(b)
    requires br == BrTag || br == BrSelfClosing || br == BrUpperSpaced
    ensures CardCommentText(a + br + b) == a + [LF] + b
    ensures PuppeteerText(a + br + b) == a + [LF] + b
    ensures YouTubeText(a + br + b) == a + [LF] + b
  {
    BreakTagMatches(br, b);
    assert 0 < |br|;
    BreakTagStaged(CardCommentEntities, a, br, b);
    BreakTagStaged(PuppeteerEntities, a, br, b);
    BreakTagYouTube(a, br, b);
  }

  const OpenP: JsString := [LT, 0x70, GT]  // "<p>"
  const CloseP: JsString := [LT, SLASH, 0x70, GT]  // "</p>"

  /** How the first three tag passes treat an opening and a closing paragraph tag. */
  lemma ParagraphTagSteps(rest: JsString)
    ensures ReplaceAll(BreakTag, OpenP + rest) == OpenP + ReplaceAll(BreakTag, rest)
    ensures ReplaceAll(BreakTag, CloseP + rest) == CloseP + ReplaceAll(BreakTag, rest)
    ensures ReplaceAll(ParagraphClose, OpenP + rest) == OpenP + ReplaceAll(ParagraphClose, rest)
    ensures ReplaceAll(ParagraphClose, CloseP + rest) == [LF, LF] + ReplaceAll(ParagraphClose, rest)
    ensures ReplaceAll(ParagraphOpen, OpenP + rest) == ReplaceAll(ParagraphOpen, rest)
  {
    OpenPTagSteps(rest);
    ClosePTagSteps(rest);
  }

  /** Where the first three tag passes match at an opening paragraph tag. */
  lemma OpenPMatches(rest: JsString)
    ensures MatchLen(BreakTag, OpenP + rest) == 0
    ensures MatchLen(ParagraphClose, OpenP + rest) == 0
    ensures MatchLen(ParagraphOpen, OpenP + rest) == 3
  {
    var o := OpenP + rest;
    assert o[0] == LT && o[1] == 0x70 && o[2] == GT;
    assert !StartsWithCI(o, 1, Br) by { assert LowerUnit(o[1]) != Br[0]; }
    assert GtFrom(o, 2) == 2;
  }

  /** Where the first two tag passes match at a closing paragraph tag. */
  lemma ClosePMatches(rest: JsString)
    ensures MatchLen(BreakTag, CloseP + rest) == 0
    ensures MatchLen(ParagraphClose, CloseP + rest) == 4
  {
    var c := CloseP + rest;
    assert c[0] == LT && c[1] == SLASH && c[2] == 0x70 && c[3] == GT;
    assert !StartsWithCI(c, 1, Br) by { assert LowerUnit(c[1]) != Br[0]; }
  }

  lemma OpenPTagSteps(rest: JsString)
    ensures ReplaceAll(BreakTag, OpenP + rest) == OpenP + ReplaceAll(BreakTag, rest)
    ensures ReplaceAll(ParagraphClose, OpenP + rest) == OpenP + ReplaceAll(ParagraphClose, rest)
    ensures ReplaceAll(ParagraphOpen, OpenP + rest) == ReplaceAll(ParagraphOpen, rest)
  {
    OpenPMatches(rest);
    SkipChunk(BreakTag, OpenP, rest);
    SkipChunk(ParagraphClose, OpenP, rest);
    MatchChunk(ParagraphOpen, OpenP, rest);
  }

  lemma ClosePTagSteps(rest: JsString)
    ensures ReplaceAll(BreakTag, CloseP + rest) == CloseP + ReplaceAll(BreakTag, rest)
    ensures ReplaceAll(ParagraphClose, CloseP + rest) == [LF, LF] + ReplaceAll(ParagraphClose, rest)
  {
    ClosePMatches(rest);
    SkipChunk(BreakTag, CloseP, rest);
    MatchChunk(ParagraphClose, CloseP, rest);
  }

  /** `<p>a</p><p>b</p>`, grouped to the right. */
  function Paragraphs(a: JsString, b: JsString): JsString
  {
    OpenP + (a + (CloseP + (OpenP + (b + CloseP))))
  }

  lemma ParagraphsBreakPass(a: JsString, b: JsString)
    requires Word(a) && Word(b)
    ensures ReplaceAll(BreakTag, Paragraphs(a, b)) == Paragraphs(a, b)
  {
    var p := BreakTag;
    var t4 := b + CloseP;
    var t3 := OpenP + t4;
    var t2 := CloseP + t3;
    var t1 := a + t2;
    ParagraphTagSteps([]);
    assert CloseP + [] == CloseP;
    PlainChunk(p, b, CloseP);
    ParagraphTagSteps(t4);
    ParagraphTagSteps(t3);
    PlainChunk(p, a, t2);
    ParagraphTagSteps(t1);
  }

  lemma ParagraphsClosePass(a: JsString, b: JsString)
    requires Word(a) && Word(b)
    ensures ReplaceAll(ParagraphClose, Paragraphs(a, b))
         == OpenP + (a + ([LF, LF] + (OpenP + (b + [LF, LF]))))
  {
    var p := ParagraphClose;
    var t4 := b + CloseP;
    var t3 := OpenP + t4;
    var t2 := CloseP + t3;
    var t1 := a + t2;
    var u4 := b + [LF, LF];
    var u3 := OpenP + u4;
    var u2 := [LF, LF] + u3;
    var u1 := a + u2;
    assert ReplaceAll(p, CloseP) == [LF, LF] by {
      ParagraphTagSteps([]);
      assert CloseP + [] == CloseP;
    }
    assert ReplaceAll(p, t4) == u4 by { PlainChunk(p, b, CloseP); }
    assert ReplaceAll(p, t3) == u3 by { ParagraphTagSteps(t4); }
    assert ReplaceAll(p, t2) == u2 by { ParagraphTagSteps(t3); }
    assert ReplaceAll(p, t1) == u1 by { PlainChunk(p, a, t2); }
    ParagraphTagSteps(t1);
  }

  lemma ParagraphsOpenPass(a: JsString, b: JsString)
    requires Word(a) && Word(b)
    ensures ReplaceAll(ParagraphOpen, OpenP + (a + ([LF, LF] + (OpenP + (b + [LF, LF])))))
         == a + ([LF, LF] + (b + [LF, LF]))
  {
    var p := ParagraphOpen;
    var t4 := b + [LF, LF];
    var t3 := OpenP + t4;
    var t2 := [LF, LF] + t3;
    var t1 := a + t2;
    assert ReplaceAll(p, t4) == t4 by { NoLeadUnchanged(p, t4); }
    assert ReplaceAll(p, t3) == t4 by { ParagraphTagSteps(t4); }
    assert ReplaceAll(p, t2) == [LF, LF] + t4 by { PlainChunk(p, [LF, LF], t3); }
    assert ReplaceAll(p, t1) == a + ([LF, LF] + t4) by { PlainChunk(p, a, t2); }
    ParagraphTagSteps(t1);
  }

  /** The tag stage turns two paragraphs into their texts, each followed by a blank line. */
  lemma ParagraphsTagStage(a: JsString, b: JsString)
    requires Word(a) && Word(b)
    ensures TagStage(Paragraphs(a, b)) == a + [LF, LF] + b + [LF, LF]
  {
    ParagraphsBreakPass(a, b);
    ParagraphsClosePass(a, b);
    ParagraphsOpenPass(a, b);
    var t := a + [LF, LF] + b + [LF, LF];
    assert a + ([LF, LF] + (b + [LF, LF])) == t;
    WordsAroundBreaks(a, [LF, LF], b, [LF, LF]);
    NoLeadUnchanged(BlockClose, t);
    NoLeadUnchanged(BlockOpen, t);
    NoLeadUnchanged(InlineTag, t);
    NoLeadUnchanged(AnyTag, t);
  }

  /** Trimming drops the blank line after the second paragraph. */
  lemma ParagraphsTrimmed(a: JsString, b: JsString)
    requires Word(a) && Word(b)
    ensures Trim(a + [LF, LF] + b + [LF, LF]) == a + [LF, LF] + b
  {
    var x := a + [LF, LF] + b;
    assert x != [] && x[0] == a[0] && x[|x| - 1] == b[|b| - 1];
    TrimSurrounded([], x, [LF, LF]);
    assert [] + x + [LF, LF] == a + [LF, LF] + b + [LF, LF];
  }

  /** Two words around a blank line hold no reference to decode. */
  lemma ParagraphsDecoded(a: JsString, b: JsString)
    requires Word(a) && Word(b)
    ensures DecodeHtmlEntities(a + [LF, LF] + b) == a + [LF, LF] + b
  {
    WordsAroundBreaks(a, [LF, LF], b, []);
    assert a + [LF, LF] + b + [] == a + [LF, LF] + b;
  }

  /** The grouped form of `<p>a</p><p>b</p>` through the staged normaliser, whatever its table. */
  lemma ParagraphsStaged(t: EntityTable, a: JsString, b: JsString)
    requires Word(a) && Word(b)
    ensures StagedNormalize(t, Paragraphs(a, b)) == a + [LF, LF] + b
  {
    var u := a + [LF, LF] + b + [LF, LF];
    var x := a + [LF, LF] + b;
    assert TagStage(Paragraphs(a, b)) == u by { ParagraphsTagStage(a, b); }
    assert Tidy(u) by { WordsAroundBreaks(a, [LF, LF], b, [LF, LF]); }
    assert Trim(u) == x by { ParagraphsTrimmed(a, b); }
    assert AfterTagsStaged(t, u) == x by {
      CleanTextOnlyTrimmed(t, u);
    }
  }

  /** The grouped form of `<p>a</p><p>b</p>` through the comment-youtube normaliser. */
  lemma ParagraphsYouTube(a: JsString, b: JsString)
    requires Word(a) && Word(b)
    ensures YouTubeText(Paragraphs(a, b)) == a + [LF, LF] + b
  {
    var u := a + [LF, LF] + b + [LF, LF];
    var x := a + [LF, LF] + b;
    assert TagStage(Paragraphs(a, b)) == u by { ParagraphsTagStage(a, b); }
    assert Tidy(u) by { WordsAroundBreaks(a, [LF, LF], b, [LF, LF]); }
    assert Trim(u) == x by { ParagraphsTrimmed(a, b); }
    assert DecodeHtmlEntities(x) == x by { ParagraphsDecoded(a, b); }
    assert AfterTagsYouTube(u) == x by {
      CleanTextOnlyTrimmed(YouTubeEntities, u);
    }
  }

  /** `<p>a</p><p>b</p>` becomes a, a blank line, and b: the trailing line
      feeds go with the final trim. */
  lemma ParagraphsBecomeBlankLine(a: JsString, b: JsString)
    requires Word(a) && Word(b)
    ensures CardCommentText(OpenP + a + CloseP + OpenP + b + CloseP) == a + [LF, LF] + b
    ensures PuppeteerText(OpenP + a + CloseP + OpenP + b + CloseP) == a + [LF, LF] + b
    ensures YouTubeText(OpenP + a + CloseP + OpenP + b + CloseP) == a + [LF, LF] + b
  {
    assert OpenP + a + CloseP + OpenP + b + CloseP == Paragraphs(a, b);
    ParagraphsStaged(CardCommentEntities, a, b);
    ParagraphsStaged(PuppeteerEntities, a, b);
    ParagraphsYouTube(a, b);
  }

  // ---------------------------------------------------------------------------
  // Block and inline tags

  const CloseDiv: JsString := [LT, SLASH, 0x64, 0x69, 0x76, GT]  // "</div>"
  const OpenB: JsString := [LT, 0x62, GT]  // "<b>"

  /** The passes over tags, whose matches all start with `<`. */
  predicate IsTagPass(p: Pattern)
  {
    p.BreakTag? || p.ParagraphClose? || p.ParagraphOpen? || p.BlockClose? ||
    p.BlockOpen? || p.InlineTag? || p.AnyTag?
  }

  /** A tag pass that matches neither at the start of a tag nor inside it leaves
      the tag between two words alone. */
  lemma TagSkipped(p: Pattern, a: JsString, c: JsString, b: JsString)
    requires IsTagPass(p) && Word(a) && Word(b)
    requires |c| > 0 && MatchLen(p, c + b) == 0 && NoLead(p, c[1..])
    ensures ReplaceAll(p, a + c + b) == a + c + b
  {
    PlainChunk(p, a, c + b);
    SkipChunk(p, c, b);
    NoLeadUnchanged(p, b);
    assert a + (c + b) == a + c + b;
  }

  /** A tag pass that matches a whole tag between two words replaces it. */
  lemma TagReplaced(p: Pattern, a: JsString, c: JsString, b: JsString, v: JsString)
    requires IsTagPass(p) && Word(a) && Word(b)
    requires 0 < |c| == MatchLen(p, c + b) && Replacement(p, c + b, |c|) == v
    ensures ReplaceAll(p, a + c + b) == a + v + b
  {
    PlainChunk(p, a, c + b);
    MatchChunk(p, c, b);
    NoLeadUnchanged(p, b);
    assert a + (c + b) == a + c + b;
    assert a + (v + b) == a + v + b;
  }

  /** A text whose code unit at i differs from w's first letter does not continue with w there. */
  lemma NotStartsWithCI(s: JsString, i: nat, w: JsString)
    requires i < |s| && w != [] && LowerUnit(s[i]) != w[0]
    ensures !StartsWithCI(s, i, w)
  {
    assert LowerUnit(s[i + 0]) != w[0];
  }

  /** One of the names `</(div|blockquote|h[1-6])>` closes, in any ASCII case. */
  predicate IsBlockName(w: JsString)
  {
    || (|w| == 3 && StartsWithCI(w, 0, Div))
    || (|w| == 10 && StartsWithCI(w, 0, Blockquote))
    || (|w| == 2 && StartsWithCI(w, 0, H) && IsHeadingDigit(w[1]))
  }

  /** The closing tag of a name: `</`, the name, `>`. */
  function CloseTag(w: JsString): (c: JsString)
    ensures |c| == |w| + 3 && c[0] == LT && c[1] == SLASH && c[|w| + 2] == GT
    ensures forall k :: 0 <= k < |w| ==> c[k + 2] == w[k]
  {
    [LT, SLASH] + w + [GT]
  }

  /** Mixed case spellings are block names; a seventh heading level and `p` are not. */
  lemma BlockNameExamples()
    ensures IsBlockName(Div) && IsBlockName([0x44, 0x49, 0x56])  // "div", "DIV"
    ensures IsBlockName([0x42, 0x6C, 0x6F, 0x63, 0x6B, 0x51, 0x75, 0x6F, 0x74, 0x65])  // "BlockQuote"
    ensures IsBlockName([0x68, 0x31]) && IsBlockName([0x48, 0x36])  // "h1", "H6"
    ensures !IsBlockName([0x68, 0x37]) && !IsBlockName([0x70])  // "h7", "p"
  {
    assert !StartsWithCI([0x68, 0x37], 0, Div) by { NotStartsWithCI([0x68, 0x37], 0, Div); }
  }

  /** A block name starts with d, b or h and holds no `<`. */
  lemma BlockNameUnits(w: JsString)
    requires IsBlockName(w)
    ensures LowerUnit(w[0]) == Div[0] || LowerUnit(w[0]) == Blockquote[0] || LowerUnit(w[0]) == H[0]
    ensures forall k :: 0 <= k < |w| ==> w[k] != LT
  {
    assert LowerUnit(w[0 + 0]) == LowerUnit(w[0]);
    forall k | 0 <= k < |w| ensures w[k] != LT {
      assert LowerUnit(LT) == LT;
      if |w| == 3 && StartsWithCI(w, 0, Div) {
        assert LowerUnit(w[0 + k]) == Div[k];
        assert Div[k] != LT by { assert k == 0 || k == 1 || k == 2; }
      } else if |w| == 10 && StartsWithCI(w, 0, Blockquote) {
        assert LowerUnit(w[0 + k]) == Blockquote[k];
        assert Blockquote[k] != LT by { assert forall j :: 0 <= j < |Blockquote| ==> Blockquote[j] != LT; }
      } else if k == 0 {
        assert LowerUnit(w[0 + 0]) == H[0];
      } else {
        assert IsHeadingDigit(w[1]);
      }
    }
  }

  /** The block-name alternation reads exactly the name inside a closing tag. */
  lemma BlockNameInTag(w: JsString, b: JsString)
    requires IsBlockName(w)
    ensures BlockNameLen(CloseTag(w) + b, 2) == |w|
  {
    var s := CloseTag(w) + b;
    assert forall k :: 0 <= k < |w| ==> s[2 + k] == w[k];
    assert s[2] == w[0] && LowerUnit(w[0 + 0]) == LowerUnit(s[2]);
    if |w| == 3 && StartsWithCI(w, 0, Div) {
      assert StartsWithCI(s, 2, Div);
    } else if |w| == 10 && StartsWithCI(w, 0, Blockquote) {
      assert LowerUnit(w[0]) == Blockquote[0];
      assert LowerUnit(s[2]) != Div[0];
      NotStartsWithCI(s, 2, Div);
      assert StartsWithCI(s, 2, Blockquote);
    } else {
      assert LowerUnit(w[0]) == H[0];
      assert LowerUnit(s[2]) != Div[0] && LowerUnit(s[2]) != Blockquote[0];
      NotStartsWithCI(s, 2, Div);
      NotStartsWithCI(s, 2, Blockquote);
      assert StartsWithCI(s, 2, H) && IsHeadingDigit(s[3]);
    }
  }

  /** Where the first four tag passes match at a closing block tag: only the
      block-closing pass, over the whole tag. */
  lemma CloseBlockMatches(w: JsString, b: JsString)
    requires IsBlockName(w)
    ensures MatchLen(BreakTag, CloseTag(w) + b) == 0
    ensures MatchLen(ParagraphClose, CloseTag(w) + b) == 0
    ensures MatchLen(ParagraphOpen, CloseTag(w) + b) == 0
    ensures MatchLen(BlockClose, CloseTag(w) + b) == |w| + 3
  {
    var s := CloseTag(w) + b;
    assert s[0] == LT && s[1] == SLASH && s[2] == w[0] && s[|w| + 2] == GT;
    BlockNameUnits(w);
    BlockNameInTag(w, b);
    NotStartsWithCI(s, 1, Br);
    NotStartsWithCI(s, 1, P);
    NotStartsWithCI(s, 2, P);
  }

  /** The tag stage turns a closing block tag between two words into a line feed. */
  lemma CloseBlockStage(a: JsString, w: JsString, b: JsString)
    requires Word(a) && Word(b) && IsBlockName(w)
    ensures TagStage(a + CloseTag(w) + b) == a + [LF] + b
  {
    var c := CloseTag(w);
    var s := a + c + b;
    var t := a + [LF] + b;
    CloseBlockMatches(w, b);
    BlockNameUnits(w);
    assert NoLead(BreakTag, c[1..]) by {
      forall k | 0 <= k < |c| - 1 ensures c[1..][k] != LT {
        if 1 <= k <= |w| { assert c[1..][k] == w[k - 1]; }
      }
    }
    assert ReplaceAll(BreakTag, s) == s by { TagSkipped(BreakTag, a, c, b); }
    assert ReplaceAll(ParagraphClose, s) == s by { TagSkipped(ParagraphClose, a, c, b); }
    assert ReplaceAll(ParagraphOpen, s) == s by { TagSkipped(ParagraphOpen, a, c, b); }
    assert ReplaceAll(BlockClose, s) == t by { TagReplaced(BlockClose, a, c, b, [LF]); }
    assert NoUnit(t, LT) by { WordsAroundBreaks(a, [LF], b, []); assert t + [] == t; }
    assert ReplaceAll(BlockOpen, t) == t by { NoLeadUnchanged(BlockOpen, t); }
    assert ReplaceAll(InlineTag, t) == t by { NoLeadUnchanged(InlineTag, t); }
    assert ConvertKnownTags(s) == t;
    NoLeadUnchanged(AnyTag, t);
  }

  /** Where the first five tag passes match at an opening bold tag: nowhere. */
  lemma OpenBMatches(b: JsString)
    ensures MatchLen(BreakTag, OpenB + b) == 0
    ensures MatchLen(ParagraphClose, OpenB + b) == 0
    ensures MatchLen(ParagraphOpen, OpenB + b) == 0
    ensures MatchLen(BlockClose, OpenB + b) == 0
    ensures MatchLen(BlockOpen, OpenB + b) == 0
  {
    var s := OpenB + b;
    assert s[0] == LT && s[1] == 0x62 && s[2] == GT;
    assert !StartsWithCI(s, 1, Br) by { assert LowerUnit(s[2]) != Br[1]; }
    assert !StartsWithCI(s, 1, Blockquote) by {
      if 1 + |Blockquote| <= |s| { assert LowerUnit(s[2]) != Blockquote[1]; }
    }
    NotStartsWithCI(s, 1, P);
    NotStartsWithCI(s, 1, Div);
    NotStartsWithCI(s, 1, H);
  }

  /** The inline-tag pass matches all of `<b>`. */
  lemma OpenBInlineMatches(b: JsString)
    ensures MatchLen(InlineTag, OpenB + b) == 3
  {
    var s := OpenB + b;
    assert s[0] == LT && s[1] == 0x62 && s[2] == GT;
    assert StartsWithCI(s, 1, B);
    assert GtFrom(s, 1) == 2;
  }

  /** The tag stage drops an opening bold tag between two words. */
  lemma OpenBStage(a: JsString, b: JsString)
    requires Word(a) && Word(b)
    ensures TagStage(a + OpenB + b) == a + b
  {
    var s := a + OpenB + b;
    OpenBSkipped(a, b);
    OpenBInline(a, b);
    KnownTagsThrough(s, s, s, s, s, s, a + b);
    WordsJoined(a, b);
    NoLeadUnchanged(AnyTag, a + b);
    TagStageThrough(s, a + b, a + b);
  }

  /** The inline-tag pass drops the `<b>` of `a<b>b`. */
  lemma OpenBInline(a: JsString, b: JsString)
    requires Word(a) && Word(b)
    ensures ReplaceAll(InlineTag, a + OpenB + b) == a + b
  {
    OpenBInlineMatches(b);
    TagReplaced(InlineTag, a, OpenB, b, []);
    assert a + [] + b == a + b;
  }

  /** The tag stage, given what each of its passes makes of the text. */
  lemma KnownTagsThrough(s: JsString, x1: JsString, x2: JsString, x3: JsString, x4: JsString, x5: JsString, x6: JsString)
    requires ReplaceAll(BreakTag, s) == x1 && ReplaceAll(ParagraphClose, x1) == x2
    requires ReplaceAll(ParagraphOpen, x2) == x3 && ReplaceAll(BlockClose, x3) == x4
    requires ReplaceAll(BlockOpen, x4) == x5 && ReplaceAll(InlineTag, x5) == x6
    ensures ConvertKnownTags(s) == x6
  {
  }

  lemma TagStageThrough(s: JsString, x: JsString, y: JsString)
    requires ConvertKnownTags(s) == x && ReplaceAll(AnyTag, x) == y
    ensures TagStage(s) == y
  {
  }

  /** The five tag passes before the inline one leave `a<b>b` alone. */
  lemma OpenBSkipped(a: JsString, b: JsString)
    requires Word(a) && Word(b)
    ensures var s := a + OpenB + b;
      ReplaceAll(BreakTag, s) == s && ReplaceAll(ParagraphClose, s) == s && ReplaceAll(ParagraphOpen, s) == s &&
      ReplaceAll(BlockClose, s) == s && ReplaceAll(BlockOpen, s) == s
  {
    OpenBMatches(b);
    assert NoLead(BreakTag, OpenB[1..]);
    TagSkipped(BreakTag, a, OpenB, b);
    TagSkipped(ParagraphClose, a, OpenB, b);
    TagSkipped(ParagraphOpen, a, OpenB, b);
    TagSkipped(BlockClose, a, OpenB, b);
    TagSkipped(BlockOpen, a, OpenB, b);
  }

  /** Two words written together are one word. */
  lemma WordsJoined(a: JsString, b: JsString)
    requires Word(a) && Word(b)
    ensures Word(a + b)
  {
    assert forall k :: 0 <= k < |a| ==> (a + b)[k] == a[k];
    assert forall k :: |a| <= k < |a + b| ==> (a + b)[k] == b[k - |a|];
  }

  /** A word needs no tidying. */
  lemma WordIsTidy(w: JsString)
    requires Word(w)
    ensures Tidy(w)
  {
  }

  /** Text the tag stage leaves tidy passes the rest of the staged normaliser
      unchanged, when it neither starts nor ends with whitespace. */
  lemma TidyStaged(t: EntityTable, s: JsString, u: JsString)
    requires TagStage(s) == u && Tidy(u)
    requires u != [] && !IsWhitespace(u[0]) && !IsWhitespace(u[|u| - 1])
    ensures StagedNormalize(t, s) == u
  {
    CleanTextOnlyTrimmed(t, u);
    TrimUnchanged(u);
  }

  /** The same through the comment-youtube normaliser. */
  lemma TidyYouTube(s: JsString, u: JsString)
    requires TagStage(s) == u && Tidy(u)
    requires u != [] && !IsWhitespace(u[0]) && !IsWhitespace(u[|u| - 1])
    ensures YouTubeText(s) == u
  {
    CleanTextOnlyTrimmed(YouTubeEntities, u);
    TrimUnchanged(u);
  }

  /** A closing `div`, `blockquote` or `h1`-`h6` tag, in any case, becomes a line
      feed in every normaliser. */
  lemma CloseBlockBecomesLineFeed(a: JsString, w: JsString, b: JsString)
    requires Word(a) && Word(b) && IsBlockName(w)
    ensures CardCommentText(a + CloseTag(w) + b) == a + [LF] + b
    ensures PuppeteerText(a + CloseTag(w) + b) == a + [LF] + b
    ensures YouTubeText(a + CloseTag(w) + b) == a + [LF] + b
  {
    var u := a + [LF] + b;
    CloseBlockStage(a, w, b);
    WordsAroundBreaks(a, [LF], b, []);
    assert u + [] == u;
    assert u[0] == a[0] && u[|u| - 1] == b[|b| - 1];
    TidyStaged(CardCommentEntities, a + CloseTag(w) + b, u);
    TidyStaged(PuppeteerEntities, a + CloseTag(w) + b, u);
    TidyYouTube(a + CloseTag(w) + b, u);
  }

  /** `</div>` becomes a line feed in every normaliser. */
  lemma CloseDivBecomesLineFeed(a: JsString, b: JsString)
    requires Word(a) && Word(b)
    ensures CardCommentText(a + CloseDiv + b) == a + [LF] + b
    ensures PuppeteerText(a + CloseDiv + b) == a + [LF] + b
    ensures YouTubeText(a + CloseDiv + b) == a + [LF] + b
  {
    BlockNameExamples();
    assert CloseTag(Div) == CloseDiv;
    CloseBlockBecomesLineFeed(a, Div, b);
  }

  /** `<b>` is dropped in every normaliser, joining the words around it. */
  lemma BoldTagDropped(a: JsString, b: JsString)
    requires Word(a) && Word(b)
    ensures CardCommentText(a + OpenB + b) == a + b
    ensures PuppeteerText(a + OpenB + b) == a + b
    ensures YouTubeText(a + OpenB + b) == a + b
  {
    var u := a + b;
    OpenBStage(a, b);
    WordsJoined(a, b);
    WordIsTidy(u);
    TidyStaged(CardCommentEntities, a + OpenB + b, u);
    TidyStaged(PuppeteerEntities, a + OpenB + b, u);
    TidyYouTube(a + OpenB + b, u);
  }

  // ---------------------------------------------------------------------------
  // Whitespace

  /** The blank-trimming pass runs after the run-collapsing pass and can join
      line feeds into a new run of three: a, two line feeds, a space and a
      line feed, then b, leaves the whitespace stage with three line feeds in a
      row. */
  lemma PaddingRecreatesTriple(a: JsString, b: JsString)
    requires Word(a) && Word(b)
    ensures NoTripleLineFeed(a + [LF, LF, SPACE, LF] + b)
    ensures WhitespaceStage(a + [LF, LF, SPACE, LF] + b) == a + [LF, LF, LF] + b
    ensures !NoTripleLineFeed(a + [LF, LF, LF] + b)
  {
    var s := a + [LF, LF, SPACE, LF] + b;
    var r := a + [LF, LF, LF] + b;
    assert NoTripleLineFeed(s) by {
      var j := |a| + 4;
      assert forall k :: 0 <= k < |a| ==> s[k] == a[k];
      assert forall k :: j <= k < |s| ==> s[k] == b[k - j];
    }
    assert ReplaceAll(LineFeedRun, s) == s by { LineFeedRunUnchanged(s); }
    PaddingJoinsLineFeeds(a, b);
    assert r[|a|] == LF && r[|a| + 1] == LF && r[|a| + 2] == LF;
  }

  /** The same text through the staged pipeline: three line feeds survive to the output. */
  lemma PaddingTripleStaged(t: EntityTable, a: JsString, b: JsString)
    requires Word(a) && Word(b)
    ensures StagedNormalize(t, a + [LF, LF, SPACE, LF] + b) == a + [LF, LF, LF] + b
  {
    var s := a + [LF, LF, SPACE, LF] + b;
    var r := a + [LF, LF, LF] + b;
    assert TagStage(s) == s by {
      assert forall k :: 0 <= k < |a| ==> s[k] == a[k];
      assert forall k :: |a| + 4 <= k < |s| ==> s[k] == b[k - |a| - 4];
      NoMarkupUnchanged(s);
    }
    assert WhitespaceStage(s) == r by { PaddingRecreatesTriple(a, b); }
    assert NoUnit(r, AMP) by {
      assert forall k :: 0 <= k < |a| ==> r[k] == a[k];
      assert forall k :: |a| + 3 <= k < |r| ==> r[k] == b[k - |a| - 3];
    }
    NoAmpUnchanged(NumericRef, r);
    NoAmpUnchanged(NamedRef(t), r);
    TrimUnchanged(r);
  }

  lemma PaddingJoinsLineFeeds(a: JsString, b: JsString)
    requires Word(a) && Word(b)
    ensures ReplaceAll(LineFeedPadding, a + [LF, LF, SPACE, LF] + b) == a + [LF, LF, LF] + b
  {
    var p := LineFeedPadding;
    var t3 := [LF] + b;
    var t2 := [LF, SPACE] + t3;
    var t1 := [LF] + t2;
    assert a + [LF, LF, SPACE, LF] + b == a + t1;
    assert a + [LF, LF, LF] + b == a + ([LF] + ([LF] + ([LF] + b)));
    assert ReplaceAll(p, b) == b by { NoLeadUnchanged(p, b); }
    assert ReplaceAll(p, t3) == [LF] + b by {
      RunEndIs(t3, 0, SpaceOrTab, 0);
      RunEndIs(t3, 1, SpaceOrTab, 1);
      MatchChunk(p, [LF], b);
    }
    assert ReplaceAll(p, t2) == [LF] + ([LF] + b) by {
      RunEndIs(t2, 0, SpaceOrTab, 0);
      RunEndIs(t2, 1, SpaceOrTab, 2);
      MatchChunk(p, [LF, SPACE], t3);
    }
    assert ReplaceAll(p, t1) == [LF] + ([LF] + ([LF] + b)) by {
      RunEndIs(t1, 0, SpaceOrTab, 0);
      RunEndIs(t1, 1, SpaceOrTab, 1);
      MatchChunk(p, [LF], t2);
    }
    PlainChunk(p, a, t1);
  }
}
