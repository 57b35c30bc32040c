/** Worked inputs for character references: the order of the decoding passes,
    the three tables, case-insensitive lookup, unknown names, and output that is
    markup again. */
module EntityExamples {
  import opened JsText
  import opened HtmlPasses
  import opened HtmlPassFacts
  import opened HtmlNormalize

  /** Text, possibly empty, with no `<`, no `&` and no whitespace. */
  predicate Bare(w: JsString)
  {
    forall k :: 0 <= k < |w| ==> w[k] != LT && w[k] != AMP && !IsWhitespace(w[k])
  }

  /** The reference `&w;`. */
  function NamedRefText(w: JsString): JsString
  {
    [AMP] + w + [SEMICOLON]
  }

  /** A name followed by its `;` is bare text. */
  lemma NameTailBare(w: JsString)
    requires AllLetters(w)
    ensures Bare(w + [SEMICOLON])
  {
    var post := w + [SEMICOLON];
    forall k | 0 <= k < |post| ensures post[k] != LT && post[k] != AMP && !IsWhitespace(post[k]) {
      if k < |w| {
        assert post[k] == w[k];
      }
    }
  }

  /** The code units of `pre&w;post`: one `&`, no `<`, no whitespace. */
  lemma NamedRefTextUnits(pre: JsString, w: JsString, post: JsString)
    requires Bare(pre) && Bare(post) && w != [] && AllLetters(w)
    ensures NoUnit(pre + NamedRefText(w) + post, LT)
    ensures forall k :: 0 <= k < |pre + NamedRefText(w) + post| ==>
      !IsWhitespace((pre + NamedRefText(w) + post)[k])
  {
    var s := pre + NamedRefText(w) + post;
    var j := |pre| + |w| + 2;
    forall k | 0 <= k < |s| ensures s[k] != LT && !IsWhitespace(s[k]) {
      if k < |pre| {
        assert s[k] == pre[k];
      } else if k == |pre| {
        assert s[k] == AMP;
      } else if k < j - 1 {
        assert s[k] == w[k - |pre| - 1];
      } else if k == j - 1 {
        assert s[k] == SEMICOLON;
      } else {
        assert s[k] == post[k - j];
      }
    }
  }

  /** Text whose only special code unit is one `&` leading a named reference
      passes the tag and whitespace stages and the trim unchanged. */
  lemma NamedRefTextShape(pre: JsString, w: JsString, post: JsString)
    requires Bare(pre) && Bare(post) && w != [] && AllLetters(w)
    ensures TagStage(pre + NamedRefText(w) + post) == pre + NamedRefText(w) + post
    ensures WhitespaceStage(pre + NamedRefText(w) + post) == pre + NamedRefText(w) + post
    ensures Trim(pre + NamedRefText(w) + post) == pre + NamedRefText(w) + post
  {
    var s := pre + NamedRefText(w) + post;
    NamedRefTextUnits(pre, w, post);
    assert TagStage(s) == s by { NoMarkupUnchanged(s); }
    assert WhitespaceStage(s) == s by {
      assert NoTripleLineFeed(s) && NoBlankBesideLineFeed(s);
      TidyTextUnchanged(s);
    }
    assert Trim(s) == s by { TrimUnchanged(s); }
  }

  /** The numeric pass skips a named reference; the named pass and the one-pass
      decoder replace it. */
  lemma NamedRefPasses(t: EntityTable, pre: JsString, w: JsString, post: JsString)
    requires Bare(pre) && Bare(post) && w != [] && AllLetters(w)
    ensures ReplaceAll(NumericRef, pre + NamedRefText(w) + post) == pre + NamedRefText(w) + post
    ensures ReplaceAll(NamedRef(t), pre + NamedRefText(w) + post)
         == pre + NamedValue(t, NamedRefText(w), w) + post
    ensures ReplaceAll(AnyRef(t), pre + NamedRefText(w) + post)
         == pre + NamedValue(t, NamedRefText(w), w) + post
  {
    var r := NamedRefText(w) + post;
    var v := NamedValue(t, NamedRefText(w), w);
    assert pre + NamedRefText(w) + post == pre + r;
    assert pre + v + post == pre + (v + post);
    assert r == [AMP] + w + [SEMICOLON] + post;
    assert ReplaceAll(NumericRef, r) == r by {
      assert r[0] == AMP && r[1] == w[0];
      SkipChunk(NumericRef, NamedRefText(w), post);
      NoLeadUnchanged(NumericRef, post);
    }
    assert ReplaceAll(NamedRef(t), r) == v + post by {
      NamedRefDecodes(t, w, post);
      NoLeadUnchanged(NamedRef(t), post);
    }
    assert ReplaceAll(AnyRef(t), r) == v + post by {
      AnyRefDecodesNamed(t, w, post);
      NoLeadUnchanged(AnyRef(t), post);
    }
    PlainChunk(NumericRef, pre, r);
    PlainChunk(NamedRef(t), pre, r);
    PlainChunk(AnyRef(t), pre, r);
  }

  /** How a named reference between bare texts goes through the staged
      normaliser: the numeric pass skips it, the named pass replaces it. */
  lemma StagedNamedRef(t: EntityTable, pre: JsString, w: JsString, post: JsString)
    requires Bare(pre) && Bare(post) && w != [] && AllLetters(w)
    ensures StagedNormalize(t, pre + NamedRefText(w) + post)
         == Trim(pre + NamedValue(t, NamedRefText(w), w) + post)
  {
    var s := pre + NamedRefText(w) + post;
    var v := pre + NamedValue(t, NamedRefText(w), w) + post;
    assert WhitespaceStage(TagStage(s)) == s by { NamedRefTextShape(pre, w, post); }
    assert ReplaceAll(NumericRef, s) == s && ReplaceAll(NamedRef(t), s) == v by {
      NamedRefPasses(t, pre, w, post);
    }
    StagedThrough(t, s, s, s, v);
  }

  /** The same text through the comment-youtube normaliser. */
  lemma YouTubeNamedRef(pre: JsString, w: JsString, post: JsString)
    requires Bare(pre) && Bare(post) && w != [] && AllLetters(w)
    ensures YouTubeText(pre + NamedRefText(w) + post)
         == pre + NamedValue(YouTubeEntities, NamedRefText(w), w) + post
  {
    var s := pre + NamedRefText(w) + post;
    var v := pre + NamedValue(YouTubeEntities, NamedRefText(w), w) + post;
    assert Trim(WhitespaceStage(TagStage(s))) == s by { NamedRefTextShape(pre, w, post); }
    assert ReplaceAll(AnyRef(YouTubeEntities), s) == v by {
      NamedRefPasses(YouTubeEntities, pre, w, post);
    }
    YouTubeThrough(s, s, v);
  }

  /** A lower-case name is looked up as it is. */
  lemma NamedValueOfLower(t: EntityTable, whole: JsString, w: JsString)
    requires forall k :: 0 <= k < |w| ==> IsAsciiLower(w[k])
    ensures LowerAscii(w) == w
    ensures w in t && t[w] != [] ==> NamedValue(t, whole, w) == t[w]
    ensures w !in t ==> NamedValue(t, whole, w) == whole
  {
    assert LowerAscii(w) == w;
  }

  /** A known name between bare texts becomes its table entry. */
  lemma KnownEntityStaged(t: EntityTable, pre: JsString, w: JsString, post: JsString)
    requires Bare(pre) && Bare(post) && w != [] && forall k :: 0 <= k < |w| ==> IsAsciiLower(w[k])
    requires w in t && t[w] != [] && !IsWhitespace(t[w][0]) && !IsWhitespace(t[w][|t[w]| - 1])
    ensures StagedNormalize(t, pre + NamedRefText(w) + post) == pre + t[w] + post
  {
    NamedValueOfLower(t, NamedRefText(w), w);
    StagedNamedRef(t, pre, w, post);
    BareAroundKept(pre, t[w], post);
  }

  /** Bare text around a value that neither starts nor ends with whitespace is not trimmed. */
  lemma BareAroundKept(pre: JsString, v: JsString, post: JsString)
    requires Bare(pre) && Bare(post) && v != [] && !IsWhitespace(v[0]) && !IsWhitespace(v[|v| - 1])
    ensures Trim(pre + v + post) == pre + v + post
  {
    var r := pre + v + post;
    assert r[0] == (if pre != [] then pre[0] else v[0]);
    assert r[|r| - 1] == (if post != [] then post[|post| - 1] else v[|v| - 1]);
    TrimUnchanged(r);
  }

  lemma KnownEntityYouTube(pre: JsString, w: JsString, post: JsString)
    requires Bare(pre) && Bare(post) && w != [] && forall k :: 0 <= k < |w| ==> IsAsciiLower(w[k])
    requires w in YouTubeEntities
    ensures YouTubeText(pre + NamedRefText(w) + post) == pre + YouTubeEntities[w] + post
  {
    assert YouTubeEntities[w] != [];
    NamedValueOfLower(YouTubeEntities, NamedRefText(w), w);
    YouTubeNamedRef(pre, w, post);
  }

  /** `&mdash;` differs between the routes: card-comment and comment-youtube
      produce U+2014, the puppeteer routes the three code units of their table. */
  lemma EmDashCardComment(pre: JsString, post: JsString)
    requires Bare(pre) && Bare(post)
    ensures CardCommentText(pre + NamedRefText(NameMdash) + post) == pre + [0x2014] + post
  {
    assert CardCommentEntities[NameMdash] == [0x2014];
    KnownEntityStaged(CardCommentEntities, pre, NameMdash, post);
  }

  lemma EmDashPuppeteer(pre: JsString, post: JsString)
    requires Bare(pre) && Bare(post)
    ensures PuppeteerText(pre + NamedRefText(NameMdash) + post) == pre + [0x201A, 0x00C4, 0x00EE] + post
  {
    assert PuppeteerEntities[NameMdash] == [0x201A, 0x00C4, 0x00EE];
    KnownEntityStaged(PuppeteerEntities, pre, NameMdash, post);
  }

  lemma EmDashYouTube(pre: JsString, post: JsString)
    requires Bare(pre) && Bare(post)
    ensures YouTubeText(pre + NamedRefText(NameMdash) + post) == pre + [0x2014] + post
  {
    assert YouTubeEntities[NameMdash] == [0x2014];
    KnownEntityYouTube(pre, NameMdash, post);
  }

  /** `&nbsp;` is an ASCII space: at the start of a comment the staged normaliser
      trims it away, while comment-youtube, which trims before decoding, keeps it. */
  lemma NbspTrimmedCardComment(post: JsString)
    requires Bare(post) && post != []
    ensures CardCommentText(NamedRefText(NameNbsp) + post) == post
  {
    assert CardCommentEntities[NameNbsp] == [SPACE];
    NamedValueOfLower(CardCommentEntities, NamedRefText(NameNbsp), NameNbsp);
    assert [] + NamedRefText(NameNbsp) + post == NamedRefText(NameNbsp) + post;
    StagedNamedRef(CardCommentEntities, [], NameNbsp, post);
    LeadingSpaceTrimmed(post);
  }

  lemma LeadingSpaceTrimmed(post: JsString)
    requires Bare(post) && post != []
    ensures Trim([] + [SPACE] + post) == post
  {
    assert [] + [SPACE] + post == [SPACE] + post + [];
    TrimSurrounded([SPACE], post, []);
  }

  lemma NbspKeptYouTube(post: JsString)
    requires Bare(post) && post != []
    ensures YouTubeText(NamedRefText(NameNbsp) + post) == [SPACE] + post
  {
    assert YouTubeEntities[NameNbsp] == [SPACE];
    assert [] + NamedRefText(NameNbsp) + post == NamedRefText(NameNbsp) + post;
    KnownEntityYouTube([], NameNbsp, post);
  }

  /** `&hellip;` is three full stops in every table. */
  lemma HellipIsThreeStops(pre: JsString, post: JsString)
    requires Bare(pre) && Bare(post)
    ensures CardCommentText(pre + NamedRefText(NameHellip) + post) == pre + [0x2E, 0x2E, 0x2E] + post
  {
    assert CardCommentEntities[NameHellip] == [0x2E, 0x2E, 0x2E];
    KnownEntityStaged(CardCommentEntities, pre, NameHellip, post);
  }

  /** `&rsquo;` is an ASCII apostrophe for card-comment and U+2019 for comment-youtube. */
  lemma RsquoCardComment(pre: JsString, post: JsString)
    requires Bare(pre) && Bare(post)
    ensures CardCommentText(pre + NamedRefText(NameRsquo) + post) == pre + [0x27] + post
  {
    assert CardCommentEntities[NameRsquo] == [0x27];
    KnownEntityStaged(CardCommentEntities, pre, NameRsquo, post);
  }

  lemma RsquoYouTube(pre: JsString, post: JsString)
    requires Bare(pre) && Bare(post)
    ensures YouTubeText(pre + NamedRefText(NameRsquo) + post) == pre + [0x2019] + post
  {
    assert YouTubeEntities[NameRsquo] == [0x2019];
    KnownEntityYouTube(pre, NameRsquo, post);
  }

  /** Entity names match in any ASCII case: `&AMP;`, `&Amp;` and `&amp;` decode alike. */
  lemma EntityNamesIgnoreCase(t: EntityTable, pre: JsString, w1: JsString, w2: JsString, post: JsString)
    requires Bare(pre) && Bare(post) && w1 != [] && AllLetters(w1) && w2 != [] && AllLetters(w2)
    requires LowerAscii(w1) == LowerAscii(w2)
    requires LowerAscii(w1) in t && t[LowerAscii(w1)] != []
    ensures StagedNormalize(t, pre + NamedRefText(w1) + post)
         == StagedNormalize(t, pre + NamedRefText(w2) + post)
  {
    StagedNamedRef(t, pre, w1, post);
    StagedNamedRef(t, pre, w2, post);
    NamedValueIgnoresCase(t, w1, w2, NamedRefText(w1), NamedRefText(w2));
  }

  /** A name that is not in the table is left as it was, `&` and `;` included. */
  lemma UnknownEntityKept(t: EntityTable, pre: JsString, w: JsString, post: JsString)
    requires Bare(pre) && Bare(post) && w != [] && AllLetters(w)
    requires LowerAscii(w) !in t
    ensures StagedNormalize(t, pre + NamedRefText(w) + post) == pre + NamedRefText(w) + post
  {
    StagedNamedRef(t, pre, w, post);
    NamedRefTextShape(pre, w, post);
  }

  lemma UnknownEntityKeptYouTube(pre: JsString, w: JsString, post: JsString)
    requires Bare(pre) && Bare(post) && w != [] && AllLetters(w)
    requires LowerAscii(w) !in YouTubeEntities
    ensures YouTubeText(pre + NamedRefText(w) + post) == pre + NamedRefText(w) + post
  {
    YouTubeNamedRef(pre, w, post);
  }

  /** Decoding is not idempotent: `&amp;lt;` normalises to `&lt;`, which
      normalises to `<`, so decoded text can be markup again. */
  lemma DecodingAgainDecodesFurther()
    ensures CardCommentText(NamedRefText(NameAmp) + NameLt + [SEMICOLON]) == NamedRefText(NameLt)
  {
    var post := NameLt + [SEMICOLON];
    AmpEntry();
    NameTailBare(NameLt);
    KnownEntityStaged(CardCommentEntities, [], NameAmp, post);
    Regrouped(NameLt);
  }

  lemma Regrouped(w: JsString)
    ensures [] + NamedRefText(NameAmp) + (w + [SEMICOLON]) == NamedRefText(NameAmp) + w + [SEMICOLON]
    ensures [] + [AMP] + (w + [SEMICOLON]) == NamedRefText(w)
  {
  }

  lemma AmpEntry()
    ensures NameAmp in CardCommentEntities && CardCommentEntities[NameAmp] == [AMP]
    ensures forall k :: 0 <= k < |NameAmp| ==> IsAsciiLower(NameAmp[k])
    ensures AllLetters(NameLt)
  {
  }

  lemma LessThanEntityIsMarkup()
    ensures CardCommentText(NamedRefText(NameLt)) == [LT]
  {
    assert CardCommentEntities[NameLt] == [LT];
    assert [] + NamedRefText(NameLt) + [] == NamedRefText(NameLt);
    KnownEntityStaged(CardCommentEntities, [], NameLt, []);
    assert [] + [LT] + [] == [LT];
  }

  /** `&#d;`: AMP, HASH, the digits, SEMICOLON. */
  function NumericRefText(d: JsString): JsString
  {
    [AMP, HASH] + d + [SEMICOLON]
  }

  /** A numeric reference followed by bare text holds no `<` and no whitespace,
      so it passes the tag and whitespace stages and the trim unchanged. */
  lemma NumericRefTextShape(d: JsString, post: JsString)
    requires d != [] && AllDigits(d) && Bare(post)
    ensures TagStage(NumericRefText(d) + post) == NumericRefText(d) + post
    ensures WhitespaceStage(NumericRefText(d) + post) == NumericRefText(d) + post
    ensures Trim(NumericRefText(d) + post) == NumericRefText(d) + post
  {
    var s := NumericRefText(d) + post;
    var j := |d| + 3;
    assert NoUnit(s, LT) && forall k :: 0 <= k < |s| ==> !IsWhitespace(s[k]) by {
      forall k | 0 <= k < |s| ensures s[k] != LT && !IsWhitespace(s[k]) {
        if k < 2 {
          assert s[k] == [AMP, HASH][k];
        } else if k < j - 1 {
          assert s[k] == d[k - 2];
        } else if k == j - 1 {
          assert s[k] == SEMICOLON;
        } else {
          assert s[k] == post[k - j];
        }
      }
    }
    assert TagStage(s) == s by { NoMarkupUnchanged(s); }
    assert WhitespaceStage(s) == s by {
      assert NoTripleLineFeed(s) && NoBlankBesideLineFeed(s);
      TidyTextUnchanged(s);
    }
    assert Trim(s) == s by { TrimUnchanged(s); }
  }

  /** `&#d;w;` passes the tag and whitespace stages and the trim unchanged. */
  lemma AmpRefShape(d: JsString, w: JsString)
    requires d != [] && AllDigits(d) && w != [] && AllLetters(w)
    ensures WhitespaceStage(TagStage(NumericRefText(d) + w + [SEMICOLON])) == NumericRefText(d) + w + [SEMICOLON]
    ensures Trim(WhitespaceStage(TagStage(NumericRefText(d) + w + [SEMICOLON]))) == NumericRefText(d) + w + [SEMICOLON]
  {
    var post := w + [SEMICOLON];
    assert NumericRefText(d) + w + [SEMICOLON] == NumericRefText(d) + post;
    NameTailBare(w);
    NumericRefTextShape(d, post);
  }

  /** When d denotes `&`, the numeric pass turns `&#d;w;` into `&w;`... */
  lemma AmpRefNumericPass(d: JsString, w: JsString)
    requires d != [] && AllDigits(d) && DecimalValue(d) % 0x1_0000 == AMP as int
    requires w != [] && AllLetters(w)
    ensures ReplaceAll(NumericRef, NumericRefText(d) + w + [SEMICOLON]) == NamedRefText(w)
  {
    var post := w + [SEMICOLON];
    NameTailBare(w);
    assert NumericRefText(d) + w + [SEMICOLON] == [AMP, HASH] + d + [SEMICOLON] + post;
    NumericRefDecodes(d, post);
    NoLeadUnchanged(NumericRef, post);
    assert FromCharCode(DecimalValue(d)) == AMP;
    assert [AMP] + post == NamedRefText(w);
  }

  /** ...and so does the one-pass decoder. */
  lemma AmpRefAnyRefPass(t: EntityTable, d: JsString, w: JsString)
    requires d != [] && AllDigits(d) && DecimalValue(d) % 0x1_0000 == AMP as int
    requires w != [] && AllLetters(w)
    ensures ReplaceAll(AnyRef(t), NumericRefText(d) + w + [SEMICOLON]) == NamedRefText(w)
  {
    var post := w + [SEMICOLON];
    NameTailBare(w);
    assert NumericRefText(d) + w + [SEMICOLON] == [AMP, HASH] + d + [SEMICOLON] + post;
    AnyRefDecodesNumeric(t, d, post);
    NoLeadUnchanged(AnyRef(t), post);
    assert FromCharCode(DecimalValue(d)) == AMP;
    assert [AMP] + post == NamedRefText(w);
  }

  /** The named pass replaces a lone reference to a known lower-case name by its entry. */
  lemma LowerNamedRefPass(t: EntityTable, w: JsString)
    requires w != [] && forall k :: 0 <= k < |w| ==> IsAsciiLower(w[k])
    requires w in t && t[w] != []
    ensures ReplaceAll(NamedRef(t), NamedRefText(w)) == t[w]
  {
    assert NamedRefText(w) == [AMP] + w + [SEMICOLON] + [];
    NamedRefDecodes(t, w, []);
    NamedValueOfLower(t, NamedRefText(w), w);
  }

  /** ...and the trim keeps an entry that does not start or end with whitespace. */
  lemma LowerNamedRefTrimmed(t: EntityTable, w: JsString)
    requires w != [] && forall k :: 0 <= k < |w| ==> IsAsciiLower(w[k])
    requires w in t && t[w] != [] && !IsWhitespace(t[w][0]) && !IsWhitespace(t[w][|t[w]| - 1])
    ensures Trim(ReplaceAll(NamedRef(t), NamedRefText(w))) == t[w]
  {
    LowerNamedRefPass(t, w);
    TrimUnchanged(t[w]);
  }

  /** The numeric pass runs first, so a reference that decodes to `&` and is
      followed by a name forms a new named reference, which the named pass then
      decodes: `&#38;amp;` normalises to `&`. */
  lemma NumericThenNamedStaged(t: EntityTable, d: JsString, w: JsString)
    requires d != [] && AllDigits(d) && DecimalValue(d) % 0x1_0000 == AMP as int
    requires w != [] && forall k :: 0 <= k < |w| ==> IsAsciiLower(w[k])
    requires w in t && t[w] != [] && !IsWhitespace(t[w][0]) && !IsWhitespace(t[w][|t[w]| - 1])
    ensures StagedNormalize(t, NumericRefText(d) + w + [SEMICOLON]) == t[w]
  {
    var s := NumericRefText(d) + w + [SEMICOLON];
    assert AllLetters(w);
    AmpRefShape(d, w);
    AmpRefNumericPass(d, w);
    LowerNamedRefTrimmed(t, w);
    StagedThrough(t, s, s, NamedRefText(w), ReplaceAll(NamedRef(t), NamedRefText(w)));
  }

  /** comment-youtube decodes in one pass and does not rescan what it produced:
      `&#38;amp;` becomes `&amp;`. */
  lemma NumericThenNamedYouTube(d: JsString, w: JsString)
    requires d != [] && AllDigits(d) && DecimalValue(d) % 0x1_0000 == AMP as int
    requires w != [] && AllLetters(w)
    ensures YouTubeText(NumericRefText(d) + w + [SEMICOLON]) == NamedRefText(w)
  {
    var s := NumericRefText(d) + w + [SEMICOLON];
    AmpRefShape(d, w);
    AmpRefAnyRefPass(YouTubeEntities, d, w);
    YouTubeThrough(s, s, NamedRefText(w));
  }

  /** The instance `&#38;amp;` itself. */
  lemma AmpersandReferenceOrder()
    ensures DecimalValue([0x33, 0x38]) == 38
    ensures CardCommentText(NumericRefText([0x33, 0x38]) + NameAmp + [SEMICOLON]) == [AMP]
    ensures YouTubeText(NumericRefText([0x33, 0x38]) + NameAmp + [SEMICOLON]) == NamedRefText(NameAmp)
  {
    assert DecimalValue([0x33, 0x38]) == 38 by {
      assert [0x33, 0x38][..1] == [0x33];
      assert [0x33][..0] == [];
    }
    assert CardCommentEntities[NameAmp] == [AMP];
    NumericThenNamedStaged(CardCommentEntities, [0x33, 0x38], NameAmp);
    NumericThenNamedYouTube([0x33, 0x38], NameAmp);
  }
}
