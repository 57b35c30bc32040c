/** What each pass of the normaliser guarantees about its output, and the texts on
    which a pass changes nothing. */
module HtmlPassFacts {
  import opened JsText
  import opened HtmlPasses

  predicate IsSpaceOrTab(c: CodeUnit) { c == SPACE || c == TAB }

  /** No `>` follows a `<` anywhere in r: nothing shaped like a tag is left. */
  predicate NoGtAfterLt(r: JsString)
  {
    forall i, j :: 0 <= i < j < |r| && r[i] == LT ==> r[j] != GT
  }

  predicate GtFree(s: JsString)
  {
    forall k :: 0 <= k < |s| ==> s[k] != GT
  }

  /** No three consecutive line feeds. */
  predicate NoTripleLineFeed(r: JsString)
  {
    forall i :: 0 <= i && i + 2 < |r| ==> !(r[i] == LF && r[i + 1] == LF && r[i + 2] == LF)
  }

  /** No space or tab right before or right after a line feed. */
  predicate NoBlankBesideLineFeed(r: JsString)
  {
    forall i :: 0 <= i && i + 1 < |r| ==>
      !(r[i] == LF && IsSpaceOrTab(r[i + 1])) && !(IsSpaceOrTab(r[i]) && r[i + 1] == LF)
  }

  /** r starts with k line feeds. */
  predicate StartsWithLineFeeds(r: JsString, k: nat)
  {
    k <= |r| && forall m :: 0 <= m < k ==> r[m] == LF
  }

  /** A run that the characterising postconditions of RunEnd pin down. */
  lemma RunEndIs(s: JsString, i: nat, k: CharClass, e: nat)
    requires i <= e <= |s|
    requires forall m :: i <= m < e ==> InClass(s[m], k)
    requires e < |s| ==> !InClass(s[e], k)
    ensures RunEnd(s, i, k) == e
  {
  }

  // ---------------------------------------------------------------------------
  // /<[^>]*>/g

  lemma {:induction false} AnyTagKeepsGtFree(s: JsString)
    requires GtFree(s)
    ensures GtFree(ReplaceAll(AnyTag, s))
    decreases |s|
  {
    if s != [] {
      var n := MatchLen(AnyTag, s);
      if n > 0 {
        AnyTagKeepsGtFree(s[n..]);
      } else {
        AnyTagKeepsGtFree(s[1..]);
      }
    }
  }

  /** After the catch-all tag pass no `>` appears after any `<`. */
  lemma {:induction false} AnyTagLeavesNoTag(s: JsString)
    ensures NoGtAfterLt(ReplaceAll(AnyTag, s))
    decreases |s|
  {
    if s != [] {
      var n := MatchLen(AnyTag, s);
      if n > 0 {
        AnyTagLeavesNoTag(s[n..]);
      } else {
        var rest := ReplaceAll(AnyTag, s[1..]);
        AnyTagLeavesNoTag(s[1..]);
        var r := ReplaceAll(AnyTag, s);
        assert r == [s[0]] + rest;
        if s[0] == LT {
          assert GtFrom(s, 1) == |s|;
          assert GtFree(s[1..]) by {
            forall k | 0 <= k < |s[1..]| ensures s[1..][k] != GT {
              assert s[1..][k] == s[k + 1];
            }
          }
          AnyTagKeepsGtFree(s[1..]);
        }
        forall i, j | 0 <= i < j < |r| && r[i] == LT ensures r[j] != GT {
          assert r[j] == rest[j - 1];
          if i > 0 {
            assert r[i] == rest[i - 1];
          }
        }
      }
    }
  }

  // ---------------------------------------------------------------------------
  // /\n{3,}/g

  /** After the run pass no three line feeds are adjacent; a text that does not
      start with one or two line feeds does not gain them either. */
  lemma {:induction false} LineFeedRunLeavesNoTriple(s: JsString)
    ensures NoTripleLineFeed(ReplaceAll(LineFeedRun, s))
    ensures !StartsWithLineFeeds(s, 1) ==> !StartsWithLineFeeds(ReplaceAll(LineFeedRun, s), 1)
    ensures !StartsWithLineFeeds(s, 2) ==> !StartsWithLineFeeds(ReplaceAll(LineFeedRun, s), 2)
    decreases |s|
  {
    if s != [] {
      var r := ReplaceAll(LineFeedRun, s);
      var n := MatchLen(LineFeedRun, s);
      var e := RunEnd(s, 0, LineFeedOnly);
      if n > 0 {
        var rest := ReplaceAll(LineFeedRun, s[n..]);
        assert n == e;
        assert !StartsWithLineFeeds(s[n..], 1) by {
          if n < |s| { assert s[n..][0] == s[n]; }
        }
        LineFeedRunLeavesNoTriple(s[n..]);
        assert r == [LF, LF] + rest;
        TwoLineFeedsThen(rest);
        assert StartsWithLineFeeds(s, 2) by {
          assert s[0] == LF && s[1] == LF;
        }
      } else {
        var rest := ReplaceAll(LineFeedRun, s[1..]);
        LineFeedRunLeavesNoTriple(s[1..]);
        assert r == [s[0]] + rest;
        if s[0] == LF {
          assert e < 3;
          assert e < |s| ==> s[e] != LF;
          assert !StartsWithLineFeeds(s[1..], 2) by {
            assert |s| >= 3 ==> s[1..][0] == s[1] && s[1..][1] == s[2];
          }
          if !StartsWithLineFeeds(s, 2) {
            assert !StartsWithLineFeeds(s[1..], 1) by {
              assert |s| >= 2 ==> s[1..][0] == s[1];
            }
          }
        }
        OneUnitThen(s[0], rest);
      }
    }
  }

  /** Two line feeds in front of a text that does not start with one. */
  lemma TwoLineFeedsThen(rest: JsString)
    requires NoTripleLineFeed(rest) && !StartsWithLineFeeds(rest, 1)
    ensures NoTripleLineFeed([LF, LF] + rest)
  {
    var r := [LF, LF] + rest;
    forall i | 0 <= i && i + 2 < |r|
      ensures !(r[i] == LF && r[i + 1] == LF && r[i + 2] == LF)
    {
      if i == 0 || i == 1 {
        assert r[2] == rest[0];
      } else {
        assert r[i] == rest[i - 2] && r[i + 1] == rest[i - 1] && r[i + 2] == rest[i];
      }
    }
  }

  /** One code unit in front of a text, a line feed only where two more do not follow. */
  lemma OneUnitThen(c: CodeUnit, rest: JsString)
    requires NoTripleLineFeed(rest)
    requires c == LF ==> !StartsWithLineFeeds(rest, 2)
    ensures NoTripleLineFeed([c] + rest)
    ensures c != LF ==> !StartsWithLineFeeds([c] + rest, 1)
    ensures c == LF && !StartsWithLineFeeds(rest, 1) ==> !StartsWithLineFeeds([c] + rest, 2)
  {
    var r := [c] + rest;
    assert r[0] == c;
    assert |r| >= 2 ==> r[1] == rest[0];
    forall i | 0 <= i && i + 2 < |r|
      ensures !(r[i] == LF && r[i + 1] == LF && r[i + 2] == LF)
    {
      if i == 0 {
        assert r[2] == rest[1];
      } else {
        assert r[i] == rest[i - 1] && r[i + 1] == rest[i] && r[i + 2] == rest[i + 1];
      }
    }
  }

  lemma NoTripleTail(s: JsString)
    requires s != [] && NoTripleLineFeed(s)
    ensures NoTripleLineFeed(s[1..])
  {
    forall i | 0 <= i && i + 2 < |s[1..]|
      ensures !(s[1..][i] == LF && s[1..][i + 1] == LF && s[1..][i + 2] == LF)
    {
      assert s[1..][i] == s[i + 1] && s[1..][i + 1] == s[i + 2] && s[1..][i + 2] == s[i + 3];
    }
  }

  /** The run pass changes nothing in a text without three adjacent line feeds. */
  lemma {:induction false} LineFeedRunUnchanged(s: JsString)
    requires NoTripleLineFeed(s)
    ensures ReplaceAll(LineFeedRun, s) == s
    decreases |s|
  {
    if s != [] {
      LineFeedRunNoMatch(s);
      KeepStep(LineFeedRun, s);
      NoTripleTail(s);
      LineFeedRunUnchanged(s[1..]);
      assert [s[0]] + s[1..] == s;
    }
  }

  /** Without three adjacent line feeds the run pass matches nowhere. */
  lemma LineFeedRunNoMatch(s: JsString)
    requires s != [] && NoTripleLineFeed(s)
    ensures MatchLen(LineFeedRun, s) == 0
  {
    var e := RunEnd(s, 0, LineFeedOnly);
    assert e < 3 by {
      assert |s| >= 3 ==> !(s[0] == LF && s[1] == LF && s[2] == LF);
    }
  }

  // ---------------------------------------------------------------------------
  // /[ \t]*\n[ \t]*/g

  /** A match of the padding pass starts at every line feed. */
  lemma PaddingMatchesAtLineFeed(s: JsString)
    requires s != [] && s[0] == LF
    ensures MatchLen(LineFeedPadding, s) >= 1
  {
    RunEndIs(s, 0, SpaceOrTab, 0);
  }

  /** A space or tab in front of a padding match extends it. */
  lemma PaddingMatchExtends(s: JsString)
    requires |s| >= 2 && IsSpaceOrTab(s[0]) && MatchLen(LineFeedPadding, s[1..]) > 0
    ensures MatchLen(LineFeedPadding, s) > 0
  {
    var t := s[1..];
    var e := RunEnd(t, 0, SpaceOrTab);
    assert e < |t| && t[e] == LF;
    forall m | 0 <= m < 1 + e ensures InClass(s[m], SpaceOrTab) {
      if m > 0 { assert s[m] == t[m - 1]; }
    }
    assert s[1 + e] == t[e];
    RunEndIs(s, 0, SpaceOrTab, 1 + e);
  }

  /** One code unit in front of a text, with no blank beside a line feed where they meet. */
  lemma UnitThenNoBlank(c: CodeUnit, rest: JsString)
    requires NoBlankBesideLineFeed(rest)
    requires c == LF && rest != [] ==> !IsSpaceOrTab(rest[0])
    requires IsSpaceOrTab(c) && rest != [] ==> rest[0] != LF
    ensures NoBlankBesideLineFeed([c] + rest)
  {
    var r := [c] + rest;
    forall i | 0 <= i && i + 1 < |r|
      ensures !(r[i] == LF && IsSpaceOrTab(r[i + 1])) && !(IsSpaceOrTab(r[i]) && r[i + 1] == LF)
    {
      if i == 0 {
        assert r[1] == rest[0];
      } else {
        assert r[i] == rest[i - 1] && r[i + 1] == rest[i];
      }
    }
  }

  lemma NoBlankTail(s: JsString)
    requires s != [] && NoBlankBesideLineFeed(s)
    ensures NoBlankBesideLineFeed(s[1..])
  {
    forall i | 0 <= i && i + 1 < |s[1..]|
      ensures !(s[1..][i] == LF && IsSpaceOrTab(s[1..][i + 1]))
        && !(IsSpaceOrTab(s[1..][i]) && s[1..][i + 1] == LF)
    {
      assert s[1..][i] == s[i + 1] && s[1..][i + 1] == s[i + 2];
    }
  }

  /** The padding pass leaves no space or tab next to a line feed. Its output
      starts with a line feed only where a match starts, and otherwise with the
      input's own first code unit. */
  lemma {:induction false} PaddingLeavesNoBlank(s: JsString)
    ensures NoBlankBesideLineFeed(ReplaceAll(LineFeedPadding, s))
    ensures ReplaceAll(LineFeedPadding, s) != [] && ReplaceAll(LineFeedPadding, s)[0] == LF
      ==> MatchLen(LineFeedPadding, s) > 0
    ensures ReplaceAll(LineFeedPadding, s) != [] && ReplaceAll(LineFeedPadding, s)[0] != LF
      ==> s != [] && ReplaceAll(LineFeedPadding, s)[0] == s[0]
    decreases |s|
  {
    if s != [] {
      var p := LineFeedPadding;
      var r := ReplaceAll(p, s);
      var n := MatchLen(p, s);
      if n > 0 {
        var rest := ReplaceAll(p, s[n..]);
        PaddingLeavesNoBlank(s[n..]);
        assert r == [LF] + rest;
        var e := RunEnd(s, 0, SpaceOrTab);
        assert n == RunEnd(s, e + 1, SpaceOrTab);
        assert rest != [] ==> !IsSpaceOrTab(rest[0]) by {
          if rest != [] && rest[0] != LF {
            assert s[n..] != [] && rest[0] == s[n..][0] == s[n];
            assert !InClass(s[n], SpaceOrTab);
          }
        }
        UnitThenNoBlank(LF, rest);
      } else {
        var rest := ReplaceAll(p, s[1..]);
        PaddingLeavesNoBlank(s[1..]);
        KeepStep(p, s);
        assert r == [s[0]] + rest;
        if s[0] == LF {
          PaddingMatchesAtLineFeed(s);
        }
        if IsSpaceOrTab(s[0]) && rest != [] && rest[0] == LF {
          assert MatchLen(p, s[1..]) > 0;
          PaddingMatchExtends(s);
        }
        UnitThenNoBlank(s[0], rest);
      }
    }
  }

  /** The padding pass changes nothing in a text with no blank beside a line feed. */
  lemma {:induction false} PaddingUnchanged(s: JsString)
    requires NoBlankBesideLineFeed(s)
    ensures ReplaceAll(LineFeedPadding, s) == s
    decreases |s|
  {
    if s != [] {
      var p := LineFeedPadding;
      NoBlankTail(s);
      PaddingUnchanged(s[1..]);
      assert [s[0]] + s[1..] == s;
      if s[0] == LF {
        PaddingMatchIsLineFeed(s);
        MatchAt(p, s, 1, s[1..], [LF]);
      } else {
        PaddingNoMatch(s);
        KeepStep(p, s);
      }
    }
  }

  /** Without blanks beside it, a line feed is a padding match on its own. */
  lemma PaddingMatchIsLineFeed(s: JsString)
    requires s != [] && s[0] == LF && NoBlankBesideLineFeed(s)
    ensures MatchLen(LineFeedPadding, s) == 1
  {
    assert |s| > 1 ==> !IsSpaceOrTab(s[1]);
    RunEndIs(s, 0, SpaceOrTab, 0);
    RunEndIs(s, 1, SpaceOrTab, 1);
  }

  /** Without blanks beside a line feed, no padding match starts at any other code unit. */
  lemma PaddingNoMatch(s: JsString)
    requires s != [] && s[0] != LF && NoBlankBesideLineFeed(s)
    ensures MatchLen(LineFeedPadding, s) == 0
  {
    var e := RunEnd(s, 0, SpaceOrTab);
    if e < |s| && s[e] == LF {
      assert e > 0 ==> IsSpaceOrTab(s[e - 1]);
    }
  }

  // ---------------------------------------------------------------------------
  // /\n/g -> "\n"  (renderTextWithLineBreaks)

  lemma {:induction false} LineFeedPassIsIdentity(s: JsString)
    ensures ReplaceAll(LineFeed, s) == s
    decreases |s|
  {
    if s != [] {
      LineFeedPassIsIdentity(s[1..]);
      if s[0] == LF {
        assert s == [LF] + s[1..];
        MatchChunk(LineFeed, [LF], s[1..]);
      } else {
        KeepStep(LineFeed, s);
        assert s == [s[0]] + s[1..];
      }
    }
  }

  // ---------------------------------------------------------------------------
  // Character references

  predicate AllDigits(d: JsString) { forall k :: 0 <= k < |d| ==> IsAsciiDigit(d[k]) }

  predicate AllLetters(w: JsString) { forall k :: 0 <= k < |w| ==> IsAsciiLetter(w[k]) }

  /** `&#digits;` matches the numeric-reference expression exactly. */
  lemma NumericRefLenOf(d: JsString, rest: JsString)
    requires d != [] && AllDigits(d)
    ensures NumericRefLen([AMP, HASH] + d + [SEMICOLON] + rest) == |d| + 3
  {
    var s := [AMP, HASH] + d + [SEMICOLON] + rest;
    forall m | 2 <= m < 2 + |d| ensures InClass(s[m], Digit) {
      assert s[m] == d[m - 2];
    }
    assert s[2 + |d|] == SEMICOLON;
    RunEndIs(s, 2, Digit, 2 + |d|);
  }

  /** `&letters;` matches the named-reference expression exactly. */
  lemma NamedRefLenOf(w: JsString, rest: JsString)
    requires w != [] && AllLetters(w)
    ensures NamedRefLen([AMP] + w + [SEMICOLON] + rest) == |w| + 2
  {
    var s := [AMP] + w + [SEMICOLON] + rest;
    forall m | 1 <= m < 1 + |w| ensures InClass(s[m], Letter) {
      assert s[m] == w[m - 1];
    }
    assert s[1 + |w|] == SEMICOLON;
    RunEndIs(s, 1, Letter, 1 + |w|);
  }

  /** The pieces of `&#digits;` followed by more text. */
  lemma NumericRefParts(d: JsString, rest: JsString)
    ensures ([AMP, HASH] + d + [SEMICOLON] + rest)[|d| + 3..] == rest
    ensures ([AMP, HASH] + d + [SEMICOLON] + rest)[2..|d| + 2] == d
  {
  }

  /** The pieces of `&letters;` followed by more text. */
  lemma NamedRefParts(w: JsString, rest: JsString)
    ensures ([AMP] + w + [SEMICOLON] + rest)[|w| + 2..] == rest
    ensures ([AMP] + w + [SEMICOLON] + rest)[..|w| + 2] == [AMP] + w + [SEMICOLON]
    ensures ([AMP] + w + [SEMICOLON] + rest)[1..|w| + 1] == w
  {
  }

  /** `&#N;` becomes the single code unit N modulo 2^16. */
  lemma NumericRefDecodes(d: JsString, rest: JsString)
    requires d != [] && AllDigits(d)
    ensures ReplaceAll(NumericRef, [AMP, HASH] + d + [SEMICOLON] + rest)
         == [FromCharCode(DecimalValue(d))] + ReplaceAll(NumericRef, rest)
  {
    var s := [AMP, HASH] + d + [SEMICOLON] + rest;
    NumericRefLenOf(d, rest);
    NumericRefParts(d, rest);
    MatchAt(NumericRef, s, |d| + 3, rest, [FromCharCode(DecimalValue(d))]);
  }

  /** `&name;` becomes the table's entry for the lower-cased name, or stays as it is. */
  lemma NamedRefDecodes(t: EntityTable, w: JsString, rest: JsString)
    requires w != [] && AllLetters(w)
    ensures ReplaceAll(NamedRef(t), [AMP] + w + [SEMICOLON] + rest)
         == NamedValue(t, [AMP] + w + [SEMICOLON], w) + ReplaceAll(NamedRef(t), rest)
  {
    var s := [AMP] + w + [SEMICOLON] + rest;
    NamedRefLenOf(w, rest);
    NamedRefParts(w, rest);
    MatchAt(NamedRef(t), s, |w| + 2, rest, NamedValue(t, [AMP] + w + [SEMICOLON], w));
  }

  /** In the one-pass decoder a numeric reference decodes as in the numeric pass... */
  lemma AnyRefDecodesNumeric(t: EntityTable, d: JsString, rest: JsString)
    requires d != [] && AllDigits(d)
    ensures ReplaceAll(AnyRef(t), [AMP, HASH] + d + [SEMICOLON] + rest)
         == [FromCharCode(DecimalValue(d))] + ReplaceAll(AnyRef(t), rest)
  {
    var s := [AMP, HASH] + d + [SEMICOLON] + rest;
    NumericRefLenOf(d, rest);
    NumericRefParts(d, rest);
    MatchAt(AnyRef(t), s, |d| + 3, rest, [FromCharCode(DecimalValue(d))]);
  }

  /** ...and a named one as in the named pass. */
  lemma AnyRefDecodesNamed(t: EntityTable, w: JsString, rest: JsString)
    requires w != [] && AllLetters(w)
    ensures ReplaceAll(AnyRef(t), [AMP] + w + [SEMICOLON] + rest)
         == NamedValue(t, [AMP] + w + [SEMICOLON], w) + ReplaceAll(AnyRef(t), rest)
  {
    var s := [AMP] + w + [SEMICOLON] + rest;
    assert NumericRefLen(s) == 0 by { assert s[1] == w[0]; }
    NamedRefLenOf(w, rest);
    NamedRefParts(w, rest);
    MatchAt(AnyRef(t), s, |w| + 2, rest, NamedValue(t, [AMP] + w + [SEMICOLON], w));
  }

  /** Entity names are looked up without regard to ASCII case. */
  lemma NamedValueIgnoresCase(t: EntityTable, w1: JsString, w2: JsString, whole1: JsString, whole2: JsString)
    requires LowerAscii(w1) == LowerAscii(w2)
    requires LowerAscii(w1) in t && t[LowerAscii(w1)] != []
    ensures NamedValue(t, whole1, w1) == NamedValue(t, whole2, w2) == t[LowerAscii(w1)]
  {
  }
}
