/** The card-comment route: parameter resolution, scaling and sizing of the card
    its GET handler renders. */
module CardComment {
  import opened Wrappers
  import opened JsText
  import opened JsNumber
  import opened QueryParams
  import opened CardSizes
  import opened HtmlNormalize
  import opened TextHeight

  /** The size-related quantities after scaling. */
  datatype Scaled = Scaled(width: real, padding: real, radius: real, fontSize: real)

  /** Each size-related quantity times the scale factor. */
  function ScaleCard(baseWidth: real, basePadding: real, baseRadius: real, fontSize: real, scale: real): (d: Scaled)
    ensures baseWidth >= 0.0 && basePadding >= 0.0 && baseRadius >= 0.0 && fontSize >= 0.0 && scale >= 0.0 ==>
      d.width >= 0.0 && d.padding >= 0.0 && d.radius >= 0.0 && d.fontSize >= 0.0
    ensures scale == 0.0 ==> d == Scaled(0.0, 0.0, 0.0, 0.0)
  {
    Scaled(baseWidth * scale, basePadding * scale, baseRadius * scale, fontSize * scale)
  }

  /** Doubling the scale factor doubles the width, padding, corner radius and font size. */
  lemma DoublingScaleDoubles(baseWidth: real, basePadding: real, baseRadius: real, fontSize: real, scale: real)
    ensures ScaleCard(baseWidth, basePadding, baseRadius, fontSize, 2.0 * scale) ==
      var d := ScaleCard(baseWidth, basePadding, baseRadius, fontSize, scale);
      Scaled(2.0 * d.width, 2.0 * d.padding, 2.0 * d.radius, 2.0 * d.fontSize)
  {
    assert baseWidth * (2.0 * scale) == 2.0 * (baseWidth * scale);
    assert basePadding * (2.0 * scale) == 2.0 * (basePadding * scale);
    assert baseRadius * (2.0 * scale) == 2.0 * (baseRadius * scale);
    assert fontSize * (2.0 * scale) == 2.0 * (fontSize * scale);
  }

  /** The numeric parameters of the handler, each with its fallback. */
  function Scale(q: Query, parse: JsString -> Number): Number { GetNumberParam(Get(q, ScaleParam), parse, 2.0) }
  function BaseRadius(q: Query, parse: JsString -> Number): Number { GetNumberParam(Get(q, RadiusParam), parse, 12.0) }
  function BasePadding(q: Query, parse: JsString -> Number): Number { GetNumberParam(Get(q, PaddingParam), parse, 24.0) }
  function BaseFontSize(q: Query, parse: JsString -> Number): Number { GetNumberParam(Get(q, FontSizeParam), parse, 16.0) }

  /** All four numeric parameters are finite (none parses to Infinity). */
  predicate FiniteParams(q: Query, parse: JsString -> Number)
  {
    Scale(q, parse).Finite? && BaseRadius(q, parse).Finite? &&
    BasePadding(q, parse).Finite? && BaseFontSize(q, parse).Finite?
  }

  /** Lines 122-142 of the handler: the preset width and the three base values,
      scaled. Every quantity is non-negative. */
  function CardDimensions(q: Query, parse: JsString -> Number): (d: Scaled)
    requires FiniteParams(q, parse)
    ensures d.width >= 0.0 && d.padding >= 0.0 && d.radius >= 0.0 && d.fontSize >= 0.0
  {
    var w := ResolveWidth(FullSizes, Get(q, SizeParam));
    FullWidthPositive(Get(q, SizeParam));
    ParamsNonNegative(q, parse);
    var d := ScaleCard(w, BasePadding(q, parse).value, BaseRadius(q, parse).value,
      BaseFontSize(q, parse).value, Scale(q, parse).value);
    d
  }

  lemma ParamsNonNegative(q: Query, parse: JsString -> Number)
    requires FiniteParams(q, parse)
    ensures Scale(q, parse).value >= 0.0 && BaseRadius(q, parse).value >= 0.0
    ensures BasePadding(q, parse).value >= 0.0 && BaseFontSize(q, parse).value >= 0.0
  {
  }

  /** An absent scaleFactor converts to 0, not to its fallback 2 (Number(null) is
      +0), so every scaled quantity is 0. */
  lemma AbsentScaleIsZero(q: Query, parse: JsString -> Number)
    requires FiniteParams(q, parse)
    requires Get(q, ScaleParam).None?
    ensures Scale(q, parse) == Finite(0.0)
    ensures CardDimensions(q, parse) == Scaled(0.0, 0.0, 0.0, 0.0)
  {
  }

  /** What the handler renders: the card box, its texts and flags. */
  datatype Card = Card(
    width: real,
    height: Number,
    padding: real,
    radius: real,
    fontSize: real,
    dateFontSize: int,
    text: JsString,
    backgroundColor: JsString,
    textColor: JsString,
    showAuthorImage: bool,
    showLikeCount: bool)

  /** The height calculateHeight gives a card of its width, padding, font size
      and text: at a positive font size finite and never lower than 150 px at font
      size 16; at font size 0 NaN exactly when the card has no room between its
      paddings and the text is not empty, and otherwise the padding sum rounded up. */
  predicate SizedHeight(c: Card)
  {
    && (c.fontSize > 0.0 ==> c.height.Finite? && c.height.value >= 150.0 * (c.fontSize / 16.0))
    && (c.height.NaN? <==> c.fontSize == 0.0 && c.width == c.padding * 2.0 && c.text != [])
    && (c.fontSize == 0.0 && !c.height.NaN? ==> c.height == Finite(Ceil(c.padding * 2.0) as real))
  }

  /** The card the handler renders for a request: the scaled quantities, the
      normalised text with the height calculateHeight gives it, and the colours
      and flags of the request. */
  function CardFor(q: Query, parse: JsString -> Number, textDisplay: JsString): (c: Card)
    requires FiniteParams(q, parse)
    ensures c.width == CardDimensions(q, parse).width && c.fontSize == CardDimensions(q, parse).fontSize
    ensures c.padding == CardDimensions(q, parse).padding && c.radius == CardDimensions(q, parse).radius
    ensures SizedHeight(c)
    ensures c.text == CardCommentText(textDisplay)
    ensures c.backgroundColor == DisplayFor(q).backgroundColor && c.textColor == DisplayFor(q).textColor
    ensures c.showAuthorImage == DisplayFor(q).showAuthorImage && c.showLikeCount == DisplayFor(q).showLikeCount
  {
    CardWith(CardDimensions(q, parse), CardCommentText(textDisplay), DisplayFor(q))
  }

  /** The colours and display flags of a request (lines 125-129 of the handler). */
  datatype Display = Display(backgroundColor: JsString, textColor: JsString,
                             showAuthorImage: bool, showLikeCount: bool)

  /** The colours fall back to white and black when absent or empty; each flag is
      on unless its parameter is exactly "0". */
  function DisplayFor(q: Query): (o: Display)
    ensures o.backgroundColor == OrDefault(Get(q, BackgroundParam), DefaultBackground)
    ensures o.textColor == OrDefault(Get(q, TextColorParam), DefaultTextColor)
    ensures !o.showAuthorImage <==> Get(q, ShowAuthorParam) == Some([0x30])
    ensures !o.showLikeCount <==> Get(q, ShowLikesParam) == Some([0x30])
  {
    Display(OrDefault(Get(q, BackgroundParam), DefaultBackground), OrDefault(Get(q, TextColorParam), DefaultTextColor),
      ShowFlag(Get(q, ShowAuthorParam)), ShowFlag(Get(q, ShowLikesParam)))
  }

  /** The card for scaled quantities, a normalised text and the display options. */
  function CardWith(d: Scaled, text: JsString, o: Display): (c: Card)
    requires d.fontSize >= 0.0 && d.padding >= 0.0
    requires text != [] ==> !IsWhitespace(text[0])
    ensures c.width == d.width && c.fontSize == d.fontSize && c.padding == d.padding && c.radius == d.radius
    ensures SizedHeight(c)
    ensures c.text == text
    ensures c.backgroundColor == o.backgroundColor && c.textColor == o.textColor
    ensures c.showAuthorImage == o.showAuthorImage && c.showLikeCount == o.showLikeCount
  {
    var height := CardHeight(text, d.width, d.fontSize, d.padding, o.showAuthorImage, o.showLikeCount);
    Card(d.width, height, d.padding, d.radius, d.fontSize, Round(d.fontSize * 0.875), text,
      o.backgroundColor, o.textColor, o.showAuthorImage, o.showLikeCount)
  }

  /** `calculateHeight` of the handler, at line height 1.5, for a text the final
      trim has left without leading whitespace: finite and at least 150 px at font
      size 16 when the font size is positive; at font size 0, NaN exactly when the
      width leaves no room between the paddings and the text is not empty, and
      otherwise the padding sum rounded up. */
  function CardHeight(text: JsString, width: real, fontSize: real, padding: real,
                      showAuthor: bool, showLikes: bool): (h: Number)
    requires fontSize >= 0.0 && padding >= 0.0
    requires text != [] ==> !IsWhitespace(text[0])
    ensures fontSize > 0.0 ==> h.Finite? && h.value >= 150.0 * (fontSize / 16.0)
    ensures h.NaN? <==> fontSize == 0.0 && width == padding * 2.0 && text != []
    ensures fontSize == 0.0 && !h.NaN? ==> h == Finite(Ceil(padding * 2.0) as real)
  {
    if fontSize > 0.0 then Finite(CalculatedHeight(text, width, fontSize, padding, showAuthor, showLikes, 1.5) as real)
    else
      TrimmedHasContent(text);
      ZeroFontHeight(text, width, padding, showAuthor, showLikes, 1.5)
  }

  /** A normalised text has a line with content exactly when it is not empty,
      since the final trim leaves no whitespace at its start. */
  lemma TrimmedHasContent(text: JsString)
    requires text != [] ==> !IsWhitespace(text[0])
    ensures HasContentLine(SplitLines(text)) <==> text != []
  {
    ContentLineIffNotBlank(text);
  }

  /** Without a scaleFactor parameter the card is 0 px wide, and so is the room
      between its paddings: the height is NaN for a text that normalises to
      something, and 0 for one that normalises to nothing. */
  lemma AbsentScaleHeight(q: Query, parse: JsString -> Number, textDisplay: JsString)
    requires FiniteParams(q, parse)
    requires Get(q, ScaleParam).None?
    ensures CardFor(q, parse, textDisplay).width == 0.0
    ensures CardFor(q, parse, textDisplay).height.NaN? <==> CardCommentText(textDisplay) != []
    ensures CardCommentText(textDisplay) == [] ==> CardFor(q, parse, textDisplay).height == Finite(0.0)
  {
    AbsentScaleIsZero(q, parse);
    ZeroSizedHeight(CardFor(q, parse, textDisplay));
  }

  /** A card of width, padding and font size 0 has no room between its paddings. */
  lemma ZeroSizedHeight(c: Card)
    requires SizedHeight(c)
    requires c.width == 0.0 && c.padding == 0.0 && c.fontSize == 0.0
    ensures c.height.NaN? <==> c.text != []
    ensures c.text == [] ==> c.height == Finite(0.0)
  {
    assert Ceil(c.padding * 2.0) == 0;
  }

  /** The GET handler: 400 when the `data` parameter is absent or empty, otherwise
      the card. `textDisplay` is the comment text `data` holds (its JSON decoding
      is not modelled). */
  function HandleGet(q: Query, parse: JsString -> Number, textDisplay: JsString): (r: Result<Card>)
    requires FiniteParams(q, parse)
    ensures r.Failure? <==> Get(q, DataParam).None? || Get(q, DataParam).value == []
    ensures r.Failure? ==> r.status == 400
    ensures r.Success? ==> r.value == CardFor(q, parse, textDisplay)
  {
    var commentData := Get(q, DataParam);
    if commentData.None? || commentData.value == [] then Failure(400)
    else Success(CardFor(q, parse, textDisplay))
  }
}
