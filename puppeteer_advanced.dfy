/** The advanced puppeteer route: its `generateHTML` (custom font size and the
    sizes and colours derived from it), the viewport of `generateCardImage`, and
    the parameter handling of its GET handler. */
module PuppeteerAdvanced {
  import opened Wrappers
  import opened JsText
  import opened JsNumber
  import opened QueryParams
  import opened CardSizes
  import opened HtmlNormalize
  import opened CardMarkup

  /** `customFontSize || 16`: a font size of 0 (what an absent parameter
      converts to) means 16. */
  function FontOr16(customFontSize: real): (f: real)
    requires customFontSize >= 0.0
    ensures f > 0.0
    ensures customFontSize == 0.0 ==> f == 16.0
    ensures customFontSize != 0.0 ==> f == customFontSize
  {
    if customFontSize == 0.0 then 16.0 else customFontSize
  }

  /** The author name and the like icon are 1.1 font sizes, rounded. */
  function LargeSize(fontSize: real): int
  {
    Round(fontSize * 1.1)
  }

  /** The date and the footer are 0.875 font sizes, rounded. */
  function SmallSize(fontSize: real): int
  {
    Round(fontSize * 0.875)
  }

  /** Both derived sizes are within half a pixel of their exact value, and grow
      with the font size. */
  lemma DerivedSizes(f: real, g: real)
    requires f <= g
    ensures LargeSize(f) as real - 0.5 <= f * 1.1 < LargeSize(f) as real + 0.5
    ensures SmallSize(f) as real - 0.5 <= f * 0.875 < SmallSize(f) as real + 0.5
    ensures LargeSize(f) <= LargeSize(g) && SmallSize(f) <= SmallSize(g)
    ensures SmallSize(f) <= LargeSize(f) || f < 0.0
  {
    RoundMonotone(f * 1.1, g * 1.1);
    RoundMonotone(f * 0.875, g * 0.875);
    if f >= 0.0 {
      RoundMonotone(f * 0.875, f * 1.1);
    }
  }

  /** At the default 16 px: an 18 px author name and a 14 px date. */
  lemma DefaultDerivedSizes()
    ensures LargeSize(16.0) == 18 && SmallSize(16.0) == 14
  {
  }

  /** The date and footer colour: grey on the default black text, dimmed white otherwise. */
  function SecondaryColor(textColor: JsString): (c: JsString)
    ensures c == Grey <==> textColor == DefaultTextColor
    ensures c == Grey || c == DimWhite
  {
    assert |Grey| != |DimWhite|;
    if textColor == DefaultTextColor then Grey else DimWhite
  }

  /** The footer's top border: faint black on the default black text, faint white otherwise. */
  function FooterBorder(textColor: JsString): (c: JsString)
    ensures c == FaintBlack <==> textColor == DefaultTextColor
  {
    assert FaintBlack[5] != FaintWhite[5];
    if textColor == DefaultTextColor then FaintBlack else FaintWhite
  }

  /** `generateHTML`: the card box at the custom font size (16 when 0), its
      derived sizes and colours, and the comment with the avatar and footer as
      asked. */
  function GenerateHtml(comment: Snippet, width: real, backgroundColor: JsString, textColor: JsString,
                        showAuthorImage: bool, showLikeCount: bool, cardRadius: real, padding: real,
                        dateFormat: JsString, processedText: JsString, customFontSize: real): (m: Markup)
    requires customFontSize >= 0.0
    ensures ShowsComment(m, comment, showAuthorImage, showLikeCount, processedText)
    ensures m.fontSize == FontOr16(customFontSize)
    ensures m.authorNameSize == LargeSize(m.fontSize) as real && m.likeIconSize == Some(LargeSize(m.fontSize) as real)
    ensures m.dateSize == SmallSize(m.fontSize) as real && m.footerSize == SmallSize(m.fontSize) as real
    ensures m.secondaryColor == Grey <==> textColor == DefaultTextColor
    ensures m.footerBorder.Some?
    ensures m.width == width && m.padding == padding && m.radius == cardRadius
    ensures m.backgroundColor == backgroundColor && m.textColor == textColor
  {
    var fontSize := FontOr16(customFontSize);
    Markup(backgroundColor, textColor, fontSize, padding, cardRadius, width,
      if showAuthorImage then Some(comment.authorProfileImageUrl) else None,
      comment.authorDisplayName, LargeSize(fontSize) as real,
      comment.publishedAt, dateFormat, SmallSize(fontSize) as real,
      SecondaryColor(textColor), processedText,
      if showLikeCount then Some(comment.likeCount) else None,
      SmallSize(fontSize) as real, Some(LargeSize(fontSize) as real), Some(FooterBorder(textColor)))
  }

  /** `generateCardImage`'s viewport: 100 px wider than the card, at least 1200
      px and at least 1.5 card widths tall, at the given scale factor. */
  function CardViewport(width: real, scaleFactor: real): (v: Viewport)
    ensures v.width == width + 100.0
    ensures v.height >= 1200.0 && v.height >= width * 1.5 && (v.height == 1200.0 || v.height == width * 1.5)
    ensures v.deviceScaleFactor == scaleFactor
  {
    Viewport(width + 100.0, Max(1200.0, width * 1.5), scaleFactor)
  }

  /** For the presets: 1200 px tall up to large, 1500 px for xlarge. */
  lemma PresetViewports(size: Option<JsString>, scaleFactor: real)
    ensures var v := CardViewport(ResolveWidth(FullSizes, size), scaleFactor);
      v.height == (if ResolveWidth(FullSizes, size) == 1000.0 then 1500.0 else 1200.0)
    ensures CardViewport(ResolveWidth(FullSizes, Some(XLarge)), scaleFactor) == Viewport(1100.0, 1500.0, scaleFactor)
  {
    FullSizesResolve(size);
  }

  /** The numeric parameters of the handler, each with its fallback. */
  function Radius(q: Query, parse: JsString -> Number): Number { GetNumberParam(Get(q, RadiusParam), parse, 12.0) }
  function Padding(q: Query, parse: JsString -> Number): Number { GetNumberParam(Get(q, PaddingParam), parse, 24.0) }
  function CustomFontSize(q: Query, parse: JsString -> Number): Number { GetNumberParam(Get(q, FontSizeParam), parse, 16.0) }
  function ScaleFactor(q: Query, parse: JsString -> Number): Number { GetNumberParam(Get(q, ScaleParam), parse, 2.0) }

  /** All four numeric parameters are finite (none parses to Infinity). */
  predicate FiniteParams(q: Query, parse: JsString -> Number)
  {
    Radius(q, parse).Finite? && Padding(q, parse).Finite? &&
    CustomFontSize(q, parse).Finite? && ScaleFactor(q, parse).Finite?
  }

  /** The GET handler up to the browser: 400 when `data` is absent or empty;
      otherwise the page for the normalised comment at the preset width, and the
      viewport for that width at the requested scale factor. `comment` is what
      `data` holds (its JSON decoding is not modelled). */
  function HandleGet(q: Query, parse: JsString -> Number, comment: Snippet): (r: Result<(Markup, Viewport)>)
    requires FiniteParams(q, parse)
    ensures r.Failure? <==> Get(q, DataParam).None? || Get(q, DataParam).value == []
    ensures r.Failure? ==> r.status == 400
    ensures r.Success? ==> (
      var (m, v) := r.value;
      m.width == ResolveWidth(FullSizes, Get(q, SizeParam)) && v.width == m.width + 100.0 &&
      m.content == PuppeteerText(comment.textDisplay) && v.deviceScaleFactor == ScaleFactor(q, parse).value)
  {
    var commentData := Get(q, DataParam);
    if commentData.None? || commentData.value == [] then Failure(400)
    else
      var width := ResolveWidth(FullSizes, Get(q, SizeParam));
      var m := GenerateHtml(comment, width,
        OrDefault(Get(q, BackgroundParam), DefaultBackground), OrDefault(Get(q, TextColorParam), DefaultTextColor),
        ShowFlag(Get(q, ShowAuthorParam)), ShowFlag(Get(q, ShowLikesParam)),
        Radius(q, parse).value, Padding(q, parse).value, OrDefault(Get(q, DateFormatParam), UsFormat),
        PuppeteerText(comment.textDisplay), CustomFontSize(q, parse).value);
      Success((m, CardViewport(width, ScaleFactor(q, parse).value)))
  }

  /** Without a fontSize parameter the page uses 16 px, with an 18 px author
      name and 14 px date and footer. */
  lemma AbsentFontIs16(q: Query, parse: JsString -> Number, comment: Snippet)
    requires FiniteParams(q, parse) && Get(q, FontSizeParam).None?
    requires Get(q, DataParam).Some? && Get(q, DataParam).value != []
    ensures var m := HandleGet(q, parse, comment).value.0;
      m.fontSize == 16.0 && m.authorNameSize == 18.0 && m.dateSize == 14.0 && m.footerSize == 14.0
  {
    DefaultDerivedSizes();
  }

  /** Without a scaleFactor parameter the device scale factor is 0, not the
      fallback 2: the absent parameter converts to 0. */
  lemma AbsentScaleFactorIsZero(q: Query, parse: JsString -> Number, comment: Snippet)
    requires FiniteParams(q, parse) && Get(q, ScaleParam).None?
    requires Get(q, DataParam).Some? && Get(q, DataParam).value != []
    ensures HandleGet(q, parse, comment).value.1.deviceScaleFactor == 0.0
  {
  }
}
