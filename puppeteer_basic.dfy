/** The basic puppeteer route: its `generateHTML` at fixed sizes and the fixed
    viewport of its GET handler. */
module PuppeteerBasic {
  import opened Wrappers
  import opened JsText
  import opened JsNumber
  import opened QueryParams
  import opened CardSizes
  import opened HtmlNormalize
  import opened CardMarkup

  /** `generateHTML`: a 16 px card with a 16 px author name, a 14 px grey date
      and footer, and the comment with the avatar and footer as asked. */
  function GenerateHtml(comment: Snippet, width: real, backgroundColor: JsString, textColor: JsString,
                        showAuthorImage: bool, showLikeCount: bool, cardRadius: real, padding: real,
                        dateFormat: JsString, processedText: JsString): (m: Markup)
    ensures ShowsComment(m, comment, showAuthorImage, showLikeCount, processedText)
    ensures m.fontSize == 16.0 && m.authorNameSize == 16.0 && m.dateSize == 14.0 && m.footerSize == 14.0
    ensures m.secondaryColor == Grey && m.likeIconSize.None? && m.footerBorder.None?
    ensures m.width == width && m.padding == padding && m.radius == cardRadius
    ensures m.backgroundColor == backgroundColor && m.textColor == textColor
  {
    Markup(backgroundColor, textColor, 16.0, padding, cardRadius, width,
      if showAuthorImage then Some(comment.authorProfileImageUrl) else None,
      comment.authorDisplayName, 16.0, comment.publishedAt, dateFormat, 14.0,
      Grey, processedText,
      if showLikeCount then Some(comment.likeCount) else None,
      14.0, None, None)
  }

  /** The viewport: at least 1200 px and 100 px more than the card wide, 1200 px
      tall, at twice the pixel density. */
  function CardViewport(width: real): (v: Viewport)
    ensures v.width >= 1200.0 && v.width >= width + 100.0 && (v.width == 1200.0 || v.width == width + 100.0)
    ensures v.height == 1200.0 && v.deviceScaleFactor == 2.0
  {
    Viewport(Max(width + 100.0, 1200.0), 1200.0, 2.0)
  }

  /** Every preset is at most 800 px wide, so the viewport is always the same. */
  lemma ViewportIsFixed(size: Option<JsString>)
    ensures CardViewport(ResolveWidth(BasicSizes, size)) == Viewport(1200.0, 1200.0, 2.0)
  {
    BasicSizesResolve(size);
  }

  /** The numeric parameters of the handler, each with its fallback. */
  function Radius(q: Query, parse: JsString -> Number): Number { GetNumberParam(Get(q, RadiusParam), parse, 12.0) }
  function Padding(q: Query, parse: JsString -> Number): Number { GetNumberParam(Get(q, PaddingParam), parse, 24.0) }

  /** The GET handler up to the browser: 400 when `data` is absent or empty;
      otherwise the page for the normalised comment at the preset width (600 for
      xlarge, which this table lacks) and the fixed viewport. */
  function HandleGet(q: Query, parse: JsString -> Number, comment: Snippet): (r: Result<(Markup, Viewport)>)
    requires Radius(q, parse).Finite? && Padding(q, parse).Finite?
    ensures r.Failure? <==> Get(q, DataParam).None? || Get(q, DataParam).value == []
    ensures r.Failure? ==> r.status == 400
    ensures r.Success? ==> (
      var (m, v) := r.value;
      m.width == ResolveWidth(BasicSizes, Get(q, SizeParam)) && v == Viewport(1200.0, 1200.0, 2.0) &&
      m.content == PuppeteerText(comment.textDisplay))
  {
    var commentData := Get(q, DataParam);
    if commentData.None? || commentData.value == [] then Failure(400)
    else
      var width := ResolveWidth(BasicSizes, Get(q, SizeParam));
      ViewportIsFixed(Get(q, SizeParam));
      var m := GenerateHtml(comment, width,
        OrDefault(Get(q, BackgroundParam), DefaultBackground), OrDefault(Get(q, TextColorParam), DefaultTextColor),
        ShowFlag(Get(q, ShowAuthorParam)), ShowFlag(Get(q, ShowLikesParam)),
        Radius(q, parse).value, Padding(q, parse).value, OrDefault(Get(q, DateFormatParam), UsFormat),
        PuppeteerText(comment.textDisplay));
      Success((m, CardViewport(width)))
  }

  /** An xlarge request gets the medium card. */
  lemma XLargeIsMedium(q: Query, parse: JsString -> Number, comment: Snippet)
    requires Radius(q, parse).Finite? && Padding(q, parse).Finite?
    requires Get(q, DataParam).Some? && Get(q, DataParam).value != [] && Get(q, SizeParam) == Some(XLarge)
    ensures HandleGet(q, parse, comment).value.0.width == 600.0
  {
    BasicSizesResolve(Get(q, SizeParam));
  }
}
