/** The comment-youtube route: parameter defaults, the size guard and the
    auto-size / aspect-ratio composition of its GET handler. The handler as
    written refers to names it never declares (`scale`, `baseFontSize`,
    `basePadding`, `baseCardRadius`, `fontSizes`) and declares `cardRadius` and
    `padding` twice; here the scale factor and the comment font size are
    explicit arguments, and the padding and radius parameters stand for the
    undeclared base values. */
module CommentYouTube {
  import opened Wrappers
  import opened JsText
  import opened JsNumber
  import opened QueryParams
  import opened HtmlNormalize
  import opened TextHeight
  import opened CardStyle

  /** `verticalAlign`: the parameter when it is start, center or end, otherwise center. */
  function ResolveVerticalAlign(param: Option<JsString>): (a: JsString)
    ensures a == Start || a == Center || a == End
    ensures param.Some? && (param.value == Start || param.value == Center || param.value == End) ==> a == param.value
    ensures param.None? || !(param.value == Start || param.value == Center || param.value == End) ==> a == Center
  {
    var v := OrDefault(param, Center);
    if v == Start || v == Center || v == End then v else Center
  }

  /** The request parameters after their defaults. */
  datatype Params = Params(
    autoSize: bool,
    baseWidth: Number,
    baseHeight: Number,
    aspectRatio: Number,
    padding: Number,
    cardRadius: Number,
    showAuthorImage: bool,
    showLikeCount: bool,
    verticalAlign: JsString,
    backgroundColor: JsString,
    textColor: JsString)

  /** The parameter block at the top of the handler. Auto-size is on only for
      exactly "1", the avatar and like count are shown unless exactly "0", the
      alignment is always one of the three, and no number is NaN or negative. */
  function ParamsOf(q: Query, parse: JsString -> Number): (p: Params)
    ensures p.autoSize <==> Get(q, AutoSizeParam) == Some([0x31])
    ensures !p.showAuthorImage <==> Get(q, ShowAuthorParam) == Some([0x30])
    ensures !p.showLikeCount <==> Get(q, ShowLikesParam) == Some([0x30])
    ensures p.verticalAlign == Start || p.verticalAlign == Center || p.verticalAlign == End
    ensures p.backgroundColor != [] && p.textColor != []
    ensures !p.baseWidth.NaN? && !IsNegative(p.baseWidth) && !p.baseHeight.NaN? && !IsNegative(p.baseHeight)
    ensures !p.aspectRatio.NaN? && !IsNegative(p.aspectRatio) && !p.padding.NaN? && !IsNegative(p.padding)
  {
    Params(
      IsOne(Get(q, AutoSizeParam)),
      GetNumberParam(Get(q, WidthParam), parse, 600.0),
      GetNumberParam(Get(q, HeightParam), parse, 400.0),
      GetNumberParam(Get(q, AspectParam), parse, 0.0),
      GetNumberParam(Get(q, PaddingParam), parse, 20.0),
      GetNumberParam(Get(q, RadiusParam), parse, 8.0),
      ShowFlag(Get(q, ShowAuthorParam)),
      ShowFlag(Get(q, ShowLikesParam)),
      ResolveVerticalAlign(Get(q, VerticalAlignParam)),
      OrDefault(Get(q, BackgroundParam), White),
      OrDefault(Get(q, TextColorParam), Black))
  }

  /** An absent width, height or aspect ratio parameter is 0, not its fallback. */
  lemma AbsentSizeIsZero(q: Query, parse: JsString -> Number)
    ensures Get(q, WidthParam).None? ==> ParamsOf(q, parse).baseWidth == Finite(0.0)
    ensures Get(q, HeightParam).None? ==> ParamsOf(q, parse).baseHeight == Finite(0.0)
    ensures Get(q, AspectParam).None? ==> ParamsOf(q, parse).aspectRatio == Finite(0.0)
  {
  }

  /** The size-related values after scaling. */
  datatype Scaled = Scaled(width: Number, height: Number, padding: real, cardRadius: real)

  /** "Apply scale to all size-related properties": the width and height keep
      their kind (an infinite parameter stays infinite), the padding and radius
      are finite here. */
  function ScaleParams(p: Params, scale: real): (s: Scaled)
    requires scale > 0.0 && p.padding.Finite? && p.cardRadius.Finite?
    requires !p.baseWidth.NaN? && !p.baseWidth.NegInfinity? && !p.baseHeight.NaN? && !p.baseHeight.NegInfinity?
    ensures s.width.Finite? <==> p.baseWidth.Finite?
    ensures s.height.Finite? <==> p.baseHeight.Finite?
    ensures s.width.Finite? || s.width.PosInfinity?
    ensures s.height.Finite? || s.height.PosInfinity?
  {
    Scaled(Times(p.baseWidth, scale), Times(p.baseHeight, scale), p.padding.value * scale, p.cardRadius.value * scale)
  }

  /** The guard: without auto-size, both scaled dimensions must be finite and positive. */
  predicate IsInvalidSize(autoSize: bool, width: Number, height: Number)
    ensures autoSize ==> !IsInvalidSize(autoSize, width, height)
    ensures !IsInvalidSize(autoSize, width, height) && !autoSize ==>
      width.Finite? && width.value > 0.0 && height.Finite? && height.value > 0.0
  {
    !autoSize && (!width.Finite? || !height.Finite? || width.value <= 0.0 || height.value <= 0.0)
  }

  /** A fixed-size request without a width is rejected: the width converts to 0. */
  lemma AbsentWidthRejected(q: Query, parse: JsString -> Number, scale: real)
    requires scale > 0.0 && ParamsOf(q, parse).padding.Finite? && ParamsOf(q, parse).cardRadius.Finite?
    requires !ParamsOf(q, parse).autoSize && Get(q, WidthParam).None?
    ensures var s := ScaleParams(ParamsOf(q, parse), scale);
      IsInvalidSize(false, s.width, s.height)
  {
    AbsentSizeIsZero(q, parse);
  }

  /** The content's minimum height: header (60 or 45), the text, the like count
      (45 or none), padding on both sides and a 60 buffer, all in scaled units,
      and at least 150 scaled units; infinite with an infinite text estimate. */
  function MinContentHeight(showAuthorImage: bool, showLikeCount: bool, textHeight: Number,
                            padding: real, scale: real): (m: Number)
    requires textHeight.Finite? || textHeight.PosInfinity?
    ensures m.Finite? || m.PosInfinity?
    ensures m.Finite? <==> textHeight.Finite?
    ensures m.Finite? ==> m.value >= 150.0 * scale
    ensures m.Finite? ==> (m.value >= (if showAuthorImage then 60.0 * scale else 45.0 * scale) + textHeight.value +
      (if showLikeCount then 45.0 * scale else 0.0) + padding * 2.0 + 60.0 * scale)
  {
    var header := if showAuthorImage then 60.0 * scale else 45.0 * scale;
    var likes := if showLikeCount then 45.0 * scale else 0.0;
    MaxWith(Plus(textHeight, header + likes + padding * 2.0 + 60.0 * scale), 150.0 * scale)
  }

  /** The final card dimensions. */
  datatype Dims = Dims(width: Number, height: Number)

  /** The composition after the guard, for the scaled width (finite here), the
      scaled height, the scaled padding and the text estimate at the width the
      mode uses: in auto-size mode the width is raised to 400 and the height is
      the content's minimum, raised to width / aspect when an aspect ratio is
      given; in fixed mode with an aspect ratio the height is width / aspect,
      raised to the content's minimum; otherwise the size is kept; both are
      rounded. */
  function Compose(p: Params, scale: real, width: real, height: Number, padding: real, est: Number): (d: Dims)
    requires p.aspectRatio.Finite? && (height.Finite? || height.PosInfinity?)
    requires est.Finite? || est.PosInfinity?
    ensures d.width.Finite? && d.width.value == d.width.value.Floor as real
    ensures p.autoSize ==> d.width.value >= 400.0
    ensures !p.autoSize ==> d.width.value == Round(width) as real
    ensures d.height.Finite? || d.height.PosInfinity?
    ensures d.height.Finite? ==> d.height.value == d.height.value.Floor as real
  {
    var minContent := MinContentHeight(p.showAuthorImage, p.showLikeCount, est, padding, scale);
    var aspect := p.aspectRatio.value;
    if p.autoSize then
      var finalWidth := Max(width, 400.0);
      var finalHeight := if aspect > 0.0 then MaxWith(minContent, finalWidth / aspect) else minContent;
      Dims(RoundNumber(Finite(finalWidth)), RoundNumber(finalHeight))
    else if aspect > 0.0 then
      Dims(RoundNumber(Finite(width)), RoundNumber(MaxWith(minContent, width / aspect)))
    else
      Dims(RoundNumber(Finite(width)), RoundNumber(height))
  }

  /** What the size composition needs: a positive scale and font size, a finite
      aspect ratio, and in auto-size mode a finite width (an infinite one comes
      from "Infinity" or from a numeral too large for a double, such as "1e309"). */
  predicate Composable(p: Params, s: Scaled, scale: real, fontSize: real)
  {
    scale > 0.0 && fontSize > 0.0 && p.aspectRatio.Finite? &&
    (s.width.Finite? || s.width.PosInfinity?) && (s.height.Finite? || s.height.PosInfinity?) &&
    (p.autoSize ==> s.width.Finite?)
  }

  /** The width the text estimate is taken at: the final width in auto-size
      mode, the scaled width otherwise. */
  function EstimateWidth(p: Params, width: real): real
  {
    if p.autoSize then Max(width, 400.0) else width
  }

  /** The size part of the handler: 400 exactly for an invalid fixed size,
      otherwise the composition with the text estimate of the normalised
      comment. */
  function SizeFor(textDisplay: JsString, p: Params, s: Scaled, scale: real, fontSize: real): (r: Result<Dims>)
    requires Composable(p, s, scale, fontSize)
    ensures r.Failure? <==> IsInvalidSize(p.autoSize, s.width, s.height)
    ensures r.Failure? ==> r.status == 400
  {
    if IsInvalidSize(p.autoSize, s.width, s.height) then Failure(400)
    else
      var est := TextHeightEstimate(YouTubeText(textDisplay), EstimateWidth(p, s.width.value), fontSize, s.padding);
      Success(Compose(p, scale, s.width.value, s.height, s.padding, est))
  }

  /** The handler's size composition, reassigning the final width and height
      branch by branch as the source does. */
  method ComposeSize(textDisplay: JsString, p: Params, s: Scaled, scale: real, fontSize: real) returns (r: Result<Dims>)
    requires Composable(p, s, scale, fontSize)
    ensures r == SizeFor(textDisplay, p, s, scale, fontSize)
  {
    var width := s.width;
    var height := s.height;
    var padding := s.padding;
    var aspectRatio := p.aspectRatio.value;
    if IsInvalidSize(p.autoSize, width, height) {
      return Failure(400);
    }
    var finalWidth := width;
    var finalHeight := height;
    if p.autoSize {
      finalWidth := Finite(Max(width.value, 400.0));
      var processedTextForHeight := YouTubeText(textDisplay);
      var estimatedTextHeight := EstimateTextHeight(processedTextForHeight, finalWidth.value, fontSize, padding);
      var minContentHeight := MinContentHeight(p.showAuthorImage, p.showLikeCount, estimatedTextHeight, padding, scale);
      if aspectRatio > 0.0 {
        finalHeight := MaxWith(minContentHeight, finalWidth.value / aspectRatio);
      } else {
        finalHeight := minContentHeight;
      }
    } else if aspectRatio > 0.0 {
      var processedTextForHeight := YouTubeText(textDisplay);
      var estimatedTextHeight := EstimateTextHeight(processedTextForHeight, width.value, fontSize, padding);
      var minContentHeight := MinContentHeight(p.showAuthorImage, p.showLikeCount, estimatedTextHeight, padding, scale);
      finalHeight := MaxWith(minContentHeight, width.value / aspectRatio);
      finalWidth := width;
    }
    r := Success(Dims(RoundNumber(finalWidth), RoundNumber(finalHeight)));
  }

  // ---------------------------------------------------------------------------
  // What the composition promises

  /** "Never crop content": in auto-size mode and with an aspect ratio, a finite
      text estimate gives a finite height of at least the rounded content
      minimum, and so of at least 150 scaled units, rounded. */
  lemma ContentNeverCropped(p: Params, scale: real, width: real, height: Number, padding: real, est: Number)
    requires p.aspectRatio.Finite? && (height.Finite? || height.PosInfinity?) && est.Finite?
    requires p.autoSize || p.aspectRatio.value > 0.0
    ensures var d := Compose(p, scale, width, height, padding, est);
      var m := MinContentHeight(p.showAuthorImage, p.showLikeCount, est, padding, scale);
      d.height.Finite? && d.height.value >= Round(m.value) as real && d.height.value >= Round(150.0 * scale) as real
  {
    var m := MinContentHeight(p.showAuthorImage, p.showLikeCount, est, padding, scale);
    var d := Compose(p, scale, width, height, padding, est);
    var h := if p.autoSize && p.aspectRatio.value <= 0.0 then m
      else MaxWith(m, EstimateWidth(p, width) / p.aspectRatio.value);
    assert d.height == RoundNumber(h);
    RoundMonotone(m.value, h.value);
    RoundMonotone(150.0 * scale, m.value);
  }

  /** With an aspect ratio, the height is at least the rounded width / aspect. */
  lemma AspectRespected(p: Params, scale: real, width: real, height: Number, padding: real, est: Number)
    requires p.aspectRatio.Finite? && p.aspectRatio.value > 0.0 && (height.Finite? || height.PosInfinity?) && est.Finite?
    ensures var d := Compose(p, scale, width, height, padding, est);
      d.height.Finite? && d.height.value >= Round(EstimateWidth(p, width) / p.aspectRatio.value) as real
  {
    var m := MinContentHeight(p.showAuthorImage, p.showLikeCount, est, padding, scale);
    var x := EstimateWidth(p, width) / p.aspectRatio.value;
    var h := MaxWith(m, x);
    assert Compose(p, scale, width, height, padding, est).height == RoundNumber(h);
    RoundMonotone(x, h.value);
  }

  /** An unbounded text estimate makes the height unbounded wherever the content
      decides it. */
  lemma UnboundedEstimateUnboundedHeight(p: Params, scale: real, width: real, height: Number, padding: real, est: Number)
    requires p.aspectRatio.Finite? && (height.Finite? || height.PosInfinity?) && est.PosInfinity?
    requires p.autoSize || p.aspectRatio.value > 0.0
    ensures Compose(p, scale, width, height, padding, est).height.PosInfinity?
  {
  }

  /** Auto-size mode keeps the width, raised to 400 and rounded; without an
      aspect ratio the height is exactly the rounded content minimum. */
  lemma AutoSizeWidth(p: Params, scale: real, width: real, height: Number, padding: real, est: Number)
    requires p.aspectRatio.Finite? && (height.Finite? || height.PosInfinity?) && (est.Finite? || est.PosInfinity?)
    requires p.autoSize
    ensures var d := Compose(p, scale, width, height, padding, est);
      d.width == Finite(Round(Max(width, 400.0)) as real) && d.width.value >= 400.0
    ensures p.aspectRatio.value <= 0.0 ==>
      Compose(p, scale, width, height, padding, est).height == RoundNumber(MinContentHeight(p.showAuthorImage, p.showLikeCount, est, padding, scale))
  {
    RoundMonotone(400.0, Max(width, 400.0));
  }

  /** Fixed mode without an aspect ratio: the requested size, rounded. */
  lemma FixedSizeKept(p: Params, scale: real, width: real, height: Number, padding: real, est: Number)
    requires p.aspectRatio.Finite? && height.Finite? && (est.Finite? || est.PosInfinity?)
    requires !p.autoSize && p.aspectRatio.value <= 0.0
    ensures Compose(p, scale, width, height, padding, est) == Dims(Finite(Round(width) as real), Finite(Round(height.value) as real))
  {
  }

  /** A normalised comment with a non-blank line and no room for a single
      character per line (the width at most twice the padding plus 0.55 font
      sizes) gets an infinite height in auto-size mode. */
  lemma NarrowAutoCardUnbounded(text: JsString, p: Params, scale: real, width: real, height: Number,
                                padding: real, fontSize: real)
    requires p.aspectRatio.Finite? && (height.Finite? || height.PosInfinity?) && fontSize > 0.0 && p.autoSize
    requires UnguardedCharsPerLine(Max(width, 400.0), fontSize, padding) == 0
    requires HasContentLine(SplitLines(text))
    ensures Compose(p, scale, width, height, padding, TextHeightEstimate(text, EstimateWidth(p, width), fontSize, padding)).height.PosInfinity?
  {
    NoRoomIsInfinite(text, EstimateWidth(p, width), fontSize, padding);
    UnboundedEstimateUnboundedHeight(p, scale, width, height, padding, TextHeightEstimate(text, EstimateWidth(p, width), fontSize, padding));
  }

  /** The handler's image is never shorter than 150 scaled units, rounded, when
      the content decides its height and the estimate is finite. */
  lemma SizeForAtLeastFloor(textDisplay: JsString, p: Params, s: Scaled, scale: real, fontSize: real)
    requires Composable(p, s, scale, fontSize) && !IsInvalidSize(p.autoSize, s.width, s.height)
    requires p.autoSize || p.aspectRatio.value > 0.0
    requires TextHeightEstimate(YouTubeText(textDisplay), EstimateWidth(p, s.width.value), fontSize, s.padding).Finite?
    ensures SizeFor(textDisplay, p, s, scale, fontSize).Success?
    ensures SizeFor(textDisplay, p, s, scale, fontSize).value.height.Finite?
    ensures SizeFor(textDisplay, p, s, scale, fontSize).value.height.value >= Round(150.0 * scale) as real
  {
    var est := TextHeightEstimate(YouTubeText(textDisplay), EstimateWidth(p, s.width.value), fontSize, s.padding);
    ContentNeverCropped(p, scale, s.width.value, s.height, s.padding, est);
  }

  // ---------------------------------------------------------------------------
  // The card style

  /** The options the handler passes to sharedCardStyle: the final size, the
      scaled padding and radius, the comment font size, the resolved alignment. */
  function StyleOptionsFor(p: Params, s: Scaled, d: Dims, fontSize: real): (o: StyleOptions)
    requires d.width.Finite? && d.height.Finite?
    ensures o.width == Some(d.width.value) && o.height == Some(d.height.value)
    ensures o.padding == Some(s.padding) && o.borderRadius == Some(s.cardRadius) && o.fontSize == Some(fontSize)
    ensures o.backgroundColor == Some(p.backgroundColor) && o.textColor == Some(p.textColor)
    ensures o.verticalAlign == Some(p.verticalAlign)
  {
    StyleOptions(Some(p.backgroundColor), Some(p.textColor), Some(SystemFonts), Some(Bold), Some(fontSize),
      Some(s.padding), Some(s.cardRadius), Some(d.width.value), Some(d.height.value), Some(p.verticalAlign))
  }

  /** The card is always as tall as the image and always aligns its content:
      the resolved alignment is one sharedCardStyle maps. */
  lemma CardStyleAligned(q: Query, parse: JsString -> Number, sc: Scaled, d: Dims, fontSize: real)
    requires d.width.Finite? && d.height.Finite?
    ensures var s := SharedCardStyle(StyleOptionsFor(ParamsOf(q, parse), sc, d, fontSize));
      s.height == Some(Px(d.height.value)) && s.width == Px(d.width.value) &&
      s.justifyContent == Justify(ParamsOf(q, parse).verticalAlign) && s.justifyContent.Some?
  {
  }
}
