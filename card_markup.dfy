/** What the two puppeteer routes put into their HTML template: the comment's
    fields, the card box and the sizes and colours the template interpolates.
    The template text itself (tags, CSS) is not modelled, only what varies. */
module CardMarkup {
  import opened Wrappers
  import opened JsText

  /** The `comment.snippet` fields the template reads. */
  datatype Snippet = Snippet(
    authorProfileImageUrl: JsString,
    authorDisplayName: JsString,
    publishedAt: JsString,
    textDisplay: JsString,
    likeCount: int)

  /** The interpolated parts of the page. `avatar` is the `<img>` source when
      the image is shown, `likes` the like count when the footer is shown,
      `footerBorder` the footer's top border colour when the template sets one;
      the date is `formatDate(publishedAt, dateFormat)`. */
  datatype Markup = Markup(
    backgroundColor: JsString,
    textColor: JsString,
    fontSize: real,
    padding: real,
    radius: real,
    width: real,
    avatar: Option<JsString>,
    authorName: JsString,
    authorNameSize: real,
    publishedAt: JsString,
    dateFormat: JsString,
    dateSize: real,
    secondaryColor: JsString,
    content: JsString,
    likes: Option<int>,
    footerSize: real,
    likeIconSize: Option<real>,
    footerBorder: Option<JsString>)

  /** What the page shows of the comment: the avatar exactly when asked for, the
      footer exactly when asked for, and the text as given, unescaped. */
  predicate ShowsComment(m: Markup, c: Snippet, showAuthorImage: bool, showLikeCount: bool, text: JsString)
  {
    (m.avatar.Some? <==> showAuthorImage) && (showAuthorImage ==> m.avatar.value == c.authorProfileImageUrl) &&
    (m.likes.Some? <==> showLikeCount) && (showLikeCount ==> m.likes.value == c.likeCount) &&
    m.authorName == c.authorDisplayName && m.publishedAt == c.publishedAt && m.content == text
  }

  /** The browser viewport, in CSS pixels, and its device scale factor. */
  datatype Viewport = Viewport(width: real, height: real, deviceScaleFactor: real)

  const Grey: JsString := [HASH, 0x36, 0x36, 0x36]  // "#666"
  const DimWhite: JsString := [0x72, 0x67, 0x62, 0x61, 0x28, 0x32, 0x35, 0x35, 0x2C, 0x20, 0x32, 0x35, 0x35, 0x2C, 0x20, 0x32, 0x35, 0x35, 0x2C, 0x20, 0x30, 0x2E, 0x37, 0x29]
    // "rgba(255, 255, 255, 0.7)"
  const FaintBlack: JsString := [0x72, 0x67, 0x62, 0x61, 0x28, 0x30, 0x2C, 0x20, 0x30, 0x2C, 0x20, 0x30, 0x2C, 0x20, 0x30, 0x2E, 0x31, 0x29]
    // "rgba(0, 0, 0, 0.1)"
  const FaintWhite: JsString := [0x72, 0x67, 0x62, 0x61, 0x28, 0x32, 0x35, 0x35, 0x2C, 0x20, 0x32, 0x35, 0x35, 0x2C, 0x20, 0x32, 0x35, 0x35, 0x2C, 0x20, 0x30, 0x2E, 0x31, 0x29]
    // "rgba(255, 255, 255, 0.1)"
  const UsFormat: JsString := [0x75, 0x73]  // "us"
}
