# youtubecommentcard: a Dafny model of the card routes

youtubecommentcard turns a YouTube comment into a card image. Four HTTP routes
do the work:

- `card-comment` renders with `ImageResponse`.
- `comment-youtube` renders with `ImageResponse`, auto-sizing the card and
  aligning its content.
- `card-comment-puppeteer` and `card-comment-puppeteer-advanced` fill an HTML
  template and screenshot it in a headless browser.

Two helpers in `src/lib` sit beside the routes: the shared card style and the
comment-link parser.

This project models, in Dafny, the logic these files compute:

- **Text normalisation.** Each route turns the comment's HTML-ish
  `textDisplay` into plain text with line feeds. It runs a chain of regular
  expression passes, each modelled as `ReplaceAll` over UTF-16 code units
  (`JsText`, `HtmlPasses`). There are three pipelines (`HtmlNormalize`):
  - the staged one (tags, whitespace, numeric references, named references,
    trim) over the card-comment entity table;
  - the same pipeline over the puppeteer table, whose dashes are three-character
    mojibake strings;
  - the comment-youtube one, which trims first and then decodes both reference
    kinds in one pass, with Unicode quotes.
- **Height estimates** (`TextHeight`, `CardStyle`): `calculateHeight`, with a
  loop, a 150 px floor and a ceiling; the unguarded `estimateTextHeight`, with
  a loop; and `calculateContentHeight`, with no wrapping.
- **Parameter handling and card composition:**
  - how query parameters are read (`QueryParams`) and the size presets
    (`CardSizes`);
  - the scaling and sizing of each handler (`CardComment`, `CommentYouTube`,
    `PuppeteerBasic`, `PuppeteerAdvanced`);
  - the template holes of both `generateHTML` functions (`CardMarkup`), the
    browser viewports and `sharedCardStyle`.
- **Comment links** (`YouTubeUrl`): `extractCommentId` and
  `validateYouTubeUrl` over an abstract URL parser.

Loops in the source (`calculateHeight`, `estimateTextHeight`, the branch-by-branch
reassignment of `finalWidth`/`finalHeight`) are methods proved equal to the
specification functions that the lemmas reason about.

Numbers are exact reals, plus a `Number` datatype that adds NaN and the
infinities where a route's result depends on them. `Number(null)` is +0
(section 7.1.4 of ECMA-262), so an absent numeric parameter reaches
`getNumberParam` as 0 and keeps it: the fallback is used only for NaN or a
negative value. The model follows the code here, with these consequences:

- Without a `scaleFactor`, card-comment renders a 0 px card at font size 0.
  Its `calculateHeight` is NaN when the normalised text is not empty, because
  each line with content divides its length by a NaN character count. It is 0
  when the text normalises to nothing: the one blank line adds a row, and every
  other height term is 0.
- The advanced puppeteer route gets font size 16 through `customFontSize || 16`,
  but device scale factor 0.
- comment-youtube rejects a fixed-size request that has no `width`.

Named character references match `&([a-z]+);` with the `i` flag, so only the 52
ASCII letters are name characters. Entity names are looked up after ASCII
lower-casing. `String.fromCharCode` keeps the code unit modulo 2^16 (section
22.1.2.1 of ECMA-262).

The comment-youtube `GET` handler does not compile as written:

- It uses `scale`, `baseFontSize`, `basePadding`, `baseCardRadius` and
  `fontSizes`, none of which it declares.
- It declares `cardRadius` and `padding` twice.

Its composition is therefore modelled over explicit arguments: the scale factor,
the comment font size, and the padding and radius parameters standing for the
undeclared base values.

## Model

| member | source | states |
|---|---|---|
| QueryParams.Get | src/app/api/card-comment/route.tsx:113 | `searchParams.get` is absent exactly when no pair has the name; otherwise it is the value of the first pair with that name |
| QueryParams.Has | src/lib/utils/youtube.ts:26 | `has(name)` holds exactly when `get(name)` finds a value |
| QueryParams.GetNumberParam | src/app/api/card-comment/route.tsx:16-19 | the fallback is returned exactly when the converted parameter is NaN or negative, and the converted number otherwise; with a non-negative fallback the result is never NaN or negative; an absent parameter gives 0 |
| QueryParams.ShowFlag | src/app/api/card-comment/route.tsx:128-129 | a display flag is off exactly when the parameter is the string "0" |
| QueryParams.IsOne | src/app/api/comment-youtube/route.tsx:120 | auto-size is on exactly when the parameter is the string "1" |
| QueryParams.OrDefault | src/app/api/card-comment/route.tsx:125-127 | an absent or empty parameter takes the default, any other value is kept; a non-empty default gives a non-empty result |
| CardSizes.ResolveWidth | src/app/api/card-comment/route.tsx:122-124 | a known preset name gives its width; an absent, empty or unknown name gives the medium width |
| CardSizes.FullSizesResolve | src/app/api/card-comment/route.tsx:7-12 | small, medium, large and xlarge give 400, 600, 800 and 1000; any other name gives 600 |
| CardSizes.BasicSizesResolve | src/app/api/card-comment-puppeteer/route.ts:5-9 | small, medium and large give 400, 600 and 800; xlarge, which this table lacks, gives 600 like any unknown name |
| CardSizes.FullWidthPositive | src/app/api/card-comment/route.tsx:124 | every width the full table resolves to is positive |
| CardSizes.BasicWidthPositive | src/app/api/card-comment-puppeteer/route.ts:217 | every width the basic table resolves to is positive |
| CardComment.DoublingScaleDoubles | src/app/api/card-comment/route.tsx:139-142 | doubling the scale factor doubles the width, padding, corner radius and font size |
| CardComment.CardDimensions | src/app/api/card-comment/route.tsx:122-142 | the preset width and the three base values, each times the scale factor, are all non-negative |
| CardComment.ParamsNonNegative | src/app/api/card-comment/route.tsx:123-136 | with finite conversions, the scale factor and the three base values read through `getNumberParam` are never negative |
| CardComment.ScaleCard | src/app/api/card-comment/route.tsx:139-142 | scaling non-negative base values by a non-negative factor gives non-negative width, padding, radius and font size; a zero factor makes all four 0 |
| CardComment.AbsentScaleIsZero | src/app/api/card-comment/route.tsx:123 | without a `scaleFactor` parameter the scale is 0, not 2, and every scaled quantity is 0 |
| CardComment.CardFor | src/app/api/card-comment/route.tsx:122-153 | the card carries the scaled sizes, the card-comment normalisation of the text, and the colours and flags of the request; at a positive font size its height is finite and at least 150 px at font size 16; at font size 0 the height is NaN exactly when the width equals twice the padding and the text is not empty, and otherwise the padding sum rounded up |
| CardComment.DisplayFor | src/app/api/card-comment/route.tsx:125-129 | each colour is its parameter, or the default when that is absent or empty; each flag is off exactly when its parameter is the string "0" |
| CardComment.CardWith | src/app/api/card-comment/route.tsx:139-153 | the card keeps the sizes, text, colours and flags it is given; its height is finite and at least 150 px at font size 16 for a positive font size, and at font size 0 NaN exactly when there is no room between the paddings and the text is not empty, otherwise the padding sum rounded up |
| CardComment.CardHeight | src/app/api/card-comment/route.tsx:146-153 | for a text with no leading whitespace: the same three cases for `calculateHeight` at line height 1.5 |
| CardComment.TrimmedHasContent | src/app/api/card-comment/route.tsx:76-79 | a text with no leading whitespace has a line with content exactly when it is not empty |
| CardComment.AbsentScaleHeight | src/app/api/card-comment/route.tsx:123-153 | without a `scaleFactor` parameter the card is 0 px wide; its height is NaN exactly when the normalised text is not empty, and 0 when it is empty |
| CardComment.ZeroSizedHeight | src/app/api/card-comment/route.tsx:71-107 | a card whose width, padding and font size are all 0 has a NaN height exactly when its text is not empty, and a 0 height otherwise |
| CardComment.HandleGet | src/app/api/card-comment/route.tsx:113-117 | status 400 exactly when `data` is absent or empty, otherwise the card for the request |
| JsText.LowerAscii | src/app/api/card-comment/route.tsx:49 | lower-casing keeps the length and maps each ASCII capital to its small letter, leaving other code units as they are |
| JsText.Trim | src/app/api/card-comment/route.tsx:51 | the trimmed text is empty exactly for an all-whitespace text, and otherwise neither starts nor ends with whitespace |
| JsText.TrimSplits | src/app/api/card-comment/route.tsx:51 | the text is its leading whitespace, the trimmed text, then whitespace only |
| JsText.TrimSurrounded | src/app/api/card-comment/route.tsx:51 | trimming removes exactly the whitespace wrapped around a text that starts and ends with non-whitespace |
| JsText.SplitLinesSpec | src/app/api/card-comment/route.tsx:76 | `split("\n")` yields one more line than there are line feeds, no line holds a line feed, and joining the lines with line feeds gives the text back |
| JsText.SplitLines | src/app/api/card-comment/route.tsx:76 | `split("\n")` always yields at least one line |
| JsText.SplitSingleLine | src/app/api/card-comment/route.tsx:76 | a text without line feeds is one line |
| JsText.TrimUnchanged | src/app/api/card-comment/route.tsx:51 | a text that neither starts nor ends with whitespace is its own trim |
| HtmlPasses.NumericRefLen | src/app/api/card-comment/route.tsx:32 | a numeric-reference match is `&#`, at least one ASCII digit, then `;` |
| HtmlPasses.NamedRefLen | src/app/api/card-comment/route.tsx:33 | a named-reference match is `&`, at least one ASCII letter of either case, then `;` |
| HtmlPasses.FromCharCode | src/app/api/card-comment/route.tsx:32 | `String.fromCharCode(n)` is the code unit n modulo 2^16 |
| HtmlPasses.ReplaceAll | src/app/api/card-comment/route.tsx:23-33 | a global replace never lengthens the text when no replacement is longer than its match: true of every tag, whitespace and numeric pass, and of a reference pass over a table whose entries are at most three code units |
| HtmlPasses.ReplacementNoLonger | src/app/api/card-comment/route.tsx:23-33 | under that condition, each single replacement is no longer than its match |
| HtmlPasses.NamedValue | src/app/api/card-comment/route.tsx:49 | a named reference becomes the reference as written, or a non-empty entry of the table |
| HtmlPasses.MatchLen | src/app/api/card-comment/route.tsx:23-33 | a match never runs past the text and always starts at the pattern's lead code unit (`<` for tags, `&` for references, a line feed or blank for whitespace) |
| HtmlPasses.FirstUnit | src/app/api/card-comment/route.tsx:23-33 | where no match starts, a pass keeps the first code unit |
| HtmlPasses.NoLeadUnchanged | src/app/api/card-comment/route.tsx:23-33 | a pass changes nothing in a text where no match can start |
| HtmlPassFacts.AnyTagLeavesNoTag | src/app/api/card-comment/route.tsx:29 | after the catch-all tag pass no `>` follows a `<` anywhere |
| HtmlPassFacts.LineFeedRunLeavesNoTriple | src/app/api/card-comment/route.tsx:30 | after the run pass no three line feeds are adjacent |
| HtmlPassFacts.LineFeedRunUnchanged | src/app/api/card-comment/route.tsx:30 | the run pass changes nothing in a text without three adjacent line feeds |
| HtmlPassFacts.PaddingLeavesNoBlank | src/app/api/card-comment/route.tsx:31 | after the padding pass no space or tab is next to a line feed |
| HtmlPassFacts.PaddingUnchanged | src/app/api/card-comment/route.tsx:31 | the padding pass changes nothing in a text with no space or tab next to a line feed |
| HtmlPassFacts.LineFeedPassIsIdentity | src/app/api/comment-youtube/route.tsx:95 | replacing every line feed by a line feed returns the text unchanged |
| HtmlPassFacts.NumericRefDecodes | src/app/api/card-comment/route.tsx:32 | `&#N;` followed by more text becomes the single code unit N modulo 2^16, and the pass goes on after it |
| HtmlPassFacts.NamedRefDecodes | src/app/api/card-comment/route.tsx:33-49 | `&name;` becomes the table's entry for the lower-cased name, or stays as written when there is none, and the pass goes on after it |
| HtmlPassFacts.AnyRefDecodesNumeric | src/app/api/comment-youtube/route.tsx:44-47 | in the one-pass decoder a numeric reference decodes as in the numeric pass |
| HtmlPassFacts.AnyRefDecodesNamed | src/app/api/comment-youtube/route.tsx:48-63 | in the one-pass decoder a named reference decodes as in the named pass |
| HtmlPassFacts.NamedValueIgnoresCase | src/app/api/card-comment/route.tsx:49 | two names equal up to ASCII case look up the same entry |
| HtmlNormalize.TagStage | src/app/api/card-comment/route.tsx:23-29 | the output of the tag stage holds no `>` after a `<` |
| HtmlNormalize.WhitespaceStage | src/app/api/card-comment/route.tsx:30-31 | the output of the whitespace stage has no space or tab next to a line feed |
| HtmlNormalize.StagedNormalize | src/app/api/card-comment/route.tsx:21-52 | because trimming comes last, the staged normaliser's output neither starts nor ends with whitespace |
| HtmlNormalize.AfterTagsStaged | src/app/api/card-comment/route.tsx:30-51 | from the whitespace stage on, the staged output neither starts nor ends with whitespace |
| HtmlNormalize.NoAmpUnchanged | src/app/api/card-comment/route.tsx:32-33 | a text without `&` passes each reference pass unchanged |
| HtmlNormalize.CleanTextStaged | src/app/api/card-comment/route.tsx:30-51 | from the whitespace stage on, the staged normaliser only trims clean text |
| HtmlNormalize.CleanTextYouTube | src/app/api/comment-youtube/route.tsx:86-90 | from the whitespace stage on, the comment-youtube normaliser only trims clean text |
| HtmlNormalize.CardCommentText | src/app/api/card-comment/route.tsx:21-52 | card-comment's `processHtmlContent` never lengthens the text, and its output neither starts nor ends with whitespace |
| HtmlNormalize.PuppeteerText | src/app/api/card-comment-puppeteer/route.ts:18-49 | the puppeteer routes' `processHtmlContent` never lengthens the text (each three-unit mojibake dash is no longer than `&mdash;`), and its output neither starts nor ends with whitespace |
| HtmlNormalize.YouTubeText | src/app/api/comment-youtube/route.tsx:67-91 | comment-youtube's `processHtmlContent` never lengthens the text |
| HtmlNormalize.AfterTagsYouTube | src/app/api/comment-youtube/route.tsx:86-90 | from the whitespace stage on, the comment-youtube normaliser never lengthens the text |
| HtmlNormalize.TablesShort | src/app/api/card-comment/route.tsx:34-48 | every entry of the three entity tables is at most three code units |
| HtmlNormalize.StagedNoLonger | src/app/api/card-comment/route.tsx:21-52 | over a table of entries of at most three code units, the staged normaliser never lengthens the text |
| HtmlNormalize.DecodeHtmlEntities | src/app/api/comment-youtube/route.tsx:43-65 | a text without `&` is returned unchanged, and no text is lengthened |
| HtmlNormalize.RenderTextWithLineBreaks | src/app/api/comment-youtube/route.tsx:93-96 | the result is the text itself |
| HtmlNormalize.NoMarkupUnchanged | src/app/api/card-comment/route.tsx:23-29 | a text without `<` passes the tag stage unchanged |
| HtmlNormalize.TidyTextUnchanged | src/app/api/card-comment/route.tsx:30-31 | a text with no three adjacent line feeds and no blank beside a line feed passes the whitespace stage unchanged |
| HtmlNormalize.CleanTextOnlyTrimmed | src/app/api/comment-youtube/route.tsx:67-91 | for text without markup, references or untidy line feeds, both the staged and the comment-youtube normaliser reduce to trimming |
| HtmlNormalize.NoAmpTrimmed | src/app/api/comment-youtube/route.tsx:87-90 | trimming before decoding keeps a text free of `&` |
| HtmlExamples.BreakTagBecomesLineFeed | src/app/api/card-comment/route.tsx:23 | `<br>`, `<br/>` and `<BR />` between two words each become one line feed in all three normalisers |
| HtmlExamples.BreakTagStage | src/app/api/card-comment/route.tsx:23-29 | a break tag matched whole between two words becomes one line feed in the tag stage |
| HtmlExamples.BreakTagStaged | src/app/api/card-comment-puppeteer-advanced/route.ts:19-50 | any break tag the expression matches whole becomes one line feed in the staged normaliser, whatever its entity table |
| HtmlExamples.BreakTagYouTube | src/app/api/comment-youtube/route.tsx:67-91 | the same through the comment-youtube normaliser |
| HtmlExamples.ParagraphsStaged | src/app/api/card-comment/route.tsx:24-25 | `<p>a</p><p>b</p>` becomes a, a blank line and b in the staged normaliser, whatever its table |
| HtmlExamples.ParagraphsTagStage | src/app/api/card-comment/route.tsx:23-29 | the tag stage turns `<p>a</p><p>b</p>` into a, two line feeds, b, two line feeds |
| HtmlExamples.ParagraphsYouTube | src/app/api/comment-youtube/route.tsx:73-74 | the same through the comment-youtube normaliser |
| HtmlExamples.ParagraphsBecomeBlankLine | src/app/api/card-comment/route.tsx:24-25 | `<p>a</p><p>b</p>` becomes a, a blank line and b in all three normalisers: the trailing line feeds go with the trim |
| HtmlExamples.CloseBlockBecomesLineFeed | src/app/api/card-comment/route.tsx:26 | a closing `div`, `blockquote` or `h1`-`h6` tag, in any ASCII case, between two words becomes one line feed in all three normalisers |
| HtmlExamples.CloseBlockStage | src/app/api/card-comment/route.tsx:23-29 | the tag stage turns such a closing tag between two words into one line feed |
| HtmlExamples.CloseBlockMatches | src/app/api/card-comment/route.tsx:23-26 | at a closing block tag the break and paragraph passes do not match, and the block-closing pass matches the whole tag |
| HtmlExamples.BlockNameInTag | src/app/api/card-comment/route.tsx:26 | the alternation of `div`, `blockquote` and `h1`-`h6` reads exactly the name inside a closing tag |
| HtmlExamples.BlockNameExamples | src/app/api/card-comment/route.tsx:26 | "div", "DIV", "BlockQuote", "h1" and "H6" are block names; "h7" and "p" are not |
| HtmlExamples.CloseDivBecomesLineFeed | src/app/api/card-comment/route.tsx:26 | `</div>` between two words becomes one line feed in all three normalisers |
| HtmlExamples.BoldTagDropped | src/app/api/card-comment/route.tsx:28 | `<b>` between two words is deleted in all three normalisers, joining the words |
| HtmlExamples.OpenBStage | src/app/api/card-comment/route.tsx:23-29 | the tag stage deletes `<b>` between two words |
| HtmlExamples.PaddingRecreatesTriple | src/app/api/card-comment/route.tsx:30-31 | a, two line feeds, a space, a line feed and b has no run of three line feeds, yet leaves the whitespace stage with three in a row |
| HtmlExamples.PaddingJoinsLineFeeds | src/app/api/card-comment/route.tsx:31 | the padding pass deletes the space in two line feeds, a space and a line feed, leaving three line feeds together |
| HtmlExamples.PaddingTripleStaged | src/app/api/card-comment/route.tsx:30-51 | those three line feeds survive to the staged normaliser's output |
| EntityExamples.KnownEntityStaged | src/app/api/card-comment/route.tsx:33-51 | a known lower-case name between plain texts becomes its table entry in the staged normaliser |
| EntityExamples.KnownEntityYouTube | src/app/api/comment-youtube/route.tsx:48-63 | a known lower-case name between plain texts becomes its comment-youtube table entry |
| EntityExamples.StagedNamedRef | src/app/api/card-comment/route.tsx:33-51 | a named reference between plain texts becomes its lookup (entry or the reference itself) in the staged normaliser, whatever the table |
| EntityExamples.YouTubeNamedRef | src/app/api/comment-youtube/route.tsx:44-90 | a named reference between plain texts becomes its comment-youtube lookup |
| EntityExamples.AmpRefNumericPass | src/app/api/card-comment/route.tsx:32 | a numeric reference to `&` followed by `name;` leaves the numeric pass as `&name;` |
| EntityExamples.AmpRefAnyRefPass | src/app/api/comment-youtube/route.tsx:44-47 | the one-pass decoder turns the same text into `&name;` and does not rescan it |
| EntityExamples.EmDashCardComment | src/app/api/card-comment/route.tsx:42 | `&mdash;` is U+2014 in card-comment |
| EntityExamples.EmDashPuppeteer | src/app/api/card-comment-puppeteer/route.ts:39 | `&mdash;` is the three code units U+201A U+00C4 U+00EE in the puppeteer routes |
| EntityExamples.EmDashYouTube | src/app/api/comment-youtube/route.tsx:56 | `&mdash;` is U+2014 in comment-youtube |
| EntityExamples.NbspTrimmedCardComment | src/app/api/card-comment/route.tsx:40-51 | a leading `&nbsp;` decodes to a space that the final trim then removes |
| EntityExamples.NbspKeptYouTube | src/app/api/comment-youtube/route.tsx:86-90 | comment-youtube trims before decoding, so a leading `&nbsp;` leaves a leading space |
| EntityExamples.HellipIsThreeStops | src/app/api/card-comment/route.tsx:41 | `&hellip;` is three full stops |
| EntityExamples.RsquoCardComment | src/app/api/card-comment/route.tsx:44 | `&rsquo;` is an ASCII apostrophe in card-comment |
| EntityExamples.RsquoYouTube | src/app/api/comment-youtube/route.tsx:58 | `&rsquo;` is U+2019 in comment-youtube |
| EntityExamples.EntityNamesIgnoreCase | src/app/api/card-comment/route.tsx:33-49 | two known names equal up to ASCII case normalise alike |
| EntityExamples.UnknownEntityKept | src/app/api/card-comment/route.tsx:49 | an unknown name is kept verbatim, `&` and `;` included, by the staged normaliser |
| EntityExamples.UnknownEntityKeptYouTube | src/app/api/comment-youtube/route.tsx:63 | the same in comment-youtube |
| EntityExamples.DecodingAgainDecodesFurther | src/app/api/card-comment/route.tsx:35-36 | `&amp;lt;` normalises to `&lt;`, which a second normalisation would decode again: the normaliser is not idempotent |
| EntityExamples.LessThanEntityIsMarkup | src/app/api/card-comment/route.tsx:36 | `&lt;` normalises to a literal `<`: the output can hold markup characters |
| EntityExamples.NumericThenNamedStaged | src/app/api/card-comment/route.tsx:32-33 | a numeric reference to `&` followed by `name;` becomes the entry for that name, because the numeric pass runs first |
| EntityExamples.NumericThenNamedYouTube | src/app/api/comment-youtube/route.tsx:44 | one pass that does not rescan its output turns the same text into `&name;` |
| EntityExamples.AmpersandReferenceOrder | src/app/api/card-comment/route.tsx:32-50 | `&#38;amp;` is `&` in card-comment and `&amp;` in comment-youtube |
| TextHeight.UnguardedCharsPerLine | src/app/api/comment-youtube/route.tsx:19-21 | the character count is the largest c for which c average character widths fit in the available width |
| TextHeight.CharsPerLine | src/app/api/card-comment/route.tsx:71-73 | characters per line is at least 1, and equals the floored quotient whenever that is at least 1 |
| TextHeight.CeilDivBounds | src/app/api/card-comment/route.tsx:82 | `Math.ceil(n / c)` for n, c >= 1 is at least 1 and is the least row count r with n <= r * c |
| TextHeight.LineRows | src/app/api/card-comment/route.tsx:79-83 | a blank line takes one row; any other line takes the fewest rows of `charsPerLine` characters that hold it |
| TextHeight.TotalRows | src/app/api/card-comment/route.tsx:77-84 | the row total is at least the number of lines |
| TextHeight.RowsAtLeastLineCount | src/app/api/card-comment/route.tsx:76-84 | the row total is at least the number of line feeds plus one |
| TextHeight.LineRowsMonotone | src/app/api/card-comment/route.tsx:82 | a longer line takes no fewer rows, unless it turns from content into blank |
| TextHeight.TotalRowsMonotone | src/app/api/card-comment/route.tsx:78-84 | line-wise longer lines take no fewer rows in total |
| TextHeight.HeightFromRows | src/app/api/card-comment/route.tsx:87-107 | the height is an integer at least 150 px at font size 16 and at least the content sum, and it is the ceiling of one of the two |
| TextHeight.CalculatedHeight | src/app/api/card-comment/route.tsx:61-108 | at a positive font size the height is at least 1, at least 150 px at font size 16, and at least the content sum over the wrapped row total |
| TextHeight.ZeroFontLineRows | src/app/api/card-comment/route.tsx:73-83 | at font size 0 a line adds NaN exactly when it has content and the width leaves no room between the paddings; otherwise it adds at least one row |
| TextHeight.ZeroFontRows | src/app/api/card-comment/route.tsx:76-84 | at font size 0 the row total is NaN exactly when there is no room and some line has content; otherwise it is at least the number of lines |
| TextHeight.ContentLineIffNotBlank | src/app/api/card-comment/route.tsx:76-79 | some line of `split("\n")` has content exactly when the text is not all whitespace |
| TextHeight.ZeroFontHeight | src/app/api/card-comment/route.tsx:71-107 | at font size 0 the height is NaN exactly when the width leaves no room between the paddings and some line has content; otherwise it is the padding sum rounded up |
| TextHeight.CalculateHeight | src/app/api/card-comment/route.tsx:61-108 | the loop's height equals the specification's and is at least 150 px at font size 16 |
| TextHeight.HeightFromRowsMonotone | src/app/api/card-comment/route.tsx:87-107 | more rows, the author image or the like count never lower the height |
| TextHeight.CalculatedHeightMonotone | src/app/api/card-comment/route.tsx:61-108 | the height is non-decreasing in each line's length and in both flags |
| TextHeight.ShortCommentHeight | src/app/api/card-comment/route.tsx:61-108 | "short" on a 600 px card at font size 16 with 24 px padding and both flags gets 62 characters per line and a 180 px height |
| TextHeight.EstimatedLineRows | src/app/api/comment-youtube/route.tsx:28-36 | a blank line counts 1; a line with content counts Infinity when `charsPerLine` is 0, 1 when it is negative, and the wrapped row count otherwise |
| TextHeight.EstimatedRows | src/app/api/comment-youtube/route.tsx:27-37 | the row total is finite or +Infinity, never NaN or negative infinity |
| TextHeight.TextHeightEstimate | src/app/api/comment-youtube/route.tsx:12-41 | the estimate is finite or +Infinity |
| TextHeight.EstimateTextHeight | src/app/api/comment-youtube/route.tsx:12-41 | the loop's estimate equals the specification's: total rows times 1.5 font sizes |
| TextHeight.EstimatedRowsGuarded | src/app/api/comment-youtube/route.tsx:31-34 | where at least one character fits, comment-youtube counts rows exactly as card-comment does |
| TextHeight.EstimateAgreesWithCalculatedRows | src/app/api/comment-youtube/route.tsx:12-41 | with at least one character per line the estimate is card-comment's row total times 1.5 font sizes |
| TextHeight.EmptyTextOneRow | src/app/api/comment-youtube/route.tsx:28-29 | an empty text is one blank line: 1.5 font sizes |
| TextHeight.EstimatedRowsNoRoom | src/app/api/comment-youtube/route.tsx:21-34 | with 0 characters per line the row total is infinite exactly when some line has content |
| TextHeight.NoRoomIsInfinite | src/app/api/comment-youtube/route.tsx:21-41 | with 0 characters per line the estimate is infinite exactly when some line has content |
| TextHeight.EstimatedRowsNegative | src/app/api/comment-youtube/route.tsx:21-34 | with a negative quotient every line counts one row |
| TextHeight.NegativeRoomOneRowPerLine | src/app/api/comment-youtube/route.tsx:12-41 | with a negative quotient the estimate is (line feeds + 1) times 1.5 font sizes |
| JsNumber.Max | src/app/api/card-comment/route.tsx:99 | `Math.max` is one of its arguments and no smaller than either |
| JsNumber.Floor | src/app/api/card-comment/route.tsx:73 | `Math.floor` is the greatest integer not above its argument |
| JsNumber.Ceil | src/app/api/card-comment/route.tsx:98 | `Math.ceil` is the least integer not below its argument |
| JsNumber.Round | src/app/api/comment-youtube/route.tsx:235-236 | `Math.round` is the nearest integer, halves rounded up |
| JsNumber.CeilMonotone | src/app/api/card-comment/route.tsx:98 | `Math.ceil` is monotone |
| JsNumber.RoundMonotone | src/app/api/comment-youtube/route.tsx:235-236 | `Math.round` is monotone |
| JsNumber.CeilOfInt | src/app/api/card-comment/route.tsx:98 | `Math.ceil` of an integer is that integer |
| JsNumber.Times | src/app/api/comment-youtube/route.tsx:40 | a finite or +Infinity number times a positive factor is finite exactly when the number is, and +Infinity otherwise |
| JsNumber.Add | src/app/api/comment-youtube/route.tsx:35 | a sum is finite exactly when both summands are, and then it is their sum |
| JsNumber.Plus | src/app/api/comment-youtube/route.tsx:184-188 | adding a real keeps the number finite or infinite, and adds it when finite |
| JsNumber.MaxWith | src/app/api/comment-youtube/route.tsx:183-190 | `Math.max` with a real keeps the number finite or infinite, and when finite is the larger of the two |
| JsNumber.RoundNumber | src/app/api/comment-youtube/route.tsx:235-236 | rounding a finite number rounds its value; Infinity stays Infinity |
| CardStyle.Justify | src/lib/cardStyle.ts:44-54 | an alignment gets a `justifyContent` exactly when it is start, center or end, and that value is flex-start, center or flex-end |
| CardStyle.SharedCardStyle | src/lib/cardStyle.ts:4-58 | the style is a flex column at line height 1.5; it has a height exactly when one is given, and only then a `justifyContent`, mapped from the alignment (center by default); padding, corner radius and width are in px with defaults 20, 24 and 400 |
| CardStyle.DefaultStyle | src/lib/cardStyle.ts:5-14 | with no options: #fff, #000, system fonts, bold, 16, 20 px, 24 px, 400 px, no height and no alignment |
| CardStyle.AlignmentMapping | src/lib/cardStyle.ts:44-54 | with a height, start, end and center (or none) map to flex-start, flex-end and center |
| CardStyle.CalculateContentHeight | src/lib/cardStyle.ts:60-90 | the result is the ceiling of lines times font size times line height, plus 52 or 40, plus 32 or 0, plus twice the padding |
| CardStyle.ContentCountsLineFeeds | src/lib/cardStyle.ts:79 | the line count is the number of line feeds plus one |
| CardStyle.ContentSumMonotone | src/lib/cardStyle.ts:79-89 | more lines and either flag never lower the result, for non-negative sizes |
| CardStyle.ContentHeightMonotone | src/lib/cardStyle.ts:79-89 | more line feeds and either flag never lower the content height |
| CardStyle.CalculatedAtLeastContent | src/lib/cardStyle.ts:60-90 | at font size 16 card-comment's wrapping height is never below the unwrapped content height |
| CardStyle.ContentBelowWrapped | src/lib/cardStyle.ts:79-89 | at font size 16 the unwrapped content sum is never above card-comment's sum over at least as many rows |
| CommentYouTube.ResolveVerticalAlign | src/app/api/comment-youtube/route.tsx:132-135 | the alignment is the parameter when it is start, center or end, and center otherwise |
| CommentYouTube.ParamsOf | src/app/api/comment-youtube/route.tsx:116-135 | auto-size only for "1"; avatar and likes unless "0"; the alignment is one of the three; the colours are never empty; no size number is NaN or negative |
| CommentYouTube.AbsentSizeIsZero | src/app/api/comment-youtube/route.tsx:121-124 | an absent width, height or aspect ratio is 0, not its fallback |
| CommentYouTube.ScaleParams | src/app/api/comment-youtube/route.tsx:137-143 | scaling keeps a finite width or height finite and an infinite one infinite |
| CommentYouTube.AbsentWidthRejected | src/app/api/comment-youtube/route.tsx:121-154 | a fixed-size request without a width fails the size guard |
| CommentYouTube.MinContentHeight | src/app/api/comment-youtube/route.tsx:167-190 | the content minimum is finite exactly when the text estimate is; it is then at least 150 scaled units and at least header, text, likes, both paddings and the 60-unit buffer |
| CommentYouTube.IsInvalidSize | src/app/api/comment-youtube/route.tsx:145-154 | an auto-size request always passes the guard; a fixed-size request passes it only with a finite, positive width and height |
| CommentYouTube.Compose | src/app/api/comment-youtube/route.tsx:156-236 | the final width is finite and an integer, at least 400 in auto-size mode and the rounded requested width in fixed mode; the final height is an integer or +Infinity |
| CommentYouTube.SizeFor | src/app/api/comment-youtube/route.tsx:145-154 | status 400 exactly when the request is not auto-size and the scaled width or height is not finite or not positive |
| CommentYouTube.ComposeSize | src/app/api/comment-youtube/route.tsx:156-236 | the branch-by-branch reassignment of the final width and height equals the specification's composition |
| CommentYouTube.ContentNeverCropped | src/app/api/comment-youtube/route.tsx:192-199 | in auto-size mode or with an aspect ratio, a finite estimate gives a finite height no lower than the rounded content minimum, and so no lower than 150 scaled units rounded |
| CommentYouTube.AspectRespected | src/app/api/comment-youtube/route.tsx:193-230 | with an aspect ratio the height is at least the rounded width over the aspect ratio |
| CommentYouTube.UnboundedEstimateUnboundedHeight | src/app/api/comment-youtube/route.tsx:174-199 | an infinite text estimate gives an infinite height wherever the content decides it |
| CommentYouTube.AutoSizeWidth | src/app/api/comment-youtube/route.tsx:159-199 | auto-size mode raises the width to at least 400 and rounds it; without an aspect ratio the height is the rounded content minimum |
| CommentYouTube.FixedSizeKept | src/app/api/comment-youtube/route.tsx:156-236 | fixed mode without an aspect ratio keeps the requested size, rounded |
| CommentYouTube.NarrowAutoCardUnbounded | src/app/api/comment-youtube/route.tsx:159-199 | an auto-size card too narrow for one character per line gets an infinite height when a line has content |
| CommentYouTube.SizeForAtLeastFloor | src/app/api/comment-youtube/route.tsx:183-236 | when the content decides the height and the estimate is finite, the image is at least 150 scaled units tall, rounded |
| CommentYouTube.StyleOptionsFor | src/app/api/comment-youtube/route.tsx:239-250 | sharedCardStyle gets the final width and height, the scaled padding and radius, the comment font size, the two colours and the resolved alignment |
| CommentYouTube.CardStyleAligned | src/app/api/comment-youtube/route.tsx:239-250 | the card style gets the image's height and width and always a `justifyContent`, mapped from the resolved alignment |
| PuppeteerBasic.GenerateHtml | src/app/api/card-comment-puppeteer/route.ts:58-200 | the page shows the avatar exactly when asked, the footer exactly when asked, and the text as given; 16 px text and name, 14 px grey date and footer |
| PuppeteerBasic.CardViewport | src/app/api/card-comment-puppeteer/route.ts:261-265 | the viewport is max(width + 100, 1200) wide and 1200 tall, at device scale factor 2 |
| PuppeteerBasic.ViewportIsFixed | src/app/api/card-comment-puppeteer/route.ts:261-265 | for every preset the viewport is 1200 by 1200 at factor 2 |
| PuppeteerBasic.HandleGet | src/app/api/card-comment-puppeteer/route.ts:207-265 | status 400 exactly when `data` is absent or empty; otherwise the page at the preset width with the puppeteer normalisation of the text, and the fixed viewport |
| PuppeteerBasic.XLargeIsMedium | src/app/api/card-comment-puppeteer/route.ts:216-217 | an xlarge request gets the 600 px card |
| PuppeteerAdvanced.FontOr16 | src/app/api/card-comment-puppeteer-advanced/route.ts:80 | font size 0 means 16, any other size is kept, and the result is positive |
| PuppeteerAdvanced.DerivedSizes | src/app/api/card-comment-puppeteer-advanced/route.ts:145-190 | the 1.1 and 0.875 sizes are within half a pixel of their exact values and grow with the font size |
| PuppeteerAdvanced.DefaultDerivedSizes | src/app/api/card-comment-puppeteer-advanced/route.ts:145-156 | at 16 px the name is 18 px and the date 14 px |
| PuppeteerAdvanced.SecondaryColor | src/app/api/card-comment-puppeteer-advanced/route.ts:152-158 | the date and footer colour is #666 exactly when the text colour is #000000, and dimmed white otherwise |
| PuppeteerAdvanced.FooterBorder | src/app/api/card-comment-puppeteer-advanced/route.ts:179-183 | the footer border is faint black exactly when the text colour is #000000 |
| PuppeteerAdvanced.GenerateHtml | src/app/api/card-comment-puppeteer-advanced/route.ts:59-232 | the page shows the avatar and footer exactly when asked and the text as given, at the custom font size (16 for 0), with its derived sizes and colours |
| PuppeteerAdvanced.CardViewport | src/app/api/card-comment-puppeteer-advanced/route.ts:263-277 | the viewport is width + 100 wide and max(1200, 1.5 widths) tall, at the requested scale factor |
| PuppeteerAdvanced.PresetViewports | src/app/api/card-comment-puppeteer-advanced/route.ts:270-277 | the viewport is 1200 tall up to large and 1500 tall for xlarge |
| PuppeteerAdvanced.HandleGet | src/app/api/card-comment-puppeteer-advanced/route.ts:302-356 | status 400 exactly when `data` is absent or empty; otherwise the page at the preset width with the puppeteer normalisation, and a viewport 100 px wider at the requested scale factor |
| PuppeteerAdvanced.AbsentFontIs16 | src/app/api/card-comment-puppeteer-advanced/route.ts:326 | without a `fontSize` parameter the page uses 16 px, an 18 px name and a 14 px date and footer |
| PuppeteerAdvanced.AbsentScaleFactorIsZero | src/app/api/card-comment-puppeteer-advanced/route.ts:327 | without a `scaleFactor` parameter the device scale factor is 0, not 2 |
| YouTubeUrl.ExtractCommentId | src/lib/utils/youtube.ts:1-18 | a comment ID is found exactly when the URL parses, its host is youtube.com or www.youtube.com, and its first `lc` is non-empty; the ID is that value |
| YouTubeUrl.ValidateYouTubeUrl | src/lib/utils/youtube.ts:20-31 | valid exactly when the URL parses, its host is one of the two, and it has an `lc` parameter |
| YouTubeUrl.ExtractedImpliesValid | src/lib/utils/youtube.ts:10-27 | a link that yields a comment ID is valid |
| YouTubeUrl.EmptyCommentParam | src/lib/utils/youtube.ts:11-12 | a link with an empty `lc` is valid but yields no comment ID |
| YouTubeUrl.OtherHostsRejected | src/lib/utils/youtube.ts:5-17 | any other host, or a URL that does not parse, yields no ID and is not valid |
| YouTubeUrl.MobileAndShortHostsRejected | src/lib/utils/youtube.ts:6-7 | m.youtube.com and youtu.be are not accepted hosts |
| YouTubeUrl.CommentIdFound | src/lib/utils/youtube.ts:5-12 | a non-empty first `lc` on either host is the comment ID |

## Left out

- Rendering and I/O are not modelled: `ImageResponse`/`NextResponse` construction, the puppeteer launch, pages, screenshots and browser close, the 1500 ms wait, and the status-500 `catch` paths. They are foreign calls; each handler is modelled up to the values it passes to them.
- `JSON.parse` of the `data` parameter is not modelled: the comment (or its `textDisplay`) is an argument of each handler model.
- `formatDate` is not modelled: it depends on `toLocaleDateString` locale data. The markup keeps the date string and the format instead.
- The StringToNumber grammar of ECMA-262 (hex, exponents, surrounding whitespace) is a parameter `parse` of the handler models. Only what `getNumberParam` does with its result is modelled.
- IEEE-754 rounding and the 2^53 limit are not modelled: numbers are exact reals, and decimal digit strings of any length have exact values.
- Object-literal lookups reaching `Object.prototype` (for example `&constructor;` or `size=toString`) are not modelled: the entity and size tables are finite maps.
- The CSS and template text of both `generateHTML` functions, the JSX of the `ImageResponse` routes, and number-to-`px` string formatting are not modelled. Only the values the templates interpolate and the branches they take are modelled.
- The URL parser and the query-string parser are parameters of `YouTubeUrl`.
- The comment-youtube `GET` is not modelled as written, because it does not compile. The scale factor and the comment font size are arguments. Both `estimateTextHeight` calls use that one font size, although the source names `fontSizes.comment` in one call and `fontSize` in the other.
- CardComment.CardFor, CardComment.HandleGet, CardComment.CardDimensions, CardComment.ParamsNonNegative, CardComment.AbsentScaleIsZero, CardComment.AbsentScaleHeight, PuppeteerBasic.HandleGet, PuppeteerBasic.XLargeIsMedium, PuppeteerAdvanced.HandleGet, PuppeteerAdvanced.AbsentFontIs16 and PuppeteerAdvanced.AbsentScaleFactorIsZero: their preconditions exclude numeric parameters that convert to Infinity (from "Infinity" or from a numeral too large for a double, such as "1e309"), whose products the model does not follow.
- CommentYouTube.SizeFor: its precondition excludes an infinite aspect ratio and, in auto-size mode, an infinite width. Both come from "Infinity" or from a numeral too large for a double, such as "1e309".
- CommentYouTube.ScaleParams, CommentYouTube.AbsentWidthRejected and CommentYouTube.ComposeSize: their preconditions, like SizeFor's, also require a finite padding and radius, for the same reason.
- JsNumber.Times: states only that a product keeps finiteness, not its value. Every member that needs the value reads it from the definition.
- HtmlNormalize.DecodeHtmlEntities: its own contract covers text without `&`. What it does to each reference is stated by HtmlPassFacts.AnyRefDecodesNumeric and HtmlPassFacts.AnyRefDecodesNamed, and by the examples.
- Idempotence and markup-free output are not claimed, because neither holds. EntityExamples.DecodingAgainDecodesFurther and EntityExamples.LessThanEntityIsMarkup show why.
- The unused `fontSize` parameter of comment-youtube (`fontSizeAdjustment`) is not modelled.
