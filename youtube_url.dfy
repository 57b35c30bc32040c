/** Comment links (`extractCommentId`, `validateYouTubeUrl`): a host check and a
    lookup of the `lc` query parameter on a parsed URL. The URL parser (section
    4.4 of the WHATWG URL Standard) and the query parser (section 5.1 of the same
    standard) are a parameter: `None` is a URL the parser rejects, which the
    source's `try`/`catch` turns into null or false. */
module YouTubeUrl {
  import opened Wrappers
  import opened JsText
  import opened QueryParams

  /** The parts of a parsed URL the helpers read: its host name and the name/value
      pairs of its query. */
  datatype ParsedUrl = ParsedUrl(hostname: JsString, query: Query)

  const YouTubeHost: JsString := [0x79, 0x6F, 0x75, 0x74, 0x75, 0x62, 0x65, 0x2E, 0x63, 0x6F, 0x6D]  // "youtube.com"
  const WwwYouTubeHost: JsString := [0x77, 0x77, 0x77, 0x2E] + YouTubeHost  // "www.youtube.com"
  const CommentParam: JsString := [0x6C, 0x63]  // "lc"

  predicate IsYouTubeHost(host: JsString)
  {
    host == YouTubeHost || host == WwwYouTubeHost
  }

  /** `extractCommentId`: the first `lc` value of a youtube.com link, when it is
      not empty. */
  function ExtractCommentId(url: JsString, parse: JsString -> Option<ParsedUrl>): (r: Option<JsString>)
    ensures r.Some? <==> (parse(url).Some? && IsYouTubeHost(parse(url).value.hostname) &&
      Get(parse(url).value.query, CommentParam).Some? && Get(parse(url).value.query, CommentParam).value != [])
    ensures r.Some? ==> r == Get(parse(url).value.query, CommentParam) && r.value != []
  {
    var u := parse(url);
    if u.None? then None
    else if IsYouTubeHost(u.value.hostname) then
      var id := Get(u.value.query, CommentParam);
      if id.Some? && id.value != [] then id else None
    else None
  }

  /** `validateYouTubeUrl`: a youtube.com link carrying an `lc` parameter. */
  function ValidateYouTubeUrl(url: JsString, parse: JsString -> Option<ParsedUrl>): (ok: bool)
    ensures ok <==> (parse(url).Some? && IsYouTubeHost(parse(url).value.hostname) &&
      Has(parse(url).value.query, CommentParam))
  {
    var u := parse(url);
    u.Some? && IsYouTubeHost(u.value.hostname) && Has(u.value.query, CommentParam)
  }

  /** A link the extractor accepts is one the validator accepts. */
  lemma ExtractedImpliesValid(url: JsString, parse: JsString -> Option<ParsedUrl>)
    requires ExtractCommentId(url, parse).Some?
    ensures ValidateYouTubeUrl(url, parse)
  {
  }

  /** The converse fails: a youtube.com link whose first `lc` is empty is valid but
      yields no comment ID. */
  lemma EmptyCommentParam(url: JsString, parse: JsString -> Option<ParsedUrl>)
    requires parse(url) == Some(ParsedUrl(YouTubeHost, [(CommentParam, [])]))
    ensures ValidateYouTubeUrl(url, parse)
    ensures ExtractCommentId(url, parse).None?
  {
    var q: Query := [(CommentParam, [])];
    assert q[0].0 == CommentParam;
    assert Get(q, CommentParam) == Some([]);
  }

  /** Any other host, m.youtube.com and youtu.be included, and any URL the parser
      rejects, yields nothing and is not valid. */
  lemma OtherHostsRejected(url: JsString, parse: JsString -> Option<ParsedUrl>)
    requires parse(url).None? || !IsYouTubeHost(parse(url).value.hostname)
    ensures ExtractCommentId(url, parse).None?
    ensures !ValidateYouTubeUrl(url, parse)
  {
  }

  const MobileHost: JsString := [0x6D, 0x2E] + YouTubeHost  // "m.youtube.com"
  const ShortHost: JsString := [0x79, 0x6F, 0x75, 0x74, 0x75, 0x2E, 0x62, 0x65]  // "youtu.be"

  lemma MobileAndShortHostsRejected()
    ensures !IsYouTubeHost(MobileHost) && !IsYouTubeHost(ShortHost)
  {
    assert MobileHost[0] != YouTubeHost[0] && MobileHost[0] != WwwYouTubeHost[0];
    assert |ShortHost| != |YouTubeHost| && |ShortHost| != |WwwYouTubeHost|;
  }

  /** With a non-empty first `lc` on either host, that value is the comment ID. */
  lemma CommentIdFound(url: JsString, parse: JsString -> Option<ParsedUrl>, host: JsString, id: JsString, rest: Query)
    requires host == YouTubeHost || host == WwwYouTubeHost
    requires id != []
    requires parse(url) == Some(ParsedUrl(host, [(CommentParam, id)] + rest))
    ensures ExtractCommentId(url, parse) == Some(id)
    ensures ValidateYouTubeUrl(url, parse)
  {
    var q: Query := [(CommentParam, id)] + rest;
    assert q[0] == (CommentParam, id);
    assert Get(q, CommentParam) == Some(id);
  }
}
