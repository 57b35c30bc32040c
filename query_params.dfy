/** Query parameters of a request (`URLSearchParams`) and the ways the routes read
    them: `getNumberParam`, the presence flags and the `||` defaults. */
module QueryParams {
  import opened Wrappers
  import opened JsText
  import opened JsNumber

  /** The name/value pairs of a query, in order. */
  type Query = seq<(JsString, JsString)>

  // The parameter names the routes read.
  const DataParam: JsString := [0x64, 0x61, 0x74, 0x61]  // "data"
  const SizeParam: JsString := [0x73, 0x69, 0x7A, 0x65]  // "size"
  const ScaleParam: JsString := [0x73, 0x63, 0x61, 0x6C, 0x65, 0x46, 0x61, 0x63, 0x74, 0x6F, 0x72]  // "scaleFactor"
  const RadiusParam: JsString := [0x63, 0x61, 0x72, 0x64, 0x52, 0x61, 0x64, 0x69, 0x75, 0x73]  // "cardRadius"
  const PaddingParam: JsString := [0x70, 0x61, 0x64, 0x64, 0x69, 0x6E, 0x67]  // "padding"
  const FontSizeParam: JsString := [0x66, 0x6F, 0x6E, 0x74, 0x53, 0x69, 0x7A, 0x65]  // "fontSize"
  const BackgroundParam: JsString := [0x62, 0x61, 0x63, 0x6B, 0x67, 0x72, 0x6F, 0x75, 0x6E, 0x64, 0x43, 0x6F, 0x6C, 0x6F, 0x72]  // "backgroundColor"
  const TextColorParam: JsString := [0x74, 0x65, 0x78, 0x74, 0x43, 0x6F, 0x6C, 0x6F, 0x72]  // "textColor"
  const ShowAuthorParam: JsString := [0x73, 0x68, 0x6F, 0x77, 0x41, 0x75, 0x74, 0x68, 0x6F, 0x72, 0x49, 0x6D, 0x61, 0x67, 0x65]  // "showAuthorImage"
  const ShowLikesParam: JsString := [0x73, 0x68, 0x6F, 0x77, 0x4C, 0x69, 0x6B, 0x65, 0x43, 0x6F, 0x75, 0x6E, 0x74]  // "showLikeCount"
  const DateFormatParam: JsString := [0x64, 0x61, 0x74, 0x65, 0x46, 0x6F, 0x72, 0x6D, 0x61, 0x74]  // "dateFormat"
  const WidthParam: JsString := [0x77, 0x69, 0x64, 0x74, 0x68]  // "width"
  const HeightParam: JsString := [0x68, 0x65, 0x69, 0x67, 0x68, 0x74]  // "height"
  const AspectParam: JsString := [0x61, 0x73, 0x70, 0x65, 0x63, 0x74, 0x52, 0x61, 0x74, 0x69, 0x6F]  // "aspectRatio"
  const AutoSizeParam: JsString := [0x61, 0x75, 0x74, 0x6F, 0x53, 0x69, 0x7A, 0x65]  // "autoSize"
  const VerticalAlignParam: JsString := [0x76, 0x65, 0x72, 0x74, 0x69, 0x63, 0x61, 0x6C, 0x41, 0x6C, 0x69, 0x67, 0x6E]  // "verticalAlign"

  /** `searchParams.get(name)`: the value of the first pair with that name. */
  function Get(q: Query, name: JsString): (r: Option<JsString>)
    ensures r.None? <==> forall k :: 0 <= k < |q| ==> q[k].0 != name
    ensures r.Some? ==>
      exists k :: 0 <= k < |q| && q[k] == (name, r.value) && (forall j :: 0 <= j < k ==> q[j].0 != name)
  {
    if q == [] then None
    else if q[0].0 == name then
      assert q[0] == (name, q[0].1);
      Some(q[0].1)
    else
      var r := Get(q[1..], name);
      if r.Some? then
        ghost var k :| 0 <= k < |q[1..]| && q[1..][k] == (name, r.value) &&
          (forall j :: 0 <= j < k ==> q[1..][j].0 != name);
        assert q[k + 1] == (name, r.value);
        assert forall j :: 0 <= j < k + 1 ==> q[j].0 != name by {
          forall j | 0 <= j < k + 1 ensures q[j].0 != name {
            if j > 0 { assert q[j] == q[1..][j - 1]; }
          }
        }
        r
      else
        assert forall k :: 1 <= k < |q| ==> q[k] == q[1..][k - 1];
        r
  }

  /** `searchParams.has(name)`: a parameter is present exactly when `get` finds a
      value for it. */
  predicate Has(q: Query, name: JsString)
    ensures Has(q, name) <==> Get(q, name).Some?
  {
    NamePresentIffGet(q, name);
    exists k :: 0 <= k < |q| && q[k].0 == name
  }

  lemma NamePresentIffGet(q: Query, name: JsString)
    ensures (exists k :: 0 <= k < |q| && q[k].0 == name) <==> Get(q, name).Some?
  {
    if Get(q, name).Some? {
      var k :| 0 <= k < |q| && q[k] == (name, Get(q, name).value) &&
        (forall j :: 0 <= j < k ==> q[j].0 != name);
      assert q[k].0 == name;
    }
  }

  /** `Number(param)`: an absent parameter (`null`) converts to +0 (section 7.1.4 of
      ECMA-262); a present one converts by the string-to-number grammar `parse`. */
  function NumberOf(param: Option<JsString>, parse: JsString -> Number): Number
  {
    if param.None? then Finite(0.0) else parse(param.value)
  }

  /** `getNumberParam`: the converted parameter, or the fallback when that is NaN or
      negative. */
  function GetNumberParam(param: Option<JsString>, parse: JsString -> Number, fallback: real): (r: Number)
    ensures r == Finite(fallback) || r == NumberOf(param, parse)
    ensures r == NumberOf(param, parse) || NumberOf(param, parse).NaN? || IsNegative(NumberOf(param, parse))
    ensures (NumberOf(param, parse).NaN? || IsNegative(NumberOf(param, parse))) ==> r == Finite(fallback)
    ensures fallback >= 0.0 ==> !r.NaN? && !IsNegative(r)
    ensures param.None? ==> r == Finite(0.0)
  {
    var n := NumberOf(param, parse);
    if n.NaN? || IsNegative(n) then Finite(fallback) else n
  }

  /** `searchParams.get(name) !== "0"`: a display flag is on unless it is exactly "0". */
  function ShowFlag(param: Option<JsString>): (on: bool)
    ensures !on <==> param == Some([0x30])
  {
    param != Some([0x30])
  }

  /** `searchParams.get(name) === "1"`. */
  function IsOne(param: Option<JsString>): (on: bool)
    ensures on <==> param == Some([0x31])
  {
    param == Some([0x31])
  }

  /** `searchParams.get(name) || default`: an absent or empty value takes the default. */
  function OrDefault(param: Option<JsString>, default: JsString): (r: JsString)
    ensures param.None? || param.value == [] ==> r == default
    ensures param.Some? && param.value != [] ==> r == param.value
    ensures default != [] ==> r != []
  {
    if param.None? || param.value == [] then default else param.value
  }
}
