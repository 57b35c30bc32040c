/** The card-width presets (`CARD_SIZES`) and the lookup of the `size` parameter. */
module CardSizes {
  import opened Wrappers
  import opened JsText
  import opened QueryParams

  const Small: JsString := [0x73, 0x6D, 0x61, 0x6C, 0x6C]  // "small"
  const Medium: JsString := [0x6D, 0x65, 0x64, 0x69, 0x75, 0x6D]  // "medium"
  const Large: JsString := [0x6C, 0x61, 0x72, 0x67, 0x65]  // "large"
  const XLarge: JsString := [0x78, 0x6C, 0x61, 0x72, 0x67, 0x65]  // "xlarge"

  // The colour defaults of card-comment and of both puppeteer routes.
  const DefaultBackground: JsString := [0x23, 0x66, 0x66, 0x66, 0x66, 0x66, 0x66]  // "#ffffff"
  const DefaultTextColor: JsString := [0x23, 0x30, 0x30, 0x30, 0x30, 0x30, 0x30]  // "#000000"

  type SizeTable = map<JsString, real>

  /** The presets of card-comment and of the advanced puppeteer route. */
  const FullSizes: SizeTable := map[Small := 400.0, Medium := 600.0, Large := 800.0, XLarge := 1000.0]

  /** The presets of the basic puppeteer route: no xlarge. */
  const BasicSizes: SizeTable := map[Small := 400.0, Medium := 600.0, Large := 800.0]

  /** `CARD_SIZES[(size || "medium")] || CARD_SIZES.medium`: a preset's width, or the
      medium width for an absent, empty or unknown name. */
  function ResolveWidth(table: SizeTable, size: Option<JsString>): (w: real)
    requires Medium in table
    ensures w == table[Medium] || w in table.Values
    ensures size.Some? && size.value != [] && size.value in table && table[size.value] != 0.0 ==> w == table[size.value]
    ensures size.None? || size.value == [] || size.value !in table ==> w == table[Medium]
  {
    var name := OrDefault(size, Medium);
    if name in table && table[name] != 0.0 then table[name] else table[Medium]
  }

  /** The four presets of the full table, and the medium width for anything else. */
  lemma FullSizesResolve(size: Option<JsString>)
    ensures ResolveWidth(FullSizes, Some(Small)) == 400.0
    ensures ResolveWidth(FullSizes, Some(Medium)) == 600.0
    ensures ResolveWidth(FullSizes, Some(Large)) == 800.0
    ensures ResolveWidth(FullSizes, Some(XLarge)) == 1000.0
    ensures size.None? || size.value !in {Small, Medium, Large, XLarge} ==> ResolveWidth(FullSizes, size) == 600.0
    ensures ResolveWidth(FullSizes, size) in {400.0, 600.0, 800.0, 1000.0}
  {
    assert FullSizes.Keys == {Small, Medium, Large, XLarge};
    assert FullSizes.Values == {400.0, 600.0, 800.0, 1000.0};
  }

  /** Without xlarge, that name falls back to the medium width like any unknown one. */
  lemma BasicSizesResolve(size: Option<JsString>)
    ensures ResolveWidth(BasicSizes, Some(Small)) == 400.0
    ensures ResolveWidth(BasicSizes, Some(Medium)) == 600.0
    ensures ResolveWidth(BasicSizes, Some(Large)) == 800.0
    ensures ResolveWidth(BasicSizes, Some(XLarge)) == 600.0
    ensures size.None? || size.value !in {Small, Medium, Large} ==> ResolveWidth(BasicSizes, size) == 600.0
    ensures ResolveWidth(BasicSizes, size) in {400.0, 600.0, 800.0}
  {
    assert BasicSizes.Keys == {Small, Medium, Large};
    assert BasicSizes.Values == {400.0, 600.0, 800.0};
    assert XLarge !in BasicSizes;
  }

  /** Every width the full table resolves to is positive. */
  lemma FullWidthPositive(size: Option<JsString>)
    ensures ResolveWidth(FullSizes, size) > 0.0
  {
    FullSizesResolve(size);
  }

  /** Every width the basic table resolves to is positive. */
  lemma BasicWidthPositive(size: Option<JsString>)
    ensures ResolveWidth(BasicSizes, size) > 0.0
  {
    BasicSizesResolve(size);
  }
}
