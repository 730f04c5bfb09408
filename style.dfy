/**
 * The read-only inputs of inline layout: computed style, box geometry and layout boxes.
 * Boxes are identified by an integer id; everything the layout code asks of a box
 * (its style, its geometry, its text) travels with it as a value.
 */
module LayoutStyle {

  /** `InlineLayoutUnit` is a float in the source; the model computes exactly. */
  type LayoutUnit = real

  type BoxId = nat

  type Locale = nat

  /** `UChar`: a UTF-16 code unit. `String` and `StringView` are indexed by code unit. */
  newtype CodeUnit = c: int | 0 <= c < 0x1_0000

  /** A `String` as the layout code sees it: a sequence of UTF-16 code units. */
  type Text = seq<CodeUnit>

  const Tab: CodeUnit := 0x09
  const Newline: CodeUnit := 0x0A
  const Space: CodeUnit := 0x20

  datatype WhiteSpace = Normal | Pre | PreWrap | PreLine | NoWrap | KHTMLNoWrap | BreakSpaces

  datatype WordBreak = NormalBreak | BreakAll | KeepAll | BreakWord

  datatype NBSPMode = NBSPNormal | NBSPSpace

  datatype Hyphens = HyphensNone | HyphensManual | HyphensAuto

  datatype TextAlign = Left | Right | Center | Justify | WebKitLeft | WebKitRight | WebKitCenter | Start | End

  datatype VerticalAlign = Baseline | Top | Bottom | Middle | Sub | Super | TextTop | TextBottom

  datatype TextTransform = Capitalize | Uppercase | Lowercase | NoTransform

  /** Font metrics are integral in the engine (`FontMetrics::ascent()` and friends). */
  datatype FontMetrics = FontMetrics(ascent: int, descent: int, height: int)

  /** `RenderStyle::initialHyphenationLimitBefore/After()`: the "auto" value. */
  const InitialHyphenationLimit: int := -1

  datatype Style = Style(
    whiteSpace: WhiteSpace,
    wordBreak: WordBreak,
    nbspMode: NBSPMode,
    hyphens: Hyphens,
    hyphenationLimitBefore: int,
    hyphenationLimitAfter: int,
    letterSpacing: LayoutUnit,
    verticalAlign: VerticalAlign,
    locale: Locale,
    fontMetrics: FontMetrics,
    computedLineHeight: int,
    spaceWidth: LayoutUnit,
    pixelSize: LayoutUnit)
  {
    /** Segment breaks are kept by every white-space value except normal and nowrap. */
    predicate PreserveNewline() {
      whiteSpace != Normal && whiteSpace != NoWrap
    }

    /** pre, pre-wrap and break-spaces keep their whitespace. */
    predicate CollapseWhiteSpace() {
      whiteSpace != Pre && whiteSpace != PreWrap && whiteSpace != BreakSpaces
    }

    /** nowrap and pre never wrap automatically. */
    predicate AutoWrap() {
      whiteSpace != NoWrap && whiteSpace != Pre
    }

    /** Trailing whitespace hangs instead of being trimmed (`TextUtil::shouldPreserveTrailingWhitespace`). */
    predicate ShouldPreserveTrailingWhitespace() {
      whiteSpace == Pre || whiteSpace == PreWrap || whiteSpace == BreakSpaces
    }
  }

  /** The baseline metrics of one line (`Display::LineBox::Baseline`). */
  datatype LineBaseline = LineBaseline(ascent: LayoutUnit, descent: LayoutUnit) {
    function Height(): LayoutUnit { ascent + descent }
  }

  /**
   * What the formatting context knows about a box: margins, borders, paddings (a missing
   * padding reads as 0), heights, and for an inline-block with inline content the baseline
   * of its own last line.
   */
  datatype BoxGeometry = BoxGeometry(
    marginStart: LayoutUnit,
    marginEnd: LayoutUnit,
    marginBefore: LayoutUnit,
    borderTop: LayoutUnit,
    paddingTop: LayoutUnit,
    borderLeft: LayoutUnit,
    paddingLeft: LayoutUnit,
    borderRight: LayoutUnit,
    paddingRight: LayoutUnit,
    height: LayoutUnit,
    marginBoxHeight: LayoutUnit,
    contentBoxHeight: LayoutUnit,
    lastLineBaselineOffset: LayoutUnit,
    lastLineBaseline: LineBaseline)

  datatype LayoutBox = LayoutBox(
    id: BoxId,
    style: Style,
    geometry: BoxGeometry,
    text: Text,
    canUseSimplifiedContentMeasuring: bool,
    isReplaced: bool,
    isInlineBlockBox: bool,
    establishesFormattingContext: bool,
    establishesInlineFormattingContext: bool,
    isFloatingPositioned: bool)
}
