/**
 * The text measurement and line-break oracles the layout code consults: glyph widths,
 * the longest fitting prefix, hyphenation, and the line-break iterator. They are foreign
 * code, modelled as uninterpreted functions; the predicates below state what the layout
 * code relies on them for.
 */
module Measuring {
  import opened LayoutStyle

  /** Which of the line-break iterator's entry points is asked for the next breakable position. */
  datatype BreakIteratorFunction =
    | KeepingAllWords
    | KeepingAllWordsIgnoringNBSP
    | DefaultBreaking
    | IgnoringNBSP
    | WithoutShortcut
    | IgnoringNBSPWithoutShortcut

  /** The fitting prefix of a text run (`TextUtil::SplitData`). */
  datatype SplitData = SplitData(length: nat, logicalWidth: LayoutUnit)

  datatype TextMeasurer = TextMeasurer(
    /** `TextUtil::width(box, from, to)`: the advance of the box's text in [from, to). */
    width: (LayoutBox, nat, nat) -> LayoutUnit,
    /** `TextUtil::split(box, start, length, textWidth, availableWidth)`. */
    split: (LayoutBox, nat, nat, LayoutUnit, LayoutUnit) -> SplitData,
    /** The width of the style's hyphen string. */
    hyphenWidth: Style -> LayoutUnit,
    canHyphenate: Locale -> bool,
    /** `enoughWidthForHyphenation(availableWidth, pixelSize)`. */
    enoughWidthForHyphenation: (LayoutUnit, LayoutUnit) -> bool,
    /** `lastHyphenLocation(text, beforeIndex, locale)`: 0 when there is none. */
    lastHyphenLocation: (Text, nat, Locale) -> nat,
    /** The line-break iterator: the next breakable position at or after a position. */
    nextBreakablePosition: (BreakIteratorFunction, Text, nat) -> nat)

  /**
   * A breakable position is never before the position asked about, nor past the text; and
   * a newline is a breakable space, so the iterator never answers past one.
   */
  ghost predicate ValidBreakIterator(m: TextMeasurer) {
    (forall f: BreakIteratorFunction, s: Text, p: nat {:trigger m.nextBreakablePosition(f, s, p)} ::
      p < |s| ==> p <= m.nextBreakablePosition(f, s, p) <= |s|) &&
    (forall f: BreakIteratorFunction, s: Text, p: nat, q: nat {:trigger m.nextBreakablePosition(f, s, p), s[q]} ::
      p <= q < m.nextBreakablePosition(f, s, p) && q < |s| ==> s[q] != Newline)
  }

  /** The fitting prefix is a prefix of the run, and its width is that prefix's measured width. */
  ghost predicate ValidSplit(m: TextMeasurer) {
    forall b: LayoutBox, start: nat, length: nat, w: LayoutUnit, a: LayoutUnit {:trigger m.split(b, start, length, w, a)} ::
      m.split(b, start, length, w, a).length <= length &&
      m.split(b, start, length, w, a).logicalWidth == m.width(b, start, start + m.split(b, start, length, w, a).length)
  }

  /** A hyphenation point lies strictly before the index it is asked about. */
  ghost predicate ValidHyphenation(m: TextMeasurer) {
    forall s: Text, before: nat, l: Locale {:trigger m.lastHyphenLocation(s, before, l)} ::
      m.lastHyphenLocation(s, before, l) < before || m.lastHyphenLocation(s, before, l) == 0
  }
}
