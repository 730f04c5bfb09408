/**
 * The line breaker (`LineBreaker`): decides whether a run of continuous candidate content
 * stays on the current line, is split inside one of its text runs, or is pushed to the next
 * line; and `LineBreaker::Content`, the buffer that collects that candidate content.
 */
module LineBreaker {
  import opened Wrappers
  import opened LayoutStyle
  import opened InlineItems
  import opened Measuring

  /** One candidate item with its measured width (`Content::Run`). */
  datatype CandidateRun = CandidateRun(inlineItem: InlineItem, logicalWidth: LayoutUnit)

  /** What the end of the candidate content could lose if it ends up at the end of the line. */
  datatype TrailingTrimmableContent = TrailingTrimmableContent(width: LayoutUnit, isFullyTrimmable: bool)

  /** `TrailingTrimmableContent::reset()`. */
  const NoTrailingTrimmableContent := TrailingTrimmableContent(0.0, false)

  /** What the line builder reports about the current line. */
  datatype LineStatus = LineStatus(
    availableWidth: LayoutUnit,
    trimmableWidth: LayoutUnit,
    lineHasFullyTrimmableTrailingRun: bool,
    lineIsEmpty: bool)

  datatype ContentWrappingRule = Keep | Split | Push

  /** Where a split lands: the run to split, and the length and width that stay on the line. */
  datatype PartialTrailingContent = PartialTrailingContent(
    trailingRunIndex: nat, length: nat, logicalWidth: LayoutUnit, needsHyphen: bool)

  datatype BreakingContext = BreakingContext(
    contentWrappingRule: ContentWrappingRule,
    partialTrailingContent: Option<PartialTrailingContent>)

  /** The part of an overflowing text run that stays on the line. */
  datatype LeftSide = LeftSide(length: nat, logicalWidth: LayoutUnit, needsHyphen: bool)

  // ---------------------------------------------------------------------------------------
  // Run classification.

  /** Only text may be split, and never `pre` or `nowrap` text. */
  predicate IsContentWrappingAllowed(run: CandidateRun)
    ensures IsContentWrappingAllowed(run) <==> run.inlineItem.TextItem? && run.inlineItem.Style().AutoWrap()
  {
    run.inlineItem.TextItem? && run.inlineItem.Style().whiteSpace != Pre && run.inlineItem.Style().whiteSpace != NoWrap
  }

  /** `pre-wrap` whitespace at the end of the candidate hangs rather than wraps. */
  predicate IsTrailingWhitespaceWithPreWrap(item: InlineItem)
    ensures IsTrailingWhitespaceWithPreWrap(item) ==>
      item.Style().AutoWrap() && item.Style().ShouldPreserveTrailingWhitespace() && !item.Style().CollapseWhiteSpace()
    ensures item.IsWhitespace() ==> (IsTrailingWhitespaceWithPreWrap(item) <==> item.Style().whiteSpace == PreWrap)
    ensures !item.IsWhitespace() ==> !IsTrailingWhitespaceWithPreWrap(item)
  {
    item.TextItem? && item.Style().whiteSpace == PreWrap && item.IsWhitespace()
  }

  /** The index of the first run that is not a container marker, if any. */
  function FirstContentIndex(runs: seq<CandidateRun>): (r: Option<nat>)
    ensures r.Some? ==> r.value < |runs| && !runs[r.value].inlineItem.IsContainerMarker()
    ensures forall i :: 0 <= i < |runs| && (r.None? || i < r.value) ==> runs[i].inlineItem.IsContainerMarker()
  {
    if runs == [] then None
    else if !runs[0].inlineItem.IsContainerMarker() then Some(0)
    else
      var rest := FirstContentIndex(runs[1..]);
      if rest.Some? then Some(rest.value + 1) else None
  }

  /** The index of the last run that is not a container marker, among the first `k`. */
  function LastContentIndex(runs: seq<CandidateRun>, k: nat): (r: Option<nat>)
    requires k <= |runs|
    ensures r.Some? ==> r.value < k && !runs[r.value].inlineItem.IsContainerMarker()
    ensures forall i :: 0 <= i < k && (r.None? || r.value < i) ==> runs[i].inlineItem.IsContainerMarker()
  {
    if k == 0 then None
    else if !runs[k - 1].inlineItem.IsContainerMarker() then Some(k - 1)
    else LastContentIndex(runs, k - 1)
  }

  /**
   * `<span>text</span>` counts as text: commit boundaries never let text and an atomic box
   * share one candidate, so the first run that is not a container marker decides.
   */
  predicate HasTextContentOnly(runs: seq<CandidateRun>) {
    var first := FirstContentIndex(runs);
    first.Some? && runs[first.value].inlineItem.TextItem?
  }

  /** Only container start and end markers (`<span></span>`). */
  predicate HasNonContentRunsOnly(runs: seq<CandidateRun>) {
    FirstContentIndex(runs).None?
  }

  lemma HasNonContentRunsOnlyMeaning(runs: seq<CandidateRun>)
    ensures HasNonContentRunsOnly(runs) <==> forall i :: 0 <= i < |runs| ==> runs[i].inlineItem.IsContainerMarker()
  {
  }

  /** Text-only candidates are exactly those whose first content run is text, behind container markers only. */
  lemma HasTextContentOnlyMeaning(runs: seq<CandidateRun>)
    ensures HasTextContentOnly(runs) <==>
      exists k :: 0 <= k < |runs| && runs[k].inlineItem.TextItem? &&
        forall i :: 0 <= i < k ==> runs[i].inlineItem.IsContainerMarker()
  {
    if HasTextContentOnly(runs) {
      var k := FirstContentIndex(runs).value;
      assert runs[k].inlineItem.TextItem? && forall i :: 0 <= i < k ==> runs[i].inlineItem.IsContainerMarker();
    }
  }

  /** The sum of the widths of the first `k` runs. */
  function AccumulatedWidth(runs: seq<CandidateRun>, k: nat): LayoutUnit
    requires k <= |runs|
  {
    if k == 0 then 0.0 else AccumulatedWidth(runs, k - 1) + runs[k - 1].logicalWidth
  }

  function TotalWidth(runs: seq<CandidateRun>): LayoutUnit {
    AccumulatedWidth(runs, |runs|)
  }

  // ---------------------------------------------------------------------------------------
  // Splitting a text run.

  /** Hyphenation limits are shorts; "auto" (-1) means no limit, other negatives wrap to unsigned. */
  function HyphenationLimit(limit: int): (r: nat)
    ensures limit == InitialHyphenationLimit ==> r == 0
    ensures 0 <= limit ==> r == limit
    ensures -0x1_0000_0000 <= limit < InitialHyphenationLimit ==> r == limit + 0x1_0000_0000
  {
    if limit == InitialHyphenationLimit then 0 else if limit >= 0 then limit else limit % 0x1_0000_0000
  }

  /** `StringView::substring(start, length)`: clamped to the text. */
  function Substring(text: Text, start: nat, length: nat): (r: Text)
    ensures start >= |text| ==> r == []
    ensures start < |text| ==> r == text[start..start + if length <= |text| - start then length else |text| - start]
  {
    if start >= |text| then [] else if length >= |text| - start then text[start..] else text[start..start + length]
  }

  /**
   * Every gate before the hyphenation oracle is asked passes: hyphenation is on for the
   * style and locale, the run accommodates both limits, the line leaves room beyond the
   * hyphen, and the prefix that fits reaches the limit-before.
   */
  ghost predicate MayHyphenate(hyphenationIsDisabled: bool, m: TextMeasurer, run: CandidateRun, availableWidth: LayoutUnit)
    requires run.inlineItem.TextItem?
  {
    var item := run.inlineItem;
    var style := item.Style();
    var limitBefore := HyphenationLimit(style.hyphenationLimitBefore);
    var limitAfter := HyphenationLimit(style.hyphenationLimitAfter);
    var availableWidthExcludingHyphen := availableWidth - m.hyphenWidth(style);
    !hyphenationIsDisabled && style.hyphens == HyphensAuto && m.canHyphenate(style.locale)
    && limitBefore < item.length && limitAfter < item.length && limitBefore + limitAfter <= item.length
    && availableWidthExcludingHyphen > 0.0
    && m.enoughWidthForHyphenation(availableWidthExcludingHyphen + style.spaceWidth, style.pixelSize)
    && m.split(item.layoutBox, item.start, item.length, run.logicalWidth, availableWidthExcludingHyphen).length >= limitBefore
  }

  /**
   * What the hyphenation oracle answers for the run's text once the gates pass: the last
   * hyphen location before the end of the fitting prefix, and never within the last
   * `limitAfter` characters.
   */
  ghost function OracleHyphenLocation(hyphenationIsDisabled: bool, m: TextMeasurer, run: CandidateRun, availableWidth: LayoutUnit): nat
    requires run.inlineItem.TextItem? && MayHyphenate(hyphenationIsDisabled, m, run, availableWidth)
  {
    var item := run.inlineItem;
    var style := item.Style();
    var limitAfter := HyphenationLimit(style.hyphenationLimitAfter);
    var fitting := m.split(item.layoutBox, item.start, item.length, run.logicalWidth, availableWidth - m.hyphenWidth(style)).length;
    var searchEnd := (if fitting <= item.length - limitAfter then fitting else item.length - limitAfter) + 1;
    m.lastHyphenLocation(Substring(item.layoutBox.text, item.start, item.length), searchEnd, style.locale)
  }

  /**
   * The hyphenation point `tryBreakingTextRun` looks for in a run that is neither keep-all
   * nor break-all: the last hyphen location inside the fitting prefix that honours the
   * before/after limits, or none.
   */
  function HyphenationLocation(hyphenationIsDisabled: bool, m: TextMeasurer, run: CandidateRun, availableWidth: LayoutUnit)
    : (r: Option<nat>)
    requires run.inlineItem.TextItem?
    ensures r.Some? ==>
      !hyphenationIsDisabled && run.inlineItem.Style().hyphens == HyphensAuto && m.canHyphenate(run.inlineItem.Style().locale)
    ensures r.Some? ==> 0 < r.value && HyphenationLimit(run.inlineItem.Style().hyphenationLimitBefore) <= r.value
    ensures r.Some? ==> availableWidth - m.hyphenWidth(run.inlineItem.Style()) > 0.0
    ensures r.Some? && ValidHyphenation(m) ==>
      r.value + HyphenationLimit(run.inlineItem.Style().hyphenationLimitAfter) <= run.inlineItem.length &&
      r.value <= m.split(run.inlineItem.layoutBox, run.inlineItem.start, run.inlineItem.length, run.logicalWidth,
                         availableWidth - m.hyphenWidth(run.inlineItem.Style())).length
    ensures var before := HyphenationLimit(run.inlineItem.Style().hyphenationLimitBefore);
      var after := HyphenationLimit(run.inlineItem.Style().hyphenationLimitAfter);
      before >= run.inlineItem.length || after >= run.inlineItem.length || before + after > run.inlineItem.length
      ==> r.None?
    // The location is the oracle's answer exactly when every gate passes and the answer is
    // a real location that honours the limit-before.
    ensures r.Some? <==> (MayHyphenate(hyphenationIsDisabled, m, run, availableWidth)
      && OracleHyphenLocation(hyphenationIsDisabled, m, run, availableWidth) != 0
      && OracleHyphenLocation(hyphenationIsDisabled, m, run, availableWidth) >= HyphenationLimit(run.inlineItem.Style().hyphenationLimitBefore))
    ensures r.Some? ==> r.value == OracleHyphenLocation(hyphenationIsDisabled, m, run, availableWidth)
  {
    var item := run.inlineItem;
    var style := item.Style();
    if hyphenationIsDisabled || style.hyphens != HyphensAuto || !m.canHyphenate(style.locale) then None
    else
      var runLength := item.length;
      var limitBefore := HyphenationLimit(style.hyphenationLimitBefore);
      var limitAfter := HyphenationLimit(style.hyphenationLimitAfter);
      // The run has to accommodate the before/after limits at all.
      if limitBefore >= runLength || limitAfter >= runLength || limitBefore + limitAfter > runLength then None
      else
        var availableWidthExcludingHyphen := availableWidth - m.hyphenWidth(style);
        if availableWidthExcludingHyphen <= 0.0
          || !m.enoughWidthForHyphenation(availableWidthExcludingHyphen + style.spaceWidth, style.pixelSize) then None
        else
          var splitData := m.split(item.layoutBox, item.start, runLength, run.logicalWidth, availableWidthExcludingHyphen);
          if splitData.length < limitBefore then None
          else
            // The last potential hyphen location has to leave `limitAfter` characters behind.
            var hyphenBefore := (if splitData.length <= runLength - limitAfter then splitData.length else runLength - limitAfter) + 1;
            var hyphenLocation := m.lastHyphenLocation(Substring(item.layoutBox.text, item.start, item.length), hyphenBefore, style.locale);
            if hyphenLocation == 0 || hyphenLocation < limitBefore then None else Some(hyphenLocation)
  }

  /**
   * `tryBreakingTextRun`: keep-all never splits, break-all splits wherever the text stops
   * fitting, otherwise the run is hyphenated. The hyphenated left side is measured from the
   * run's start to the hyphen location.
   */
  function TryBreakingTextRun(hyphenationIsDisabled: bool, m: TextMeasurer, overflowRun: CandidateRun, availableWidth: LayoutUnit)
    : (r: Option<LeftSide>)
    requires overflowRun.inlineItem.TextItem?
    ensures overflowRun.inlineItem.Style().wordBreak == KeepAll ==> r.None?
    ensures overflowRun.inlineItem.Style().wordBreak == BreakAll ==> r.Some? && !r.value.needsHyphen
    ensures r.Some? && r.value.needsHyphen ==>
      HyphenationLimit(overflowRun.inlineItem.Style().hyphenationLimitBefore) <= r.value.length
    ensures r.Some? && overflowRun.inlineItem.Style().wordBreak != BreakAll ==> r.value.needsHyphen
    ensures r.Some? && ValidSplit(m) && ValidHyphenation(m) ==>
      var item := overflowRun.inlineItem;
      r.value.length <= item.length &&
      r.value.logicalWidth == m.width(item.layoutBox, item.start, item.start + r.value.length)
    // Break-all keeps the prefix that fits; otherwise the run splits exactly at the hyphen location.
    ensures overflowRun.inlineItem.Style().wordBreak == BreakAll ==>
      var item := overflowRun.inlineItem;
      r.value.length == m.split(item.layoutBox, item.start, item.length, overflowRun.logicalWidth, availableWidth).length
    ensures overflowRun.inlineItem.Style().wordBreak !in {KeepAll, BreakAll} ==>
      var location := HyphenationLocation(hyphenationIsDisabled, m, overflowRun, availableWidth);
      (r.Some? <==> location.Some?) && (r.Some? ==> r.value.length == location.value)
  {
    var item := overflowRun.inlineItem;
    var breakWords := item.Style().wordBreak;
    if breakWords == KeepAll then None
    else if breakWords == BreakAll then
      var splitData := m.split(item.layoutBox, item.start, item.length, overflowRun.logicalWidth, availableWidth);
      Some(LeftSide(splitData.length, splitData.logicalWidth, false))
    else
      match HyphenationLocation(hyphenationIsDisabled, m, overflowRun, availableWidth)
      case None => None
      case Some(hyphenLocation) =>
        Some(LeftSide(hyphenLocation, m.width(item.layoutBox, item.start, item.start + hyphenLocation), true))
  }

  /**
   * The hyphenated case of `tryBreakingTextRun` as written: the left side is measured up to
   * the run-relative hyphen location used as an absolute text offset.
   */
  function TryBreakingTextRunAsWritten(hyphenationIsDisabled: bool, m: TextMeasurer, overflowRun: CandidateRun, availableWidth: LayoutUnit)
    : (r: Option<LeftSide>)
    requires overflowRun.inlineItem.TextItem?
    ensures overflowRun.inlineItem.Style().wordBreak !in {KeepAll, BreakAll} ==>
      (r.Some? <==> HyphenationLocation(hyphenationIsDisabled, m, overflowRun, availableWidth).Some?)
    ensures r.Some? && r.value.needsHyphen ==>
      r.value.logicalWidth == m.width(overflowRun.inlineItem.layoutBox, overflowRun.inlineItem.start, r.value.length)
  {
    var item := overflowRun.inlineItem;
    var breakWords := item.Style().wordBreak;
    if breakWords == KeepAll || breakWords == BreakAll then
      TryBreakingTextRun(hyphenationIsDisabled, m, overflowRun, availableWidth)
    else
      match HyphenationLocation(hyphenationIsDisabled, m, overflowRun, availableWidth)
      case None => None
      case Some(hyphenLocation) =>
        Some(LeftSide(hyphenLocation, m.width(item.layoutBox, item.start, hyphenLocation), true))
  }

  /** A measurer whose every character is one unit wide, and whose hyphenation oracle answers 3. */
  function MonospaceMeasurer(): TextMeasurer {
    TextMeasurer(
      (b: LayoutBox, from: nat, to: nat) => if from <= to then (to - from) as real else 0.0,
      (b: LayoutBox, start: nat, length: nat, w: LayoutUnit, a: LayoutUnit) => SplitData(length, length as real),
      (s: Style) => 1.0,
      (l: Locale) => true,
      (a: LayoutUnit, p: LayoutUnit) => true,
      (s: Text, before: nat, l: Locale) => if before > 3 then 3 else 0,
      (f: BreakIteratorFunction, s: Text, p: nat) => p)
  }

  /**
   * [0x61, 0x62, 0x68, 0x79, 0x70, 0x68, 0x65, 0x6E, 0x61, 0x74, 0x69, 0x6F, 0x6E] with the run "hyphenati" starting at offset 2 and a hyphen after
   * "hyp": as written the left side is measured over [2, 3), one character, instead of
   * [2, 5), the three characters that stay on the line.
   */
  lemma HyphenatedWidthAsWrittenCounterexample()
    ensures var m := MonospaceMeasurer();
      var style := Style(Normal, NormalBreak, NBSPNormal, HyphensAuto, InitialHyphenationLimit, InitialHyphenationLimit,
                         0.0, Baseline, 0, FontMetrics(8, 2, 10), 12, 1.0, 10.0);
      var geometry := BoxGeometry(0.0, 0.0, 0.0, 0.0, 0.0, 0.0, 0.0, 0.0, 0.0, 0.0, 0.0, 0.0, 0.0, LineBaseline(0.0, 0.0));
      var box := LayoutBox(1, style, geometry, [0x61, 0x62, 0x68, 0x79, 0x70, 0x68, 0x65, 0x6E, 0x61, 0x74, 0x69, 0x6F, 0x6E], true, false, false, false, false, false);
      var run := CandidateRun(TextItem(box, 2, 9, None, NonWhitespace), 9.0);
      ValidSplit(m) && ValidHyphenation(m) &&
      TryBreakingTextRunAsWritten(false, m, run, 5.0) == Some(LeftSide(3, 1.0, true)) &&
      TryBreakingTextRun(false, m, run, 5.0) == Some(LeftSide(3, 3.0, true))
  {
    var m := MonospaceMeasurer();
    var style := Style(Normal, NormalBreak, NBSPNormal, HyphensAuto, InitialHyphenationLimit, InitialHyphenationLimit,
                       0.0, Baseline, 0, FontMetrics(8, 2, 10), 12, 1.0, 10.0);
    var geometry := BoxGeometry(0.0, 0.0, 0.0, 0.0, 0.0, 0.0, 0.0, 0.0, 0.0, 0.0, 0.0, 0.0, 0.0, LineBaseline(0.0, 0.0));
    var box := LayoutBox(1, style, geometry, [0x61, 0x62, 0x68, 0x79, 0x70, 0x68, 0x65, 0x6E, 0x61, 0x74, 0x69, 0x6F, 0x6E], true, false, false, false, false, false);
    var run := CandidateRun(TextItem(box, 2, 9, None, NonWhitespace), 9.0);
    MonospaceMeasurerIsValid();
    assert HyphenationLimit(InitialHyphenationLimit) == 0;
    assert m.split(box, 2, 9, 9.0, 4.0) == SplitData(9, 9.0);
    assert m.lastHyphenLocation(Substring(box.text, 2, 9), 10, 0) == 3;
    assert HyphenationLocation(false, m, run, 5.0) == Some(3);
    assert m.width(box, 2, 3) == 1.0 && m.width(box, 2, 5) == 3.0;
  }

  lemma MonospaceMeasurerIsValid()
    ensures ValidSplit(MonospaceMeasurer()) && ValidHyphenation(MonospaceMeasurer())
  {
  }

  // ---------------------------------------------------------------------------------------
  // Finding the split point.

  /**
   * The first run at which the accumulated width exceeds the available width and that may
   * be wrapped, scanning from `i`; `|runs|` when there is none.
   */
  function OverflowIndex(runs: seq<CandidateRun>, availableWidth: LayoutUnit, i: nat): (k: nat)
    requires i <= |runs|
    ensures i <= k <= |runs|
    ensures k < |runs| ==>
      AccumulatedWidth(runs, k) + runs[k].logicalWidth > availableWidth && IsContentWrappingAllowed(runs[k])
    ensures forall j :: i <= j < k ==>
      !(AccumulatedWidth(runs, j) + runs[j].logicalWidth > availableWidth && IsContentWrappingAllowed(runs[j]))
    decreases |runs| - i
  {
    if i == |runs| then i
    else if AccumulatedWidth(runs, i) + runs[i].logicalWidth > availableWidth && IsContentWrappingAllowed(runs[i]) then i
    else OverflowIndex(runs, availableWidth, i + 1)
  }

  /** The last wrappable run before `k`, taken whole. */
  function LastWrappableBefore(runs: seq<CandidateRun>, k: nat): (r: Option<PartialTrailingContent>)
    requires k <= |runs|
    ensures r.Some? ==> r.value.trailingRunIndex < k && IsContentWrappingAllowed(runs[r.value.trailingRunIndex])
    ensures r.Some? ==> (r.value.length == runs[r.value.trailingRunIndex].inlineItem.length &&
      r.value.logicalWidth == runs[r.value.trailingRunIndex].logicalWidth && !r.value.needsHyphen)
    ensures r.Some? ==> forall j :: r.value.trailingRunIndex < j < k ==> !IsContentWrappingAllowed(runs[j])
    ensures r.None? <==> forall j :: 0 <= j < k ==> !IsContentWrappingAllowed(runs[j])
  {
    if k == 0 then None
    else if IsContentWrappingAllowed(runs[k - 1]) then
      Some(PartialTrailingContent(k - 1, runs[k - 1].inlineItem.length, runs[k - 1].logicalWidth, false))
    else LastWrappableBefore(runs, k - 1)
  }

  /**
   * `wordBreakingBehavior`: the overflowing wrappable run is split if it can be; otherwise
   * the last wrappable run before it is wrapped at its end, where it surely fits.
   */
  function WordBreaking(hyphenationIsDisabled: bool, m: TextMeasurer, runs: seq<CandidateRun>, availableWidth: LayoutUnit)
    : Option<PartialTrailingContent>
  {
    var k := OverflowIndex(runs, availableWidth, 0);
    if k == |runs| then LastWrappableBefore(runs, k)
    else
      var adjustedAvailableWidth := if availableWidth - AccumulatedWidth(runs, k) > 0.0 then availableWidth - AccumulatedWidth(runs, k) else 0.0;
      match TryBreakingTextRun(hyphenationIsDisabled, m, runs[k], adjustedAvailableWidth)
      case Some(leftSide) => Some(PartialTrailingContent(k, leftSide.length, leftSide.logicalWidth, leftSide.needsHyphen))
      case None => LastWrappableBefore(runs, k)
  }

  /**
   * A split point always names a wrappable text run of the candidate; without a wrappable
   * run there is none, and when none is found no run before the overflowing one may wrap.
   */
  lemma WordBreakingNamesWrappableRun(hyphenationIsDisabled: bool, m: TextMeasurer, runs: seq<CandidateRun>, availableWidth: LayoutUnit)
    ensures var r := WordBreaking(hyphenationIsDisabled, m, runs, availableWidth);
      r.Some? ==> r.value.trailingRunIndex < |runs| && IsContentWrappingAllowed(runs[r.value.trailingRunIndex])
    ensures (forall j :: 0 <= j < |runs| ==> !IsContentWrappingAllowed(runs[j]))
      ==> WordBreaking(hyphenationIsDisabled, m, runs, availableWidth).None?
    ensures WordBreaking(hyphenationIsDisabled, m, runs, availableWidth).None? ==>
      forall j :: 0 <= j < OverflowIndex(runs, availableWidth, 0) ==> !IsContentWrappingAllowed(runs[j])
  {
  }

  /**
   * Every split point the breaker hands out leaves the measured prefix of its run on the
   * line: a prefix of the run, whose width is the measured width of that prefix.
   */
  lemma WordBreakingLeftSideIsMeasuredPrefix(hyphenationIsDisabled: bool, m: TextMeasurer, runs: seq<CandidateRun>, availableWidth: LayoutUnit)
    requires ValidSplit(m) && ValidHyphenation(m)
    ensures var r := WordBreaking(hyphenationIsDisabled, m, runs, availableWidth);
      r.Some? ==>
        var run := runs[r.value.trailingRunIndex];
        r.value.trailingRunIndex < |runs| && run.inlineItem.TextItem? && r.value.length <= run.inlineItem.length &&
        (r.value.needsHyphen || r.value.length < run.inlineItem.length ==>
          r.value.logicalWidth == m.width(run.inlineItem.layoutBox, run.inlineItem.start, run.inlineItem.start + r.value.length))
  {
    var k := OverflowIndex(runs, availableWidth, 0);
    if k < |runs| {
      var adjustedAvailableWidth := if availableWidth - AccumulatedWidth(runs, k) > 0.0 then availableWidth - AccumulatedWidth(runs, k) else 0.0;
      var leftSide := TryBreakingTextRun(hyphenationIsDisabled, m, runs[k], adjustedAvailableWidth);
      if leftSide.Some? {
        assert WordBreaking(hyphenationIsDisabled, m, runs, availableWidth)
          == Some(PartialTrailingContent(k, leftSide.value.length, leftSide.value.logicalWidth, leftSide.value.needsHyphen));
        return;
      }
    }
    assert WordBreaking(hyphenationIsDisabled, m, runs, availableWidth) == LastWrappableBefore(runs, k);
  }

  /** `wordBreakingBehavior`: the forward scan for the overflowing run, then the backward scan. */
  method WordBreakingBehavior(hyphenationIsDisabled: bool, m: TextMeasurer, runs: seq<CandidateRun>, availableWidth: LayoutUnit)
    returns (r: Option<PartialTrailingContent>)
    ensures r == WordBreaking(hyphenationIsDisabled, m, runs, availableWidth)
  {
    var index, accumulatedRunWidth := FindOverflowingRun(runs, availableWidth);
    if index < |runs| {
      // The available width may well be negative by now: an earlier run could not be broken.
      var adjustedAvailableWidth := if availableWidth - accumulatedRunWidth > 0.0 then availableWidth - accumulatedRunWidth else 0.0;
      var leftSide := TryBreakingTextRun(hyphenationIsDisabled, m, runs[index], adjustedAvailableWidth);
      if leftSide.Some? {
        return Some(PartialTrailingContent(index, leftSide.value.length, leftSide.value.logicalWidth, leftSide.value.needsHyphen));
      }
    }
    // The overflowing run could not be broken: wrap the last wrappable run before it.
    r := FindLastWrappableRun(runs, index);
  }

  /** The forward scan: the first wrappable run that does not fit, and the width before it. */
  method FindOverflowingRun(runs: seq<CandidateRun>, availableWidth: LayoutUnit) returns (index: nat, accumulatedRunWidth: LayoutUnit)
    ensures index == OverflowIndex(runs, availableWidth, 0)
    ensures accumulatedRunWidth == AccumulatedWidth(runs, index)
  {
    accumulatedRunWidth := 0.0;
    index := 0;
    while index < |runs|
      invariant index <= |runs|
      invariant accumulatedRunWidth == AccumulatedWidth(runs, index)
      invariant OverflowIndex(runs, availableWidth, 0) == OverflowIndex(runs, availableWidth, index)
    {
      var run := runs[index];
      if accumulatedRunWidth + run.logicalWidth > availableWidth && IsContentWrappingAllowed(run) {
        return;
      }
      accumulatedRunWidth := accumulatedRunWidth + run.logicalWidth;
      index := index + 1;
    }
  }

  /** The backward scan: the last wrappable run before `index`, taken whole. */
  method FindLastWrappableRun(runs: seq<CandidateRun>, index: nat) returns (r: Option<PartialTrailingContent>)
    requires index <= |runs|
    ensures r == LastWrappableBefore(runs, index)
  {
    var i: nat := index;
    while i > 0
      invariant i <= index
      invariant LastWrappableBefore(runs, index) == LastWrappableBefore(runs, i)
    {
      i := i - 1;
      var run := runs[i];
      if IsContentWrappingAllowed(run) {
        return Some(PartialTrailingContent(i, run.inlineItem.length, run.logicalWidth, false));
      }
    }
    return None;
  }

  // ---------------------------------------------------------------------------------------
  // The decision table.

  /** `Content::hasTrailingTrimmableContent()`. */
  predicate HasTrailingTrimmableContent(trailing: TrailingTrimmableContent) {
    trailing.width != 0.0
  }

  /**
   * The candidate stays on the line without any breaking: it fits, it fits once its own
   * trailing trimmable part is trimmed, it is fully trimmable after a line that ends in fully
   * trimmable content, or it is container markers that fit once the line's trailing
   * whitespace is trimmed.
   */
  ghost predicate FitsOnLine(runs: seq<CandidateRun>, width: LayoutUnit, trailing: TrailingTrimmableContent, lineStatus: LineStatus) {
    width <= lineStatus.availableWidth
    || (HasTrailingTrimmableContent(trailing) && width - trailing.width <= lineStatus.availableWidth)
    || (HasTrailingTrimmableContent(trailing) && lineStatus.lineHasFullyTrimmableTrailingRun && trailing.isFullyTrimmable)
    || (!HasTrailingTrimmableContent(trailing) && lineStatus.trimmableWidth != 0.0 && HasNonContentRunsOnly(runs)
        && width <= lineStatus.availableWidth + lineStatus.trimmableWidth)
  }

  /**
   * `breakingContextForInlineContent`: continuous candidate content of the given runs,
   * width and trailing trimmable part, against the line's status.
   */
  function BreakingContextForInlineContent(
    hyphenationIsDisabled: bool, m: TextMeasurer,
    runs: seq<CandidateRun>, width: LayoutUnit, trailing: TrailingTrimmableContent, lineStatus: LineStatus)
    : (r: BreakingContext)
    // Content that fits, possibly once trailing trimmable content is trimmed, stays.
    ensures FitsOnLine(runs, width, trailing, lineStatus) ==> r.contentWrappingRule == Keep
    // A split point is handed out exactly when the rule is Split, and only for text.
    ensures r.partialTrailingContent.Some? <==> r.contentWrappingRule == Split
    ensures r.contentWrappingRule == Split ==> (HasTextContentOnly(runs) &&
      r.partialTrailingContent == WordBreaking(hyphenationIsDisabled, m, runs, lineStatus.availableWidth))
    // Non-text content that does not fit is kept on an empty line and pushed otherwise.
    ensures !HasTextContentOnly(runs) && r.contentWrappingRule != Keep ==> r.contentWrappingRule == Push
    ensures !HasTextContentOnly(runs) && lineStatus.lineIsEmpty ==> r.contentWrappingRule == Keep
    // Text that cannot be split is kept when it may not move (empty line, unwrappable
    // first run, hanging pre-wrap whitespace) and pushed otherwise.
    ensures HasTextContentOnly(runs) && r.contentWrappingRule == Push ==>
      !lineStatus.lineIsEmpty && IsContentWrappingAllowed(runs[0]) && !IsTrailingWhitespaceWithPreWrap(runs[|runs| - 1].inlineItem)
    // The converse directions: what does not fit is split, pushed or kept by these rules alone.
    ensures !FitsOnLine(runs, width, trailing, lineStatus) && HasTextContentOnly(runs)
      && WordBreaking(hyphenationIsDisabled, m, runs, lineStatus.availableWidth).Some?
      ==> r.contentWrappingRule == Split
    ensures !FitsOnLine(runs, width, trailing, lineStatus) && HasTextContentOnly(runs)
      && WordBreaking(hyphenationIsDisabled, m, runs, lineStatus.availableWidth).None?
      ==> (r.contentWrappingRule == Push <==>
        !lineStatus.lineIsEmpty && IsContentWrappingAllowed(runs[0]) && !IsTrailingWhitespaceWithPreWrap(runs[|runs| - 1].inlineItem))
    ensures !FitsOnLine(runs, width, trailing, lineStatus) && !HasTextContentOnly(runs)
      ==> (r.contentWrappingRule == Push <==> !lineStatus.lineIsEmpty)
  {
    var availableWidth := lineStatus.availableWidth;
    if width <= availableWidth then BreakingContext(Keep, None)
    else if HasTrailingTrimmableContent(trailing) && width - trailing.width <= availableWidth then BreakingContext(Keep, None)
    else if HasTrailingTrimmableContent(trailing) && lineStatus.lineHasFullyTrimmableTrailingRun && trailing.isFullyTrimmable then
      BreakingContext(Keep, None)
    else if !HasTrailingTrimmableContent(trailing) && lineStatus.trimmableWidth != 0.0 && HasNonContentRunsOnly(runs)
      && width <= availableWidth + lineStatus.trimmableWidth then
      BreakingContext(Keep, None)
    else if HasTextContentOnly(runs) then
      var partialTrailingContent := WordBreaking(hyphenationIsDisabled, m, runs, availableWidth);
      if partialTrailingContent.Some? then BreakingContext(Split, partialTrailingContent)
      else
        // No run could be broken: keep or push the whole candidate.
        var contentShouldOverflow := lineStatus.lineIsEmpty || !IsContentWrappingAllowed(runs[0])
          || IsTrailingWhitespaceWithPreWrap(runs[|runs| - 1].inlineItem);
        BreakingContext(if contentShouldOverflow then Keep else Push, None)
    else
      // The first non-text content always stays on the line.
      BreakingContext(if lineStatus.lineIsEmpty then Keep else Push, None)
  }

  /**
   * The breaker always makes progress and never pushes what fits: a Push leaves a non-empty
   * line behind and only happens to content wider than the available width.
   */
  lemma PushOnlyFromNonEmptyLine(
    hyphenationIsDisabled: bool, m: TextMeasurer,
    runs: seq<CandidateRun>, width: LayoutUnit, trailing: TrailingTrimmableContent, lineStatus: LineStatus)
    ensures var r := BreakingContextForInlineContent(hyphenationIsDisabled, m, runs, width, trailing, lineStatus);
      r.contentWrappingRule == Push ==> !lineStatus.lineIsEmpty && width > lineStatus.availableWidth
    ensures var r := BreakingContextForInlineContent(hyphenationIsDisabled, m, runs, width, trailing, lineStatus);
      r.contentWrappingRule == Split ==>
        var p := r.partialTrailingContent.value;
        p.trailingRunIndex < |runs| && runs[p.trailingRunIndex].inlineItem.TextItem?
  {
    WordBreakingNamesWrappableRun(hyphenationIsDisabled, m, runs, lineStatus.availableWidth);
  }

  /** `shouldWrapFloatBox`: a float moves to the next line only off a non-empty line it does not fit. */
  function ShouldWrapFloatBox(floatLogicalWidth: LayoutUnit, availableWidth: LayoutUnit, lineIsEmpty: bool): (r: bool)
    ensures lineIsEmpty ==> !r
    ensures floatLogicalWidth <= availableWidth ==> !r
    ensures !lineIsEmpty && floatLogicalWidth > availableWidth ==> r
  {
    !lineIsEmpty && floatLogicalWidth > availableWidth
  }

  // ---------------------------------------------------------------------------------------
  // Commit boundaries (section 5.1 of CSS Text Module Level 3).

  /**
   * Whether the incoming item puts the uncommitted content on a commit boundary. The cases
   * the engine marks unreachable fall through to `true`.
   */
  function IsAtContentBoundary(inlineItem: InlineItem, runs: seq<CandidateRun>): (r: bool)
    ensures runs == [] ==> !r
    ensures runs != [] && inlineItem.IsWhitespace() ==> r
    ensures (runs != [] && runs[|runs| - 1].inlineItem.ContainerStart? && !inlineItem.IsWhitespace() &&
      (inlineItem.TextItem? || inlineItem.BoxItem? || inlineItem.IsContainerMarker())) ==> !r
  {
    if runs == [] then false // Can't decide it yet.
    else
      var last := runs[|runs| - 1].inlineItem;
      if inlineItem.TextItem? then
        if inlineItem.IsWhitespace() then true
        else if last.ContainerStart? then false
        else
          // </span>text: look through the container markers for the content before them.
          var previous := if last.ContainerEnd? then LastContentIndex(runs, |runs|) else Some(|runs| - 1);
          if previous.None? then false
          else
            var lastContent := runs[previous.value].inlineItem;
            if lastContent.TextItem? then
              lastContent.IsWhitespace() || inlineItem.layoutBox.id == lastContent.layoutBox.id
            else true
      else if inlineItem.BoxItem? then
        !last.ContainerStart?
      else if inlineItem.IsContainerMarker() then
        if last.IsContainerMarker() then false
        else if last.TextItem? then last.IsWhitespace()
        else if last.BoxItem? then inlineItem.ContainerStart?
        else true
      else true
  }

  /** Text glued to text of another box (`<span>a</span>b`) stays uncommitted; text after text of its own box commits. */
  lemma {:induction false} TextAfterTextBoundary(inlineItem: InlineItem, runs: seq<CandidateRun>, k: nat)
    requires inlineItem.TextItem? && !inlineItem.IsWhitespace()
    requires k < |runs| && runs[k].inlineItem.TextItem?
    requires forall i :: k < i < |runs| ==> runs[i].inlineItem.ContainerEnd?
    ensures IsAtContentBoundary(inlineItem, runs)
      <==> runs[k].inlineItem.IsWhitespace() || inlineItem.layoutBox.id == runs[k].inlineItem.layoutBox.id
  {
    if k < |runs| - 1 {
      LastContentIndexSkipsMarkers(runs, |runs|, k);
    }
  }

  lemma {:induction false} LastContentIndexSkipsMarkers(runs: seq<CandidateRun>, n: nat, k: nat)
    requires k < n <= |runs| && !runs[k].inlineItem.IsContainerMarker()
    requires forall i :: k < i < n ==> runs[i].inlineItem.IsContainerMarker()
    ensures LastContentIndex(runs, n) == Some(k)
    decreases n
  {
    if n - 1 != k {
      LastContentIndexSkipsMarkers(runs, n - 1, k);
    }
  }

  /** `isAtContentBoundary`, with its backward scan over container markers. */
  method IsAtContentBoundaryScan(inlineItem: InlineItem, runs: seq<CandidateRun>) returns (r: bool)
    ensures r == IsAtContentBoundary(inlineItem, runs)
  {
    if runs == [] {
      return false;
    }
    var lastUncommittedContent := runs[|runs| - 1].inlineItem;
    if inlineItem.TextItem? {
      if inlineItem.IsWhitespace() {
        return true;
      }
      if lastUncommittedContent.ContainerStart? {
        return false;
      }
      if lastUncommittedContent.ContainerEnd? {
        var i: nat := |runs|;
        while i > 0 && runs[i - 1].inlineItem.IsContainerMarker()
          invariant i <= |runs|
          invariant LastContentIndex(runs, |runs|) == LastContentIndex(runs, i)
        {
          i := i - 1;
        }
        // No content before the container markers (`<span></span>text`).
        if i == 0 {
          return false;
        }
        lastUncommittedContent := runs[i - 1].inlineItem;
      }
      if lastUncommittedContent.TextItem? {
        return lastUncommittedContent.IsWhitespace() || inlineItem.layoutBox.id == lastUncommittedContent.layoutBox.id;
      }
      return true;
    }
    if inlineItem.BoxItem? {
      return !lastUncommittedContent.ContainerStart?;
    }
    if inlineItem.IsContainerMarker() {
      if lastUncommittedContent.IsContainerMarker() {
        return false;
      }
      if lastUncommittedContent.TextItem? {
        return lastUncommittedContent.IsWhitespace();
      }
      if lastUncommittedContent.BoxItem? {
        return inlineItem.ContainerStart?;
      }
    }
    return true;
  }

  // ---------------------------------------------------------------------------------------
  // The candidate content buffer.

  /** Trailing whitespace that `pre`, `pre-wrap` and `break-spaces` do not preserve is fully trimmable. */
  predicate IsFullyTrimmable(item: InlineItem) {
    item.IsWhitespace() && !item.Style().ShouldPreserveTrailingWhitespace()
  }

  /** The trailing trimmable state after appending `item` of the given width. */
  function TrailingAfterAppend(trailing: TrailingTrimmableContent, item: InlineItem, logicalWidth: LayoutUnit)
    : TrailingTrimmableContent
  {
    if item.BoxItem? || item.IsLineBreak() then NoTrailingTrimmableContent
    else if item.TextItem? then
      if IsFullyTrimmable(item) then TrailingTrimmableContent(trailing.width + logicalWidth, true)
      else if item.Style().letterSpacing != 0.0 then TrailingTrimmableContent(item.Style().letterSpacing, false)
      else NoTrailingTrimmableContent
    else trailing
  }

  /** The trailing trimmable state of a candidate built from `runs` by appending them in order. */
  function TrailingOf(runs: seq<CandidateRun>): TrailingTrimmableContent {
    if runs == [] then NoTrailingTrimmableContent
    else TrailingAfterAppend(TrailingOf(runs[..|runs| - 1]), runs[|runs| - 1].inlineItem, runs[|runs| - 1].logicalWidth)
  }

  /**
   * The trailing state is fully trimmable exactly when the last content run (looking through
   * container markers) is fully trimmable whitespace; it is cleared when that run is an
   * atomic box or a line break, or when there is no content run at all.
   */
  lemma {:induction false} TrailingOfLastContent(runs: seq<CandidateRun>)
    requires forall i :: 0 <= i < |runs| ==> !runs[i].inlineItem.FloatItem?
    ensures var last := LastContentIndex(runs, |runs|);
      TrailingOf(runs).isFullyTrimmable <==> last.Some? && IsFullyTrimmable(runs[last.value].inlineItem)
    ensures var last := LastContentIndex(runs, |runs|);
      last.None? || runs[last.value].inlineItem.BoxItem? || runs[last.value].inlineItem.IsLineBreak()
      ==> TrailingOf(runs) == NoTrailingTrimmableContent
    ensures var last := LastContentIndex(runs, |runs|);
      last.Some? && runs[last.value].inlineItem.TextItem? && !IsFullyTrimmable(runs[last.value].inlineItem)
      ==> TrailingOf(runs) == TrailingTrimmableContent(runs[last.value].inlineItem.Style().letterSpacing, false)
          || (TrailingOf(runs) == NoTrailingTrimmableContent && runs[last.value].inlineItem.Style().letterSpacing == 0.0)
    decreases |runs|
  {
    if runs != [] {
      var init := runs[..|runs| - 1];
      assert forall i :: 0 <= i < |init| ==> init[i] == runs[i];
      TrailingOfLastContent(init);
      if runs[|runs| - 1].inlineItem.IsContainerMarker() {
        LastContentIndexOfPrefix(runs);
      }
    }
  }

  lemma LastContentIndexOfPrefix(runs: seq<CandidateRun>)
    requires runs != [] && runs[|runs| - 1].inlineItem.IsContainerMarker()
    ensures LastContentIndex(runs, |runs|) == LastContentIndex(runs[..|runs| - 1], |runs| - 1)
  {
    LastContentIndexPrefix(runs, runs[..|runs| - 1], |runs| - 1);
  }

  lemma {:induction false} LastContentIndexPrefix(runs: seq<CandidateRun>, prefix: seq<CandidateRun>, k: nat)
    requires k <= |prefix| <= |runs| && prefix == runs[..|prefix|]
    ensures LastContentIndex(runs, k) == LastContentIndex(prefix, k)
    decreases k
  {
    if k > 0 {
      assert runs[k - 1] == prefix[k - 1];
      LastContentIndexPrefix(runs, prefix, k - 1);
    }
  }

  lemma AccumulatedWidthPrefix(runs: seq<CandidateRun>, extra: CandidateRun)
    ensures TotalWidth(runs + [extra]) == TotalWidth(runs) + extra.logicalWidth
  {
    AccumulatedWidthOfPrefix(runs + [extra], runs, |runs|);
  }

  lemma {:induction false} AccumulatedWidthOfPrefix(runs: seq<CandidateRun>, prefix: seq<CandidateRun>, k: nat)
    requires k <= |prefix| <= |runs| && prefix == runs[..|prefix|]
    ensures AccumulatedWidth(runs, k) == AccumulatedWidth(prefix, k)
    decreases k
  {
    if k > 0 {
      assert runs[k - 1] == prefix[k - 1];
      AccumulatedWidthOfPrefix(runs, prefix, k - 1);
    }
  }

  /** `LineBreaker::Content`: the continuous candidate runs, their width and trailing trimmable part. */
  class Content {
    var runs: seq<CandidateRun>
    var width: LayoutUnit
    var trailingTrimmableContent: TrailingTrimmableContent

    /** The width is the runs' total and the trailing state is the one their appends produce. */
    ghost predicate Valid()
      reads this
    {
      width == TotalWidth(runs) && trailingTrimmableContent == TrailingOf(runs)
    }

    constructor ()
      ensures Valid() && runs == []
    {
      runs := [];
      width := 0.0;
      trailingTrimmableContent := NoTrailingTrimmableContent;
    }

    predicate IsEmpty()
      reads this
    {
      runs == []
    }

    /** The width without the trailing trimmable part (`nonTrimmableWidth`). */
    function NonTrimmableWidth(): LayoutUnit
      reads this
    {
      width - trailingTrimmableContent.width
    }

    /** `Content::append`: floats never enter the candidate content. */
    method Append(inlineItem: InlineItem, logicalWidth: LayoutUnit)
      requires !inlineItem.FloatItem?
      modifies this
      ensures old(Valid()) ==> Valid()
      ensures runs == old(runs) + [CandidateRun(inlineItem, logicalWidth)]
      ensures width == old(width) + logicalWidth
      ensures inlineItem.BoxItem? || inlineItem.IsLineBreak() ==> trailingTrimmableContent == NoTrailingTrimmableContent
      ensures IsFullyTrimmable(inlineItem) ==>
        trailingTrimmableContent == TrailingTrimmableContent(old(trailingTrimmableContent.width) + logicalWidth, true)
      ensures inlineItem.TextItem? && !IsFullyTrimmable(inlineItem) && inlineItem.Style().letterSpacing != 0.0 ==>
        trailingTrimmableContent == TrailingTrimmableContent(inlineItem.Style().letterSpacing, false)
      ensures inlineItem.TextItem? && !IsFullyTrimmable(inlineItem) && inlineItem.Style().letterSpacing == 0.0 ==>
        trailingTrimmableContent == NoTrailingTrimmableContent
      ensures inlineItem.IsContainerMarker() ==> trailingTrimmableContent == old(trailingTrimmableContent)
    {
      AccumulatedWidthPrefix(runs, CandidateRun(inlineItem, logicalWidth));
      var newRuns := runs + [CandidateRun(inlineItem, logicalWidth)];
      assert newRuns[..|newRuns| - 1] == runs;
      runs := newRuns;
      width := width + logicalWidth;
      if inlineItem.BoxItem? || inlineItem.IsLineBreak() {
        trailingTrimmableContent := NoTrailingTrimmableContent;
      } else if inlineItem.TextItem? {
        if IsFullyTrimmable(inlineItem) {
          trailingTrimmableContent := TrailingTrimmableContent(trailingTrimmableContent.width + logicalWidth, true);
        } else if inlineItem.Style().letterSpacing != 0.0 {
          trailingTrimmableContent := TrailingTrimmableContent(inlineItem.Style().letterSpacing, false);
        } else {
          trailingTrimmableContent := NoTrailingTrimmableContent;
        }
      }
    }

    /** `Content::reset`. */
    method Reset()
      modifies this
      ensures Valid() && runs == [] && width == 0.0 && trailingTrimmableContent == NoTrailingTrimmableContent
    {
      runs := [];
      trailingTrimmableContent := NoTrailingTrimmableContent;
      width := 0.0;
    }

    /**
     * `Content::trim`, as written: the widths of all runs, not only of the removed ones, are
     * subtracted, so a consistent buffer is left with width 0 whatever it keeps.
     */
    method Trim(newSize: nat)
      requires newSize <= |runs|
      modifies this
      ensures runs == old(runs)[..newSize]
      ensures width == old(width) - TotalWidth(old(runs))
      ensures old(Valid()) ==> width == 0.0
      ensures trailingTrimmableContent == old(trailingTrimmableContent)
    {
      var newWidth := width;
      var i: nat := |runs|;
      while i > 0
        invariant i <= |runs|
        invariant newWidth == width - (TotalWidth(runs) - AccumulatedWidth(runs, i))
      {
        i := i - 1;
        newWidth := newWidth - runs[i].logicalWidth;
      }
      width := newWidth;
      runs := runs[..newSize];
    }

    /** `Content::hasTextContentOnly`. */
    method HasTextContentOnlyScan() returns (r: bool)
      ensures r == HasTextContentOnly(runs)
    {
      var i := 0;
      while i < |runs|
        invariant i <= |runs|
        invariant forall j :: 0 <= j < i ==> runs[j].inlineItem.IsContainerMarker()
      {
        var inlineItem := runs[i].inlineItem;
        if inlineItem.IsContainerMarker() {
          i := i + 1;
          continue;
        }
        FirstContentIndexIs(runs, i);
        return inlineItem.TextItem?;
      }
      return false;
    }

    /** `Content::hasNonContentRunsOnly`. */
    method HasNonContentRunsOnlyScan() returns (r: bool)
      ensures r == HasNonContentRunsOnly(runs)
    {
      var i := 0;
      while i < |runs|
        invariant i <= |runs|
        invariant forall j :: 0 <= j < i ==> runs[j].inlineItem.IsContainerMarker()
      {
        if runs[i].inlineItem.IsContainerMarker() {
          i := i + 1;
          continue;
        }
        return false;
      }
      HasNonContentRunsOnlyMeaning(runs);
      return true;
    }
  }

  lemma {:induction false} FirstContentIndexIs(runs: seq<CandidateRun>, i: nat)
    requires i < |runs| && !runs[i].inlineItem.IsContainerMarker()
    requires forall j :: 0 <= j < i ==> runs[j].inlineItem.IsContainerMarker()
    ensures FirstContentIndex(runs) == Some(i)
  {
  }
}
