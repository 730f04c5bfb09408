/**
 * `LineBuilder`: the line under construction. Inline items are appended one at a time as
 * runs placed at the current content width; trailing whitespace and trailing letter spacing
 * are tracked in a window over the run vector (`TrimmableContent`) so that they can be
 * trimmed; `close` trims, merges continuous text and aligns the line.
 */
module InlineLineBuilder {
  import opened Wrappers
  import opened LayoutStyle
  import opened InlineItems
  import opened InlineLineRuns

  // ---------------------------------------------------------------------------------------
  // Constraints.

  datatype HeightAndBaseline = HeightAndBaseline(height: LayoutUnit, baselineOffset: LayoutUnit, strut: Option<LineBaseline>)

  /** `LineBuilder::Constraints`: where the line starts, how wide it may be and its initial strut. */
  datatype Constraints = Constraints(
    logicalTop: LayoutUnit,
    logicalLeft: LayoutUnit,
    availableLogicalWidth: LayoutUnit,
    lineIsConstrainedByFloat: bool,
    heightAndBaseline: Option<HeightAndBaseline>)

  // ---------------------------------------------------------------------------------------
  // The trailing trimmable window.

  /** A text run whose end may be trimmed: trimmable whitespace, or text with trailing letter spacing. */
  predicate TrimmableText(r: InlineItemRun) {
    r.IsText() && (r.IsTrimmableWhitespace() || r.HasTrailingLetterSpacing())
  }

  /** Once a window is open, only trimmable whitespace, container markers and line breaks extend it. */
  predicate MayFollowInWindow(r: InlineItemRun) {
    r.IsTrimmableWhitespace() || r.inlineItem.IsContainerMarker() || r.IsLineBreak()
  }

  /**
   * What a run adds to the window's width: the whitespace width (never negative, even with a
   * negative word-spacing) or the letter spacing; nothing for non-text runs.
   */
  function TrimmableWidth(r: InlineItemRun): (w: LayoutUnit)
    ensures w >= 0.0
    ensures r.IsTrimmableWhitespace() && r.logicalWidth >= 0.0 ==> w == r.logicalWidth
  {
    if !r.IsText() then 0.0
    else if r.IsTrimmableWhitespace() then (if r.logicalWidth > 0.0 then r.logicalWidth else 0.0)
    else r.TrailingLetterSpacing()
  }

  /** The summed trimmable width of the window `runs[first..end]`. */
  function WindowWidth(runs: seq<InlineItemRun>, first: nat, end: nat): LayoutUnit
    requires end <= |runs|
  {
    if end <= first then 0.0 else WindowWidth(runs, first, end - 1) + TrimmableWidth(runs[end - 1])
  }

  predicate HasTextAfter(runs: seq<InlineItemRun>, first: nat) {
    exists k :: first < k < |runs| && runs[k].IsText()
  }

  /** `LineBuilder::TrimmableContent`: the first run of the window, its width and what its last run is. */
  datatype TrimmableContent = TrimmableContent(firstRunIndex: Option<nat>, width: LayoutUnit, lastRunIsFullyTrimmable: bool) {
    predicate IsEmpty() { firstRunIndex.None? }
    predicate IsTrailingRunFullyTrimmable() { lastRunIsFullyTrimmable }
    /** A window is open and its last run keeps something that trimming does not remove. */
    predicate IsTrailingRunPartiallyTrimmable()
      ensures IsTrailingRunPartiallyTrimmable() <==> firstRunIndex.Some? && !lastRunIsFullyTrimmable
    {
      !IsEmpty() && !IsTrailingRunFullyTrimmable()
    }

    /**
     * `TrimmableContent::append`: the run at `runIndex` joins the window. The window's start is
     * set only once, its width never shrinks, and the last run is fully trimmable exactly
     * when it is trimmable whitespace.
     */
    function Append(runIndex: nat, run: InlineItemRun): (t: TrimmableContent)
      ensures t.firstRunIndex == Some(if IsEmpty() then runIndex else firstRunIndex.value)
      ensures t.width == width + TrimmableWidth(run) && t.width >= width
      ensures t.IsTrailingRunFullyTrimmable() <==> run.IsTrimmableWhitespace()
    {
      TrimmableContent(Some(firstRunIndex.ValueOr(runIndex)), width + TrimmableWidth(run), run.IsTrimmableWhitespace())
    }
  }

  /** `TrimmableContent::reset`: no window, no width, not fully trimmable. */
  const NoTrimmableContent := TrimmableContent(None, 0.0, false)

  /**
   * The window bookkeeping agrees with the runs: the first run of the window is trimmable text,
   * only whitespace, container markers and line breaks follow it, the tracked width is the
   * window's trimmable width, and the last trimmable run is fully trimmable exactly when it is
   * whitespace.
   */
  ghost predicate TracksTrailingContent(runs: seq<InlineItemRun>, t: TrimmableContent) {
    match t.firstRunIndex
    case None => t.width == 0.0 && !t.lastRunIsFullyTrimmable
    case Some(first) =>
      first < |runs| && TrimmableText(runs[first])
      && (forall k :: first < k < |runs| ==> MayFollowInWindow(runs[k]))
      && t.width == WindowWidth(runs, first, |runs|)
      && (t.lastRunIsFullyTrimmable <==> runs[first].IsTrimmableWhitespace() || HasTextAfter(runs, first))
  }

  /** What `appendTextContent` does to the window for the run it just appended at `runIndex`. */
  function AfterTextAppended(t: TrimmableContent, runIndex: nat, run: InlineItemRun): TrimmableContent {
    var kept := if !t.IsEmpty() && !run.IsTrimmableWhitespace() then NoTrimmableContent else t;
    if run.IsTrimmableWhitespace() || run.HasTrailingLetterSpacing() then kept.Append(runIndex, run) else kept
  }

  /** Whether appending this text run opens a new window (and records the line's visibility). */
  predicate OpensWindow(t: TrimmableContent, run: InlineItemRun) {
    (run.IsTrimmableWhitespace() || run.HasTrailingLetterSpacing()) && (t.IsEmpty() || !run.IsTrimmableWhitespace())
  }

  /** A run appended after the window's end does not change its width. */
  lemma {:induction false} WindowWidthPrefix(runs: seq<InlineItemRun>, x: InlineItemRun, first: nat, end: nat)
    requires end <= |runs|
    ensures WindowWidth(runs + [x], first, end) == WindowWidth(runs, first, end)
  {
    if end > first {
      WindowWidthPrefix(runs, x, first, end - 1);
    }
  }

  /** Appending a text run keeps the window bookkeeping in step with the runs. */
  lemma TextAppendKeepsWindow(runs: seq<InlineItemRun>, t: TrimmableContent, x: InlineItemRun)
    requires TracksTrailingContent(runs, t) && x.IsText()
    ensures TracksTrailingContent(runs + [x], AfterTextAppended(t, |runs|, x))
  {
    var kept := if !t.IsEmpty() && !x.IsTrimmableWhitespace() then NoTrimmableContent else t;
    if x.IsTrimmableWhitespace() || x.HasTrailingLetterSpacing() {
      if kept.IsEmpty() {
        TextOpensWindow(runs, x);
      } else {
        WhitespaceExtendsWindow(runs, t, x);
      }
    }
  }

  /** Trimmable text after no window opens one of its own. */
  lemma TextOpensWindow(runs: seq<InlineItemRun>, x: InlineItemRun)
    requires TrimmableText(x)
    ensures TracksTrailingContent(runs + [x], NoTrimmableContent.Append(|runs|, x))
  {
  }

  /** Trimmable whitespace extends an open window, which then ends in fully trimmable content. */
  lemma WhitespaceExtendsWindow(runs: seq<InlineItemRun>, t: TrimmableContent, x: InlineItemRun)
    requires TracksTrailingContent(runs, t) && !t.IsEmpty() && x.IsText() && x.IsTrimmableWhitespace()
    ensures TracksTrailingContent(runs + [x], t.Append(|runs|, x))
  {
    var first := t.firstRunIndex.value;
    WindowWidthPrefix(runs, x, first, |runs|);
    assert (runs + [x])[|runs|].IsText();
  }

  /** Appending a container marker or a line break leaves the window as it is. */
  lemma MarkerAppendKeepsWindow(runs: seq<InlineItemRun>, t: TrimmableContent, x: InlineItemRun)
    requires TracksTrailingContent(runs, t) && !x.IsText() && (x.inlineItem.IsContainerMarker() || x.IsLineBreak())
    ensures TracksTrailingContent(runs + [x], t)
  {
    if t.firstRunIndex.Some? {
      var first := t.firstRunIndex.value;
      var extended := runs + [x];
      WindowWidthPrefix(runs, x, first, |runs|);
      if HasTextAfter(extended, first) {
        var k :| first < k < |extended| && extended[k].IsText();
        assert runs[k].IsText();
      }
      if HasTextAfter(runs, first) {
        var k :| first < k < |runs| && runs[k].IsText();
        assert extended[k].IsText();
      }
    }
  }

  // ---------------------------------------------------------------------------------------
  // Trimming.

  /** What `trim` takes off a run: the whole whitespace width, or the trailing letter spacing. */
  function TrimmedWidth(r: InlineItemRun): LayoutUnit {
    if !r.IsText() then 0.0 else if r.IsWhitespace() then r.logicalWidth else r.TrailingLetterSpacing()
  }

  /** What `trim` takes off the runs `runs[first..end]` in all. */
  function TrimmedWidthOf(runs: seq<InlineItemRun>, first: nat, end: nat): LayoutUnit
    requires end <= |runs|
  {
    if end <= first then 0.0 else TrimmedWidthOf(runs, first, end - 1) + TrimmedWidth(runs[end - 1])
  }

  /**
   * A run of the window once trimmed, after `accumulated` width was trimmed before it: it moves
   * left by that much; whitespace collapses to zero advance width and other text loses its
   * letter spacing, so its trimmed width is gone from the line.
   */
  function TrimmedRun(r: InlineItemRun, accumulated: LayoutUnit): (t: InlineItemRun)
    ensures t.logicalLeft == r.logicalLeft - accumulated
    ensures t.logicalWidth == r.logicalWidth - TrimmedWidth(r)
    ensures t.inlineItem == r.inlineItem && t.textContext == r.textContext && t.isCollapsed == r.isCollapsed
    ensures r.IsWhitespace() ==> t.collapsedToZeroAdvanceWidth && !t.HasExpansionOpportunity()
    ensures !r.IsWhitespace() ==> t.collapsedToZeroAdvanceWidth == r.collapsedToZeroAdvanceWidth
    ensures WellFormedRun(r) ==> WellFormedRun(t)
  {
    var moved := r.MoveHorizontally(-accumulated);
    if !r.IsText() then moved
    else if r.IsWhitespace() then moved.CollapseToZeroAdvanceWidth()
    else moved.RemoveTrailingLetterSpacing()
  }

  /** The run vector after `trim` of the window that starts at `first`. */
  function TrimmedRuns(runs: seq<InlineItemRun>, first: nat): (r: seq<InlineItemRun>)
    requires first <= |runs|
    ensures |r| == |runs|
    ensures forall k :: 0 <= k < first ==> r[k] == runs[k]
    ensures forall k {:trigger r[k]} :: first <= k < |runs| ==> r[k] == TrimmedRun(runs[k], TrimmedWidthOf(runs, first, k))
  {
    runs[..first] + seq(|runs| - first, i requires 0 <= i < |runs| - first => TrimmedRun(runs[first + i], TrimmedWidthOf(runs, first, first + i)))
  }

  /** The run vector after trimming whatever the window holds. */
  function TrimmedLineRuns(runs: seq<InlineItemRun>, t: TrimmableContent): seq<InlineItemRun> {
    if t.IsEmpty() || t.firstRunIndex.value > |runs| then runs else TrimmedRuns(runs, t.firstRunIndex.value)
  }

  /**
   * `trim` takes off exactly the tracked trailing width as long as no whitespace in the window
   * has a negative width (a negative word-spacing is counted as 0 when tracked).
   */
  lemma {:induction false} TrimmedWidthIsTracked(runs: seq<InlineItemRun>, first: nat, end: nat)
    requires end <= |runs|
    requires forall k :: first <= k < end ==> runs[k].IsWhitespace() ==> runs[k].IsTrimmableWhitespace() && runs[k].logicalWidth >= 0.0
    ensures TrimmedWidthOf(runs, first, end) == WindowWidth(runs, first, end)
  {
    if end > first {
      TrimmedWidthIsTracked(runs, first, end - 1);
    }
  }

  /** Trimming never makes a run visible. */
  lemma TrimmedRunStaysHidden(r: InlineItemRun, accumulated: LayoutUnit, skipAlignment: bool)
    requires !IsVisuallyNonEmpty(r, skipAlignment)
    ensures !IsVisuallyNonEmpty(TrimmedRun(r, accumulated), skipAlignment)
  {
  }

  /** A line with no visible run has none after trimming either. */
  lemma TrimmedRunsStayHidden(runs: seq<InlineItemRun>, first: nat, skipAlignment: bool)
    requires first <= |runs|
    ensures NoVisuallyNonEmptyRun(runs, skipAlignment) ==> NoVisuallyNonEmptyRun(TrimmedRuns(runs, first), skipAlignment)
  {
    if NoVisuallyNonEmptyRun(runs, skipAlignment) {
      forall k | first <= k < |runs|
        ensures !IsVisuallyNonEmpty(TrimmedRuns(runs, first)[k], skipAlignment)
      {
        TrimmedRunStaysHidden(runs[k], TrimmedWidthOf(runs, first, k), skipAlignment);
      }
    }
  }

  // ---------------------------------------------------------------------------------------
  // Trailing letter spacing at a container end.

  /**
   * The run `trimTrailingRun` trims, scanning `runs[first..index]` from the back: the last text
   * run at or after the window's first run.
   */
  function TrailingTextRunIndex(runs: seq<InlineItemRun>, first: nat, index: nat): Option<nat>
    requires index <= |runs|
  {
    if index == 0 || index - 1 < first then None
    else if runs[index - 1].IsText() then Some(index - 1)
    else TrailingTextRunIndex(runs, first, index - 1)
  }

  /** The scan finds the last text run of `runs[first..index]`, or reports that there is none. */
  lemma {:induction false} TrailingTextRunIndexIsLastText(runs: seq<InlineItemRun>, first: nat, index: nat)
    requires index <= |runs|
    ensures match TrailingTextRunIndex(runs, first, index)
      case Some(i) => first <= i < index && runs[i].IsText() && forall j :: i < j < index ==> !runs[j].IsText()
      case None => forall j :: first <= j < index ==> !runs[j].IsText()
  {
    if index > 0 && index - 1 >= first && !runs[index - 1].IsText() {
      TrailingTextRunIndexIsLastText(runs, first, index - 1);
    }
  }

  /** When the window's last run is only partially trimmable, that run is the window's first run. */
  lemma PartiallyTrimmableRunIsFirst(runs: seq<InlineItemRun>, t: TrimmableContent)
    requires TracksTrailingContent(runs, t) && t.IsTrailingRunPartiallyTrimmable()
    ensures TrailingTextRunIndex(runs, t.firstRunIndex.value, |runs|) == Some(t.firstRunIndex.value)
  {
    PartiallyTrimmableHasNoTextAfter(runs, t);
    TrailingTextRunIndexIsLastText(runs, t.firstRunIndex.value, |runs|);
  }

  /**
   * In a window that agrees with the runs, the trailing run is partially trimmable exactly
   * when the window was opened by letter-spaced text and nothing but markers, line breaks and
   * trimmable whitespace without text follows.
   */
  lemma PartiallyTrimmableMeaning(runs: seq<InlineItemRun>, t: TrimmableContent)
    requires TracksTrailingContent(runs, t)
    ensures t.IsTrailingRunPartiallyTrimmable() <==>
      t.firstRunIndex.Some? && runs[t.firstRunIndex.value].HasTrailingLetterSpacing() &&
      !runs[t.firstRunIndex.value].IsTrimmableWhitespace() &&
      forall k :: t.firstRunIndex.value < k < |runs| ==> !runs[k].IsText()
  {
  }

  /** `TrimmableContent::reset`: the empty window agrees with any runs and is not partially trimmable. */
  lemma NoTrimmableContentIsReset(runs: seq<InlineItemRun>)
    ensures NoTrimmableContent.IsEmpty() && NoTrimmableContent.width == 0.0
    ensures !NoTrimmableContent.IsTrailingRunFullyTrimmable() && !NoTrimmableContent.IsTrailingRunPartiallyTrimmable()
    ensures TracksTrailingContent(runs, NoTrimmableContent)
  {
  }

  /** A partially trimmable window holds no text after its first run. */
  lemma PartiallyTrimmableHasNoTextAfter(runs: seq<InlineItemRun>, t: TrimmableContent)
    requires TracksTrailingContent(runs, t) && t.IsTrailingRunPartiallyTrimmable()
    ensures forall k :: t.firstRunIndex.value < k < |runs| ==> !runs[k].IsText()
  {
  }

  /**
   * `trimTrailingRun`'s scan as written: it continues only while the window's first index is
   * at or above the index being looked at, so it gives up as soon as anything follows the
   * trimmable run.
   */
  function TrailingTextRunIndexAsWritten(runs: seq<InlineItemRun>, first: nat, index: nat): Option<nat>
    requires index <= |runs|
  {
    if index == 0 || !(first >= index - 1) then None
    else if runs[index - 1].IsText() then Some(index - 1)
    else TrailingTextRunIndexAsWritten(runs, first, index - 1)
  }

  /**
   * Letter-spaced text followed by an empty inline container (`ab<span></span>`, the end of
   * an enclosing container still to come): the window starts at the text and is only
   * partially trimmable, but the scan as written finds nothing to trim.
   */
  lemma TrailingRunAsWrittenCounterexample()
    ensures
      var style := Style(Normal, NormalBreak, NBSPNormal, HyphensNone, InitialHyphenationLimit, InitialHyphenationLimit,
                         2.0, Baseline, 0, FontMetrics(8, 2, 10), 12, 4.0, 10.0);
      var geometry := BoxGeometry(0.0, 0.0, 0.0, 0.0, 0.0, 0.0, 0.0, 0.0, 0.0, 0.0, 0.0, 0.0, 0.0, LineBaseline(0.0, 0.0));
      var text := LayoutBox(1, style, geometry, [0x61, 0x62], true, false, false, false, false, false);
      var span := LayoutBox(2, style, geometry, [], true, false, false, false, false, false);
      var runs := [InlineItemRun(TextItem(text, 0, 2, Some(20.0), NonWhitespace), 0.0, 20.0, Some(TextContext(0, 2, None)), false, false),
                   InlineItemRun(ContainerStart(span), 20.0, 0.0, None, false, false)];
      var t := TrimmableContent(Some(0), 2.0, false);
      TracksTrailingContent(runs, t) && t.IsTrailingRunPartiallyTrimmable()
      && TrailingTextRunIndexAsWritten(runs, 0, |runs|).None?
      && TrailingTextRunIndex(runs, 0, |runs|) == Some(0)
  {
    var style := Style(Normal, NormalBreak, NBSPNormal, HyphensNone, InitialHyphenationLimit, InitialHyphenationLimit,
                       2.0, Baseline, 0, FontMetrics(8, 2, 10), 12, 4.0, 10.0);
    var geometry := BoxGeometry(0.0, 0.0, 0.0, 0.0, 0.0, 0.0, 0.0, 0.0, 0.0, 0.0, 0.0, 0.0, 0.0, LineBaseline(0.0, 0.0));
    var text := LayoutBox(1, style, geometry, [0x61, 0x62], true, false, false, false, false, false);
    var span := LayoutBox(2, style, geometry, [], true, false, false, false, false, false);
    var runs := [InlineItemRun(TextItem(text, 0, 2, Some(20.0), NonWhitespace), 0.0, 20.0, Some(TextContext(0, 2, None)), false, false),
                 InlineItemRun(ContainerStart(span), 20.0, 0.0, None, false, false)];
    assert WindowWidth(runs, 0, 1) == 2.0;
    assert !HasTextAfter(runs, 0);
  }

  // ---------------------------------------------------------------------------------------
  // Inline container ends.

  /** Where `appendInlineContainerEnd` places the end marker as written: at the line's absolute right. */
  function ContainerEndLeftAsWritten(lineBox: LineBox): LayoutUnit {
    lineBox.LogicalRight()
  }

  /** Where every other run of the line is placed: at the content width, relative to the line. */
  function ContentEnd(lineBox: LineBox): LayoutUnit {
    lineBox.LogicalWidth()
  }

  /**
   * On a line that starts 10 in (say, next to a float) with 5 of content, the end marker as
   * written lands at 15 relative to the line, 25 once the line is placed, 10 past the end of
   * the content at 15; placed at the content width it lands exactly at the content's end.
   */
  lemma ContainerEndAsWrittenCounterexample()
    ensures
      var lineBox := LineBox(InlineRect(0.0, 10.0, 5.0, 20.0), LineBaseline(15.0, 5.0), 15.0, false);
      var style := Style(Normal, NormalBreak, NBSPNormal, HyphensNone, InitialHyphenationLimit, InitialHyphenationLimit,
                         0.0, Baseline, 0, FontMetrics(8, 2, 10), 12, 4.0, 10.0);
      var geometry := BoxGeometry(0.0, 0.0, 0.0, 0.0, 0.0, 0.0, 0.0, 0.0, 0.0, 0.0, 0.0, 0.0, 0.0, LineBaseline(0.0, 0.0));
      var span := LayoutBox(3, style, geometry, [], true, false, false, false, false, false);
      var asWritten := Run(ContainerEnd(span), InlineRect(0.0, ContainerEndLeftAsWritten(lineBox), 0.0, 0.0), None, 0, false);
      var intended := Run(ContainerEnd(span), InlineRect(0.0, ContentEnd(lineBox), 0.0, 0.0), None, 0, false);
      AlignedVertically(asWritten, lineBox).logicalRect.left == 25.0
      && AlignedVertically(intended, lineBox).logicalRect.left == 15.0 == lineBox.LogicalRight()
  {
  }

  // ---------------------------------------------------------------------------------------
  // Text runs.

  /** `shouldPreserveLeadingContent`: only whitespace that `pre`, `pre-wrap` or `break-spaces` keeps survives at the line start. */
  predicate ShouldPreserveLeadingContent(item: InlineItem) {
    !item.IsWhitespace() || item.Style().whiteSpace == Pre || item.Style().whiteSpace == PreWrap || item.Style().whiteSpace == BreakSpaces
  }

  /**
   * Looking back from `runs[..n]` through container markers and line breaks: a box stops the
   * collapsing, otherwise the nearest text decides by being collapsible; nothing at all collapses.
   */
  function PrecedingContentCollapses(runs: seq<InlineItemRun>, n: nat): bool
    requires n <= |runs|
  {
    if n == 0 then true
    else if runs[n - 1].IsBox() then false
    else if runs[n - 1].IsText() then runs[n - 1].IsCollapsible()
    else PrecedingContentCollapses(runs, n - 1)
  }

  /** The text item collapses to zero advance width (section 4.1.1 of CSS Text Module Level 3). */
  predicate CollapsesCompletely(runs: seq<InlineItemRun>, item: InlineItem)
    requires item.TextItem?
  {
    if item.length == 0 then true
    else if runs == [] then !ShouldPreserveLeadingContent(item)
    else if !item.IsCollapsible() then false
    else PrecedingContentCollapses(runs, |runs|)
  }

  /** Collapsible whitespace after collapsible whitespace, with only markers between, collapses completely. */
  lemma {:induction false} CollapsibleAfterCollapsible(runs: seq<InlineItemRun>, k: nat, item: InlineItem)
    requires item.TextItem? && item.length > 0 && item.IsCollapsible()
    requires k < |runs| && runs[k].IsText() && runs[k].IsCollapsible()
    requires forall j :: k < j < |runs| ==> !runs[j].IsText() && !runs[j].IsBox()
    ensures CollapsesCompletely(runs, item)
  {
    PrecedingCollapsesFrom(runs, k, |runs|, true);
  }

  /** A box after the last text run keeps the next whitespace from collapsing. */
  lemma {:induction false} BoxStopsCollapsing(runs: seq<InlineItemRun>, k: nat, item: InlineItem)
    requires item.TextItem? && item.length > 0
    requires k < |runs| && runs[k].IsBox()
    requires forall j :: k < j < |runs| ==> !runs[j].IsText() && !runs[j].IsBox()
    ensures !CollapsesCompletely(runs, item)
  {
    PrecedingCollapsesFrom(runs, k, |runs|, false);
  }

  /** Collapsible whitespace that starts a line collapses completely. */
  lemma LeadingWhitespaceCollapses(item: InlineItem)
    requires item.TextItem? && item.length > 0 && item.IsCollapsible()
    ensures CollapsesCompletely([], item)
  {
  }

  /** The backward scan skips markers and line breaks down to `k`, where `runs[k]` decides as `decided`. */
  lemma {:induction false} PrecedingCollapsesFrom(runs: seq<InlineItemRun>, k: nat, n: nat, decided: bool)
    requires k < n <= |runs|
    requires runs[k].IsBox() || runs[k].IsText()
    requires decided == (!runs[k].IsBox() && runs[k].IsCollapsible())
    requires forall j :: k < j < n ==> !runs[j].IsText() && !runs[j].IsBox()
    ensures PrecedingContentCollapses(runs, n) == decided
    decreases n
  {
    if n - 1 > k {
      PrecedingCollapsesFrom(runs, k, n - 1, decided);
    }
  }

  /** The run `appendTextContent` makes of a text item placed at `logicalLeft`. */
  function TextRun(runs: seq<InlineItemRun>, item: InlineItem, logicalLeft: LayoutUnit, logicalWidth: LayoutUnit): (r: InlineItemRun)
    requires item.TextItem?
    ensures WellFormedRun(r) && r.inlineItem == item && r.logicalLeft == logicalLeft
    ensures r.collapsedToZeroAdvanceWidth == CollapsesCompletely(runs, item)
    ensures r.logicalWidth == (if CollapsesCompletely(runs, item) then 0.0 else logicalWidth)
    ensures r.textContext.Some? && r.textContext.value.start == item.start && r.textContext.value.expansion.None?
    ensures r.isCollapsed <==> r.textContext.value.length < item.length
    ensures r.isCollapsed ==> r.textContext.value.length == 1
    ensures !r.isCollapsed ==> r.textContext.value.length == item.length
  {
    var collapsedRun := item.IsCollapsible() && item.length > 1;
    var contentLength := if collapsedRun then 1 else item.length;
    var run := InlineItemRun(item, logicalLeft, logicalWidth, Some(TextContext(item.start, contentLength, None)), collapsedRun, false);
    if CollapsesCompletely(runs, item) then run.CollapseToZeroAdvanceWidth() else run
  }

  // ---------------------------------------------------------------------------------------
  // Visibility.

  /**
   * `isVisuallyNonEmpty`: text unless collapsed away; an inline container with width that
   * has a border or padding on its side; a line break; a box that does not establish a
   * formatting context, or an inline-block with width and (when aligning) height.
   */
  predicate IsVisuallyNonEmpty(run: InlineItemRun, skipAlignment: bool)
    // Line breaks always count; a zero-width run counts only as uncollapsed text, a line
    // break, or a box that establishes no formatting context.
    ensures run.IsLineBreak() ==> IsVisuallyNonEmpty(run, skipAlignment)
    ensures IsVisuallyNonEmpty(run, skipAlignment) && run.logicalWidth == 0.0 ==>
      (run.IsText() && !run.collapsedToZeroAdvanceWidth) || run.IsLineBreak()
      || (run.IsBox() && !run.inlineItem.layoutBox.establishesFormattingContext)
    // Margins alone never make an inline container visible.
    ensures (run.IsContainerStart() && run.inlineItem.layoutBox.geometry.borderLeft == 0.0
             && run.inlineItem.layoutBox.geometry.paddingLeft == 0.0) ==> !IsVisuallyNonEmpty(run, skipAlignment)
    ensures (run.IsContainerEnd() && run.inlineItem.layoutBox.geometry.borderRight == 0.0
             && run.inlineItem.layoutBox.geometry.paddingRight == 0.0) ==> !IsVisuallyNonEmpty(run, skipAlignment)
  {
    var geometry := run.inlineItem.layoutBox.geometry;
    if run.IsText() then !run.collapsedToZeroAdvanceWidth
    else if run.IsContainerStart() then
      run.logicalWidth != 0.0 && (geometry.borderLeft != 0.0 || geometry.paddingLeft != 0.0)
    else if run.IsContainerEnd() then
      run.logicalWidth != 0.0 && (geometry.borderRight != 0.0 || geometry.paddingRight != 0.0)
    else if run.IsLineBreak() then true
    else if run.IsBox() then
      if !run.inlineItem.layoutBox.establishesFormattingContext then true
      else run.logicalWidth != 0.0 && (skipAlignment || geometry.height != 0.0)
    else false
  }

  predicate NoVisuallyNonEmptyRun(runs: seq<InlineItemRun>, skipAlignment: bool) {
    forall k :: 0 <= k < |runs| ==> !IsVisuallyNonEmpty(runs[k], skipAlignment)
  }

  lemma NoVisuallyNonEmptyRunSnoc(runs: seq<InlineItemRun>, x: InlineItemRun, skipAlignment: bool)
    ensures NoVisuallyNonEmptyRun(runs + [x], skipAlignment) <==> NoVisuallyNonEmptyRun(runs, skipAlignment) && !IsVisuallyNonEmpty(x, skipAlignment)
  {
    if NoVisuallyNonEmptyRun(runs, skipAlignment) && !IsVisuallyNonEmpty(x, skipAlignment) {
      forall k | 0 <= k < |runs + [x]|
        ensures !IsVisuallyNonEmpty((runs + [x])[k], skipAlignment)
      {
        if k < |runs| {
          assert (runs + [x])[k] == runs[k];
        }
      }
    }
    if NoVisuallyNonEmptyRun(runs + [x], skipAlignment) {
      forall k | 0 <= k < |runs|
        ensures !IsVisuallyNonEmpty(runs[k], skipAlignment)
      {
        assert (runs + [x])[k] == runs[k];
      }
      assert (runs + [x])[|runs|] == x;
    }
  }

  /** Runs that are each exactly as visible as before leave the line exactly as visible. */
  lemma SameVisibility(before: seq<InlineItemRun>, after: seq<InlineItemRun>, skipAlignment: bool)
    requires |before| == |after|
    requires forall k :: 0 <= k < |before| ==> IsVisuallyNonEmpty(after[k], skipAlignment) == IsVisuallyNonEmpty(before[k], skipAlignment)
    ensures NoVisuallyNonEmptyRun(after, skipAlignment) == NoVisuallyNonEmptyRun(before, skipAlignment)
  {
  }

  // ---------------------------------------------------------------------------------------
  // Closing the line.

  /** `setLogicalHeight(runContentHeight(run))`. */
  function WithContentHeight(run: Run): (r: Run)
    ensures r.logicalRect == run.logicalRect.(height := RunContentHeight(run))
    ensures r.(logicalRect := run.logicalRect) == run
  {
    run.(logicalRect := run.logicalRect.(height := RunContentHeight(run)))
  }

  function SizedRuns(runs: seq<Run>): (r: seq<Run>)
    ensures |r| == |runs| && forall k :: 0 <= k < |runs| ==> r[k] == WithContentHeight(runs[k])
  {
    seq(|runs|, k requires 0 <= k < |runs| => WithContentHeight(runs[k]))
  }

  /** The line's metrics once every run has stretched it, in order. */
  function MetricsOf(metrics: LineMetrics, runs: seq<Run>): LineMetrics {
    if runs == [] then metrics else AdjustedLineMetrics(MetricsOf(metrics, runs[..|runs| - 1]), runs[|runs| - 1])
  }

  /** Runs only ever stretch the line: its height, ascent, descent and baseline offset never shrink. */
  lemma {:induction false} MetricsOfGrows(metrics: LineMetrics, runs: seq<Run>)
    ensures MetricsOf(metrics, runs).lineBox.LogicalHeight() >= metrics.lineBox.LogicalHeight()
    ensures MetricsOf(metrics, runs).lineBox.baseline.ascent >= metrics.lineBox.baseline.ascent
    ensures MetricsOf(metrics, runs).lineBox.baseline.descent >= metrics.lineBox.baseline.descent
    ensures MetricsOf(metrics, runs).lineBox.baselineOffset >= metrics.lineBox.baselineOffset
    ensures MetricsOf(metrics, runs).lineBox.isConsideredEmpty == metrics.lineBox.isConsideredEmpty
    ensures MetricsOf(metrics, runs).lineBox.rect.(height := metrics.lineBox.rect.height) == metrics.lineBox.rect
  {
    if runs != [] {
      MetricsOfGrows(metrics, runs[..|runs| - 1]);
    }
  }

  /** The initial strut is spent by the first text or line break run, and the line is then at least as tall as it. */
  lemma {:induction false} MetricsOfSpendsStrut(metrics: LineMetrics, runs: seq<Run>, k: nat)
    requires metrics.initialStrut.Some? && k < |runs| && (runs[k].IsText() || runs[k].IsLineBreak())
    ensures MetricsOf(metrics, runs).initialStrut.None?
    ensures MetricsOf(metrics, runs).lineBox.baseline.ascent >= metrics.initialStrut.value.ascent
    ensures MetricsOf(metrics, runs).lineBox.baseline.descent >= metrics.initialStrut.value.descent
  {
    var prefix := runs[..|runs| - 1];
    if k == |runs| - 1 {
      var before := MetricsOf(metrics, prefix);
      if before.initialStrut.None? {
        MetricsOfSpendsStrutSomewhere(metrics, prefix);
      } else {
        StrutUnchangedBeforeText(metrics, prefix);
      }
    } else {
      assert prefix[k] == runs[k];
      MetricsOfSpendsStrut(metrics, prefix, k);
    }
  }

  /** While the strut is unspent, the ascent and descent already reached stay reached. */
  lemma {:induction false} StrutUnchangedBeforeText(metrics: LineMetrics, runs: seq<Run>)
    requires metrics.initialStrut.Some? && MetricsOf(metrics, runs).initialStrut.Some?
    ensures MetricsOf(metrics, runs).initialStrut == metrics.initialStrut
  {
    if runs != [] {
      var prefix := runs[..|runs| - 1];
      if MetricsOf(metrics, prefix).initialStrut.Some? {
        StrutUnchangedBeforeText(metrics, prefix);
      } else {
        StrutStaysSpent(metrics, runs);
      }
    }
  }

  /** Once spent, the strut stays spent. */
  lemma {:induction false} StrutStaysSpent(metrics: LineMetrics, runs: seq<Run>)
    requires runs != [] && MetricsOf(metrics, runs[..|runs| - 1]).initialStrut.None?
    ensures MetricsOf(metrics, runs).initialStrut.None?
  {
  }

  /** A strut spent within `runs` was applied: the ascent and descent reached it. */
  lemma {:induction false} MetricsOfSpendsStrutSomewhere(metrics: LineMetrics, runs: seq<Run>)
    requires metrics.initialStrut.Some? && MetricsOf(metrics, runs).initialStrut.None?
    ensures MetricsOf(metrics, runs).lineBox.baseline.ascent >= metrics.initialStrut.value.ascent
    ensures MetricsOf(metrics, runs).lineBox.baseline.descent >= metrics.initialStrut.value.descent
  {
    var prefix := runs[..|runs| - 1];
    if MetricsOf(metrics, prefix).initialStrut.None? {
      MetricsOfSpendsStrutSomewhere(metrics, prefix);
    } else {
      StrutUnchangedBeforeText(metrics, prefix);
    }
  }

  /**
   * A top- or bottom-aligned box stretches the line to its margin box, and later runs only
   * stretch it further: the finished line is at least as tall as the box's content height
   * whenever that height lies within the margin box.
   */
  lemma {:induction false} EdgeAlignedBoxFitsLine(metrics: LineMetrics, runs: seq<Run>, k: nat)
    requires k < |runs| && runs[k].IsBox() && runs[k].Style().verticalAlign in {Top, Bottom}
    requires RunContentHeight(runs[k]) <= runs[k].LayoutBox().geometry.marginBoxHeight
    ensures RunContentHeight(runs[k]) <= MetricsOf(metrics, runs).lineBox.LogicalHeight()
  {
    var prefix := runs[..|runs| - 1];
    if k < |runs| - 1 {
      assert prefix[k] == runs[k];
      EdgeAlignedBoxFitsLine(metrics, prefix, k);
    }
  }

  /** A baseline that clears the line's ascent keeps clearing it while runs stretch the line. */
  lemma {:induction false} MetricsOfKeepsBaselineClear(metrics: LineMetrics, runs: seq<Run>)
    requires metrics.lineBox.BaselineClearsAscent()
    ensures MetricsOf(metrics, runs).lineBox.BaselineClearsAscent()
  {
    if runs != [] {
      MetricsOfKeepsBaselineClear(metrics, runs[..|runs| - 1]);
    }
  }

  /** A box that is not an inline-block with inline content: it sits on the baseline by its own height. */
  predicate SitsOnBaseline(run: Run) {
    run.IsBox() && run.Style().verticalAlign == Baseline
    && !(run.LayoutBox().isInlineBlockBox && run.LayoutBox().establishesInlineFormattingContext)
  }

  /**
   * A baseline-aligned box that sits on the baseline pushes the baseline down to its margin
   * box, and later runs only push it further: on the finished line the baseline lies at
   * least the box's content height below the line's top, whenever that height lies within
   * the margin box.
   */
  lemma {:induction false} BaselineBoxBelowLineTop(metrics: LineMetrics, runs: seq<Run>, k: nat)
    requires metrics.lineBox.BaselineClearsAscent()
    requires k < |runs| && SitsOnBaseline(runs[k])
    requires RunContentHeight(runs[k]) <= runs[k].LayoutBox().geometry.marginBoxHeight
    ensures RunContentHeight(runs[k]) <= MetricsOf(metrics, runs).lineBox.baselineOffset
    ensures RunLogicalTop(WithContentHeight(runs[k]), MetricsOf(metrics, runs).lineBox) >= 0.0
  {
    var prefix := runs[..|runs| - 1];
    if k < |runs| - 1 {
      assert prefix[k] == runs[k];
      BaselineBoxBelowLineTop(metrics, prefix, k);
    } else {
      MetricsOfKeepsBaselineClear(metrics, prefix);
    }
    assert WithContentHeight(runs[k]).Style() == runs[k].Style();
  }

  /** `resetBaseline` and a zero height for a line that is visually empty. */
  function EmptyLineCollapsed(lineBox: LineBox): (r: LineBox)
    ensures r.isConsideredEmpty == lineBox.isConsideredEmpty
    ensures lineBox.isConsideredEmpty ==> r.LogicalHeight() == 0.0 && r.baseline == LineBaseline(0.0, 0.0) && r.baselineOffset == 0.0
    ensures !lineBox.isConsideredEmpty ==> r == lineBox
  {
    if lineBox.isConsideredEmpty then
      lineBox.(baseline := LineBaseline(0.0, 0.0), baselineOffset := 0.0, rect := lineBox.rect.(height := 0.0))
    else lineBox
  }

  /** The descent quirk: the line loses its descent, in height too. */
  function DescentCollapsed(lineBox: LineBox): (r: LineBox)
    ensures r.baseline.descent == 0.0 && r.LogicalHeight() == lineBox.LogicalHeight() - lineBox.baseline.descent
    ensures r.(baseline := lineBox.baseline, rect := lineBox.rect) == lineBox
  {
    lineBox.(rect := lineBox.rect.(height := lineBox.rect.height - lineBox.baseline.descent),
             baseline := lineBox.baseline.(descent := 0.0))
  }

  function VerticallyAligned(runs: seq<Run>, lineBox: LineBox): (r: seq<Run>)
    ensures |r| == |runs| && forall k :: 0 <= k < |runs| ==> r[k] == AlignedVertically(runs[k], lineBox)
  {
    seq(|runs|, k requires 0 <= k < |runs| => AlignedVertically(runs[k], lineBox))
  }

  /** Merging only produces runs whose expansion opportunities come with an expansion context. */
  lemma {:induction false} MergedFromExpandable(runs: seq<InlineItemRun>, i: nat, justify: bool)
    requires i <= |runs| && forall k :: 0 <= k < |runs| ==> WellFormedRun(runs[k])
    ensures forall k :: 0 <= k < |MergedFrom(runs, i, justify)| ==> ExpandableRun(MergedFrom(runs, i, justify)[k])
    decreases |runs| - i
  {
    if i < |runs| {
      MergedFromExpandable(runs, MergeEnd(runs, i), justify);
    }
  }

  lemma SizedAndAlignedExpandable(runs: seq<Run>, lineBox: LineBox)
    requires forall k :: 0 <= k < |runs| ==> ExpandableRun(runs[k])
    ensures forall k :: 0 <= k < |runs| ==> ExpandableRun(VerticallyAligned(SizedRuns(runs), lineBox)[k])
  {
    forall k | 0 <= k < |runs|
      ensures ExpandableRun(VerticallyAligned(SizedRuns(runs), lineBox)[k])
    {
      var sized := WithContentHeight(runs[k]);
      var aligned := AlignedVertically(sized, lineBox);
      assert aligned.(logicalRect := sized.logicalRect) == sized;
      assert sized.(logicalRect := runs[k].logicalRect) == runs[k];
      assert aligned.expansionOpportunityCount == runs[k].expansionOpportunityCount;
      assert aligned.textContext == runs[k].textContext;
    }
  }

  /** The runs, line box and strut `close` leaves behind. */
  datatype ClosedLine = ClosedLine(runList: seq<Run>, lineBox: LineBox, initialStrut: Option<LineBaseline>)

  /**
   * `close` after trimming: merge the runs; unless alignment is skipped, stretch the line by
   * every run and give each run its content height, collapse an empty line, apply the descent
   * quirk, then align vertically and horizontally.
   */
  function ClosedLineOf(runs: seq<InlineItemRun>, lineBox: LineBox, initialStrut: Option<LineBaseline>,
                        horizontalAlignment: Option<TextAlign>, skipAlignment: bool, lineLogicalWidth: LayoutUnit,
                        isLastLine: bool, lineDescentNeedsCollapsing: bool): ClosedLine
    requires forall k :: 0 <= k < |runs| ==> WellFormedRun(runs[k])
    requires skipAlignment || horizontalAlignment.Some?
  {
    var merged := MergedFrom(runs, 0, horizontalAlignment == Some(Justify));
    if skipAlignment then ClosedLine(merged, lineBox, initialStrut)
    else
      MergedFromExpandable(runs, 0, horizontalAlignment == Some(Justify));
      AlignedLine(merged, lineBox, initialStrut, horizontalAlignment.value, lineLogicalWidth, isLastLine, lineDescentNeedsCollapsing)
  }

  /** The line box once every run has stretched it, an empty line collapsed and, under the quirk, the descent dropped. */
  function FinalLineBox(lineBox: LineBox, lineDescentNeedsCollapsing: bool): LineBox {
    var emptied := EmptyLineCollapsed(lineBox);
    if lineDescentNeedsCollapsing then DescentCollapsed(emptied) else emptied
  }

  /** The aligning half of `close`, on the merged runs. */
  function AlignedLine(merged: seq<Run>, lineBox: LineBox, initialStrut: Option<LineBaseline>, alignment: TextAlign,
                       lineLogicalWidth: LayoutUnit, isLastLine: bool, lineDescentNeedsCollapsing: bool): ClosedLine
    requires forall k :: 0 <= k < |merged| ==> ExpandableRun(merged[k])
  {
    var metrics := MetricsOf(LineMetrics(lineBox, initialStrut), merged);
    var finalBox := FinalLineBox(metrics.lineBox, lineDescentNeedsCollapsing);
    SizedAndAlignedExpandable(merged, finalBox);
    ClosedLine(AlignedHorizontally(VerticallyAligned(SizedRuns(merged), finalBox), alignment, lineLogicalWidth - finalBox.LogicalWidth(), isLastLine),
               finalBox, metrics.initialStrut)
  }

  /** Without alignment, `close` hands back the merged runs, which cover the committed runs' widths and text. */
  lemma ClosedLineWithoutAlignment(runs: seq<InlineItemRun>, lineBox: LineBox, initialStrut: Option<LineBaseline>,
                                   horizontalAlignment: Option<TextAlign>, lineLogicalWidth: LayoutUnit,
                                   isLastLine: bool, lineDescentNeedsCollapsing: bool)
    requires forall k :: 0 <= k < |runs| ==> WellFormedRun(runs[k])
    ensures var closed := ClosedLineOf(runs, lineBox, initialStrut, horizontalAlignment, true, lineLogicalWidth, isLastLine, lineDescentNeedsCollapsing);
      closed.lineBox == lineBox && closed.initialStrut == initialStrut
      && |closed.runList| <= |runs|
      && RunsWidth(closed.runList) == WidthOf(runs, 0, |runs|)
      && RunsTextLength(closed.runList) == TextLengthOf(runs, 0, |runs|)
  {
    MergedFromSums(runs, 0, horizontalAlignment == Some(Justify));
  }

  /**
   * With alignment, a closed line that is visually empty has no height and no baseline, the
   * descent quirk leaves no descent, and a non-empty line is at least as tall as it started
   * (less the collapsed descent).
   */
  lemma ClosedLineBox(runs: seq<InlineItemRun>, lineBox: LineBox, initialStrut: Option<LineBaseline>,
                      horizontalAlignment: Option<TextAlign>, lineLogicalWidth: LayoutUnit,
                      isLastLine: bool, lineDescentNeedsCollapsing: bool)
    requires forall k :: 0 <= k < |runs| ==> WellFormedRun(runs[k])
    requires horizontalAlignment.Some?
    ensures var closed := ClosedLineOf(runs, lineBox, initialStrut, horizontalAlignment, false, lineLogicalWidth, isLastLine, lineDescentNeedsCollapsing);
      closed.lineBox.isConsideredEmpty == lineBox.isConsideredEmpty
      && (lineBox.isConsideredEmpty ==> closed.lineBox.LogicalHeight() == 0.0 && closed.lineBox.baselineOffset == 0.0)
      && (lineDescentNeedsCollapsing ==> closed.lineBox.baseline.descent == 0.0)
      && (!lineBox.isConsideredEmpty && !lineDescentNeedsCollapsing ==> closed.lineBox.LogicalHeight() >= lineBox.LogicalHeight())
      && closed.lineBox.LogicalTop() == lineBox.LogicalTop() && closed.lineBox.LogicalLeft() == lineBox.LogicalLeft()
      && closed.lineBox.LogicalWidth() == lineBox.LogicalWidth()
  {
    var merged := MergedFrom(runs, 0, horizontalAlignment == Some(Justify));
    MetricsOfGrows(LineMetrics(lineBox, initialStrut), merged);
  }

  /** With alignment, every run gets its content height and top- or bottom-aligned runs touch the line's edges. */
  lemma AlignedLineRunHeights(merged: seq<Run>, lineBox: LineBox, initialStrut: Option<LineBaseline>, alignment: TextAlign,
                              lineLogicalWidth: LayoutUnit, isLastLine: bool, lineDescentNeedsCollapsing: bool, k: nat)
    requires forall k :: 0 <= k < |merged| ==> ExpandableRun(merged[k])
    requires alignment != Justify && k < |merged|
    ensures var closed := AlignedLine(merged, lineBox, initialStrut, alignment, lineLogicalWidth, isLastLine, lineDescentNeedsCollapsing);
      |closed.runList| == |merged|
      && closed.runList[k].logicalRect.height == RunContentHeight(merged[k])
      && (merged[k].Style().verticalAlign == Top ==> closed.runList[k].logicalRect.top == closed.lineBox.LogicalTop())
      && (merged[k].Style().verticalAlign == Bottom ==> closed.runList[k].logicalRect.Bottom() == closed.lineBox.LogicalBottom())
  {
    var metrics := MetricsOf(LineMetrics(lineBox, initialStrut), merged);
    var finalBox := FinalLineBox(metrics.lineBox, lineDescentNeedsCollapsing);
    var vertical := VerticallyAligned(SizedRuns(merged), finalBox);
    SizedAndAlignedExpandable(merged, finalBox);
    var availableWidth := lineLogicalWidth - finalBox.LogicalWidth();
    AlignedHorizontallyKeepsVertical(vertical, alignment, availableWidth, isLastLine);
    var sized := WithContentHeight(merged[k]);
    VerticalAlignmentEdges(sized, finalBox);
    assert sized.Style() == merged[k].Style();
  }

  /**
   * On a visible line without the descent quirk, a top- or bottom-aligned box whose content
   * height lies within its margin box ends up inside the closed line.
   */
  lemma EdgeAlignedBoxInsideClosedLine(merged: seq<Run>, lineBox: LineBox, initialStrut: Option<LineBaseline>, alignment: TextAlign,
                                       lineLogicalWidth: LayoutUnit, isLastLine: bool, k: nat)
    requires forall k :: 0 <= k < |merged| ==> ExpandableRun(merged[k])
    requires alignment != Justify && k < |merged| && !lineBox.isConsideredEmpty
    requires merged[k].IsBox() && merged[k].Style().verticalAlign in {Top, Bottom}
    requires RunContentHeight(merged[k]) <= merged[k].LayoutBox().geometry.marginBoxHeight
    requires 0.0 <= RunContentHeight(merged[k])
    ensures var closed := AlignedLine(merged, lineBox, initialStrut, alignment, lineLogicalWidth, isLastLine, false);
      |closed.runList| == |merged|
      && closed.lineBox.LogicalTop() <= closed.runList[k].logicalRect.top
      && closed.runList[k].logicalRect.Bottom() <= closed.lineBox.LogicalBottom()
  {
    var metrics := LineMetrics(lineBox, initialStrut);
    AlignedLineRunHeights(merged, lineBox, initialStrut, alignment, lineLogicalWidth, isLastLine, false, k);
    EdgeAlignedBoxFitsLine(metrics, merged, k);
    MetricsOfGrows(metrics, merged);
  }

  /**
   * On a visible line without the descent quirk whose baseline clears its ascent, a box that
   * sits on the baseline and whose content height lies within its margin box starts inside
   * the closed line.
   */
  lemma BaselineBoxInsideClosedLine(merged: seq<Run>, lineBox: LineBox, initialStrut: Option<LineBaseline>, alignment: TextAlign,
                                    lineLogicalWidth: LayoutUnit, isLastLine: bool, k: nat)
    requires forall k :: 0 <= k < |merged| ==> ExpandableRun(merged[k])
    requires alignment != Justify && k < |merged| && !lineBox.isConsideredEmpty && lineBox.BaselineClearsAscent()
    requires SitsOnBaseline(merged[k])
    requires RunContentHeight(merged[k]) <= merged[k].LayoutBox().geometry.marginBoxHeight
    ensures var closed := AlignedLine(merged, lineBox, initialStrut, alignment, lineLogicalWidth, isLastLine, false);
      |closed.runList| == |merged|
      && closed.lineBox.LogicalTop() <= closed.runList[k].logicalRect.top
      && closed.runList[k].logicalRect.Bottom() == closed.lineBox.LogicalTop() + closed.lineBox.baselineOffset
  {
    var metrics := LineMetrics(lineBox, initialStrut);
    var finalBox := FinalLineBox(MetricsOf(metrics, merged).lineBox, false);
    var vertical := VerticallyAligned(SizedRuns(merged), finalBox);
    SizedAndAlignedExpandable(merged, finalBox);
    AlignedHorizontallyKeepsVertical(vertical, alignment, lineLogicalWidth - finalBox.LogicalWidth(), isLastLine);
    BaselineBoxBelowLineTop(metrics, merged, k);
    MetricsOfGrows(metrics, merged);
  }

  /** Aligning horizontally other than by justification moves runs sideways only. */
  lemma AlignedHorizontallyKeepsVertical(runList: seq<Run>, alignment: TextAlign, availableWidth: LayoutUnit, isLastLine: bool)
    requires forall k :: 0 <= k < |runList| ==> ExpandableRun(runList[k])
    requires alignment != Justify
    ensures forall k :: 0 <= k < |runList| ==>
      AlignedHorizontally(runList, alignment, availableWidth, isLastLine)[k].logicalRect.top == runList[k].logicalRect.top
      && AlignedHorizontally(runList, alignment, availableWidth, isLastLine)[k].logicalRect.height == runList[k].logicalRect.height
  {
  }

  // ---------------------------------------------------------------------------------------
  // The builder.

  /** An inline box or a replaced float: the items `append` places with their margins. */
  predicate IsAtomicInlineItem(item: InlineItem) {
    !item.TextItem? && !item.IsLineBreak() && !item.IsContainerMarker()
  }

  /** The start margin an atomic inline box is placed after; other items have none. */
  function MarginStartOf(item: InlineItem): LayoutUnit {
    if IsAtomicInlineItem(item) then item.layoutBox.geometry.marginStart else 0.0
  }

  /** The end margin that follows an atomic inline box on the line; other items have none. */
  function MarginEndOf(item: InlineItem): LayoutUnit {
    if IsAtomicInlineItem(item) then item.layoutBox.geometry.marginEnd else 0.0
  }

  function WidenedBy(lineBox: LineBox, delta: LayoutUnit): (r: LineBox)
    ensures r.LogicalWidth() == lineBox.LogicalWidth() + delta
    ensures r.(rect := lineBox.rect) == lineBox && r.rect.(width := lineBox.rect.width) == lineBox.rect
  {
    lineBox.(rect := lineBox.rect.(width := lineBox.rect.width + delta))
  }

  /** The line box once `removeTrailingTrimmableContent` has trimmed the window. */
  function TrimmedLineBox(lineBox: LineBox, runs: seq<InlineItemRun>, t: TrimmableContent,
                          visuallyEmptyBefore: Option<bool>, skipAlignment: bool): LineBox
  {
    if t.IsEmpty() || runs == [] || t.firstRunIndex.value > |runs| then lineBox
    else
      var shrunk := WidenedBy(lineBox, -TrimmedWidthOf(runs, t.firstRunIndex.value, |runs|));
      if visuallyEmptyBefore.Some? && NoVisuallyNonEmptyRun(TrimmedRuns(runs, t.firstRunIndex.value), skipAlignment)
      then shrunk.(isConsideredEmpty := true) else shrunk
  }

  /** `LineBuilder`. */
  class LineBuilder {
    var runs: seq<InlineItemRun>
    var trimmableContent: TrimmableContent
    var initialStrut: Option<LineBaseline>
    var lineLogicalWidth: LayoutUnit
    const horizontalAlignment: Option<TextAlign>
    const skipAlignment: bool
    var hasIntrusiveFloat: bool
    var lineBox: LineBox
    var lineIsVisuallyEmptyBeforeTrimmableContent: Option<bool>

    /**
     * Every run is well formed, the trimmable window agrees with the runs, and an open window
     * remembers whether the line was visually empty before it.
     */
    ghost predicate Valid()
      reads this`runs, this`trimmableContent, this`lineIsVisuallyEmptyBeforeTrimmableContent
    {
      (forall k :: 0 <= k < |runs| ==> WellFormedRun(runs[k]))
      && TracksTrailingContent(runs, trimmableContent)
      && (!trimmableContent.IsEmpty() ==> lineIsVisuallyEmptyBeforeTrimmableContent.Some?)
    }

    /** The line is considered visually empty exactly when none of its runs is visually non-empty. */
    ghost predicate TracksVisibility()
      reads this`runs, this`lineBox
    {
      lineBox.isConsideredEmpty == NoVisuallyNonEmptyRun(runs, skipAlignment)
    }

    function ContentLogicalWidth(): LayoutUnit
      reads this
    {
      lineBox.LogicalWidth()
    }

    /** `availableWidth`: what is left of the line once the content is placed. */
    function AvailableWidth(): (w: LayoutUnit)
      reads this
      ensures w + ContentLogicalWidth() == lineLogicalWidth
    {
      lineLogicalWidth - ContentLogicalWidth()
    }

    predicate IsVisuallyEmpty()
      reads this
    {
      lineBox.isConsideredEmpty
    }

    function TrailingTrimmableWidth(): LayoutUnit
      reads this
    {
      trimmableContent.width
    }

    constructor (horizontalAlignment: Option<TextAlign>, skipAlignment: bool)
      ensures this.horizontalAlignment == horizontalAlignment && this.skipAlignment == skipAlignment
      ensures runs == [] && trimmableContent == NoTrimmableContent && initialStrut.None?
      ensures lineLogicalWidth == 0.0 && !hasIntrusiveFloat && lineIsVisuallyEmptyBeforeTrimmableContent.None?
      ensures lineBox == LineBox(InlineRect(0.0, 0.0, 0.0, 0.0), LineBaseline(0.0, 0.0), 0.0, true)
      ensures Valid() && TracksVisibility()
    {
      this.horizontalAlignment := horizontalAlignment;
      this.skipAlignment := skipAlignment;
      runs := [];
      trimmableContent := NoTrimmableContent;
      initialStrut := None;
      lineLogicalWidth := 0.0;
      hasIntrusiveFloat := false;
      lineBox := LineBox(InlineRect(0.0, 0.0, 0.0, 0.0), LineBaseline(0.0, 0.0), 0.0, true);
      lineIsVisuallyEmptyBeforeTrimmableContent := None;
    }

    /**
     * `initialize`: an empty line at the constraints' top left, as tall as the initial line
     * height with the baseline at the initial offset, and considered visually empty.
     */
    method Initialize(constraints: Constraints)
      requires skipAlignment || constraints.heightAndBaseline.Some?
      modifies this
      ensures runs == [] && trimmableContent == NoTrimmableContent && lineIsVisuallyEmptyBeforeTrimmableContent.None?
      ensures initialStrut == (if constraints.heightAndBaseline.Some? then constraints.heightAndBaseline.value.strut else None)
      ensures var height := if constraints.heightAndBaseline.Some? then constraints.heightAndBaseline.value.height else 0.0;
        var offset := if constraints.heightAndBaseline.Some? then constraints.heightAndBaseline.value.baselineOffset else 0.0;
        lineBox == LineBox(InlineRect(constraints.logicalTop, constraints.logicalLeft, 0.0, height),
                           LineBaseline(offset, height - offset), offset, true)
        && lineBox.baseline.Height() == lineBox.LogicalHeight()
      ensures lineLogicalWidth == constraints.availableLogicalWidth && AvailableWidth() == constraints.availableLogicalWidth
      ensures hasIntrusiveFloat == constraints.lineIsConstrainedByFloat
      ensures Valid() && TracksVisibility()
    {
      var initialLineHeight := 0.0;
      var initialBaselineOffset := 0.0;
      if constraints.heightAndBaseline.Some? {
        initialStrut := constraints.heightAndBaseline.value.strut;
        initialLineHeight := constraints.heightAndBaseline.value.height;
        initialBaselineOffset := constraints.heightAndBaseline.value.baselineOffset;
      } else {
        initialStrut := None;
      }
      var lineRect := InlineRect(constraints.logicalTop, constraints.logicalLeft, 0.0, initialLineHeight);
      var baseline := LineBaseline(initialBaselineOffset, initialLineHeight - initialBaselineOffset);
      lineBox := LineBox(lineRect, baseline, initialBaselineOffset, true);
      lineLogicalWidth := constraints.availableLogicalWidth;
      hasIntrusiveFloat := constraints.lineIsConstrainedByFloat;
      runs := [];
      trimmableContent := NoTrimmableContent;
      lineIsVisuallyEmptyBeforeTrimmableContent := None;
    }

    /** `moveLogicalLeft`: the line's left edge moves right while its right edge stays put. */
    method MoveLogicalLeft(delta: LayoutUnit)
      requires delta >= 0.0
      modifies this
      ensures lineBox.LogicalLeft() + lineLogicalWidth == old(lineBox.LogicalLeft() + lineLogicalWidth)
      ensures lineBox.LogicalLeft() == old(lineBox.LogicalLeft()) + delta
      ensures AvailableWidth() == old(AvailableWidth()) - delta
      ensures lineBox.rect.(left := old(lineBox.rect.left)) == old(lineBox.rect)
      ensures lineBox.(rect := old(lineBox.rect)) == old(lineBox)
      ensures runs == old(runs) && trimmableContent == old(trimmableContent) && initialStrut == old(initialStrut)
      ensures hasIntrusiveFloat == old(hasIntrusiveFloat)
      ensures lineIsVisuallyEmptyBeforeTrimmableContent == old(lineIsVisuallyEmptyBeforeTrimmableContent)
    {
      if delta == 0.0 {
        return;
      }
      lineBox := lineBox.(rect := lineBox.rect.(left := lineBox.rect.left + delta));
      lineLogicalWidth := lineLogicalWidth - delta;
    }

    /** `moveLogicalRight`: the line's right edge moves left; its left edge stays put. */
    method MoveLogicalRight(delta: LayoutUnit)
      requires delta > 0.0
      modifies this
      ensures lineBox == old(lineBox) && lineBox.LogicalLeft() + lineLogicalWidth == old(lineBox.LogicalLeft() + lineLogicalWidth) - delta
      ensures AvailableWidth() == old(AvailableWidth()) - delta
      ensures runs == old(runs) && trimmableContent == old(trimmableContent) && initialStrut == old(initialStrut)
      ensures hasIntrusiveFloat == old(hasIntrusiveFloat)
      ensures lineIsVisuallyEmptyBeforeTrimmableContent == old(lineIsVisuallyEmptyBeforeTrimmableContent)
    {
      lineLogicalWidth := lineLogicalWidth - delta;
    }

    /**
     * `append`: dispatch on the item, then the line stops being visually empty when the new
     * run is visually non-empty. The line's visibility keeps telling whether any run is
     * visually non-empty.
     */
    method Append(inlineItem: InlineItem, logicalWidth: LayoutUnit)
      requires Valid()
      requires !inlineItem.FloatItem? || inlineItem.layoutBox.isReplaced
      modifies this
      ensures Valid()
      ensures old(TracksVisibility()) ==> TracksVisibility()
      ensures |runs| == |old(runs)| + 1 && runs[|runs| - 1].inlineItem == inlineItem
      ensures !inlineItem.ContainerEnd? ==> runs[..|runs| - 1] == old(runs)
      ensures lineBox.isConsideredEmpty == (old(lineBox.isConsideredEmpty) && !IsVisuallyNonEmpty(runs[|runs| - 1], skipAlignment))
      ensures lineLogicalWidth == old(lineLogicalWidth) && hasIntrusiveFloat == old(hasIntrusiveFloat)
      ensures var run := runs[|runs| - 1];
        ContentLogicalWidth() == run.logicalLeft + run.logicalWidth + MarginEndOf(inlineItem)
      ensures !inlineItem.ContainerEnd? ==>
        runs[|runs| - 1].logicalLeft == old(ContentLogicalWidth()) + MarginStartOf(inlineItem) &&
        ContentLogicalWidth() == old(ContentLogicalWidth()) + MarginStartOf(inlineItem) + runs[|runs| - 1].logicalWidth + MarginEndOf(inlineItem)
      ensures inlineItem.TextItem? ==>
        runs[|runs| - 1] == TextRun(old(runs), inlineItem, old(ContentLogicalWidth()), logicalWidth) &&
        trimmableContent == AfterTextAppended(old(trimmableContent), |old(runs)|, runs[|runs| - 1]) &&
        lineIsVisuallyEmptyBeforeTrimmableContent ==
          if OpensWindow(old(trimmableContent), runs[|runs| - 1]) then Some(old(lineBox.isConsideredEmpty))
          else old(lineIsVisuallyEmptyBeforeTrimmableContent)
      ensures !inlineItem.TextItem? ==>
        runs[|runs| - 1].logicalWidth == (if inlineItem.IsLineBreak() then 0.0 else logicalWidth) &&
        lineIsVisuallyEmptyBeforeTrimmableContent == old(lineIsVisuallyEmptyBeforeTrimmableContent)
      ensures inlineItem.IsLineBreak() || inlineItem.ContainerStart? ==> trimmableContent == old(trimmableContent)
      ensures inlineItem.ContainerEnd? ==>
        if old(trimmableContent.IsTrailingRunPartiallyTrimmable()) then
          trimmableContent == NoTrimmableContent &&
          ContentLogicalWidth() == old(ContentLogicalWidth()) - old(trimmableContent.width) + logicalWidth
        else
          trimmableContent == old(trimmableContent) && ContentLogicalWidth() == old(ContentLogicalWidth()) + logicalWidth
      ensures IsAtomicInlineItem(inlineItem) ==> trimmableContent == NoTrimmableContent
      ensures initialStrut == old(initialStrut)
      ensures lineBox.(rect := old(lineBox.rect), isConsideredEmpty := old(lineBox.isConsideredEmpty)) == old(lineBox)
      ensures lineBox.rect.(width := old(lineBox.rect.width)) == old(lineBox.rect)
    {
      AppendItem(inlineItem, logicalWidth);
      assert runs == runs[..|runs| - 1] + [runs[|runs| - 1]];
      NoVisuallyNonEmptyRunSnoc(runs[..|runs| - 1], runs[|runs| - 1], skipAlignment);
      if lineBox.isConsideredEmpty && IsVisuallyNonEmpty(runs[|runs| - 1], skipAlignment) {
        lineBox := lineBox.(isConsideredEmpty := false);
      }
    }

    /** The dispatch of `append` on the kind of item. */
    method AppendItem(inlineItem: InlineItem, logicalWidth: LayoutUnit)
      requires Valid()
      requires !inlineItem.FloatItem? || inlineItem.layoutBox.isReplaced
      modifies this
      ensures Valid()
      ensures |runs| == |old(runs)| + 1 && runs[|runs| - 1].inlineItem == inlineItem
      ensures !inlineItem.ContainerEnd? ==> runs[..|runs| - 1] == old(runs)
      ensures NoVisuallyNonEmptyRun(runs[..|runs| - 1], skipAlignment) == NoVisuallyNonEmptyRun(old(runs), skipAlignment)
      ensures lineBox.isConsideredEmpty == old(lineBox.isConsideredEmpty)
      ensures lineLogicalWidth == old(lineLogicalWidth) && hasIntrusiveFloat == old(hasIntrusiveFloat)
      ensures var run := runs[|runs| - 1];
        ContentLogicalWidth() == run.logicalLeft + run.logicalWidth + MarginEndOf(inlineItem)
      ensures !inlineItem.ContainerEnd? ==>
        runs[|runs| - 1].logicalLeft == old(ContentLogicalWidth()) + MarginStartOf(inlineItem) &&
        ContentLogicalWidth() == old(ContentLogicalWidth()) + MarginStartOf(inlineItem) + runs[|runs| - 1].logicalWidth + MarginEndOf(inlineItem)
      ensures inlineItem.TextItem? ==>
        runs[|runs| - 1] == TextRun(old(runs), inlineItem, old(ContentLogicalWidth()), logicalWidth) &&
        trimmableContent == AfterTextAppended(old(trimmableContent), |old(runs)|, runs[|runs| - 1]) &&
        lineIsVisuallyEmptyBeforeTrimmableContent ==
          if OpensWindow(old(trimmableContent), runs[|runs| - 1]) then Some(old(lineBox.isConsideredEmpty))
          else old(lineIsVisuallyEmptyBeforeTrimmableContent)
      ensures !inlineItem.TextItem? ==>
        runs[|runs| - 1].logicalWidth == (if inlineItem.IsLineBreak() then 0.0 else logicalWidth) &&
        lineIsVisuallyEmptyBeforeTrimmableContent == old(lineIsVisuallyEmptyBeforeTrimmableContent)
      ensures inlineItem.IsLineBreak() || inlineItem.ContainerStart? ==> trimmableContent == old(trimmableContent)
      ensures inlineItem.ContainerEnd? ==>
        if old(trimmableContent.IsTrailingRunPartiallyTrimmable()) then
          trimmableContent == NoTrimmableContent &&
          ContentLogicalWidth() == old(ContentLogicalWidth()) - old(trimmableContent.width) + logicalWidth
        else
          trimmableContent == old(trimmableContent) && ContentLogicalWidth() == old(ContentLogicalWidth()) + logicalWidth
      ensures IsAtomicInlineItem(inlineItem) ==> trimmableContent == NoTrimmableContent
      ensures initialStrut == old(initialStrut)
      ensures lineBox.(rect := old(lineBox.rect)) == old(lineBox) && lineBox.rect.(width := old(lineBox.rect.width)) == old(lineBox.rect)
    {
      if inlineItem.TextItem? {
        AppendTextContent(inlineItem, logicalWidth);
        assert runs[..|runs| - 1] == old(runs);
      } else if inlineItem.IsLineBreak() {
        AppendLineBreak(inlineItem);
        assert runs[..|runs| - 1] == old(runs);
      } else if inlineItem.ContainerStart? {
        AppendInlineContainerStart(inlineItem, logicalWidth);
        assert runs[..|runs| - 1] == old(runs);
      } else if inlineItem.ContainerEnd? {
        AppendInlineContainerEnd(inlineItem, logicalWidth);
        SameVisibility(old(runs), runs[..|runs| - 1], skipAlignment);
      } else if inlineItem.layoutBox.isReplaced {
        AppendReplacedInlineBox(inlineItem, logicalWidth);
        assert runs[..|runs| - 1] == old(runs);
      } else {
        AppendNonReplacedInlineBox(inlineItem, logicalWidth);
        assert runs[..|runs| - 1] == old(runs);
      }
    }

    /** `appendNonBreakableSpace`: a run at `logicalLeft` and a line that much wider. */
    method AppendNonBreakableSpace(inlineItem: InlineItem, logicalLeft: LayoutUnit, logicalWidth: LayoutUnit)
      requires Valid() && !inlineItem.TextItem? && (inlineItem.IsContainerMarker() || inlineItem.IsLineBreak())
      modifies this
      ensures runs == old(runs) + [InlineItemRun(inlineItem, logicalLeft, logicalWidth, None, false, false)]
      ensures lineBox == WidenedBy(old(lineBox), logicalWidth)
      ensures trimmableContent == old(trimmableContent) && initialStrut == old(initialStrut)
      ensures lineLogicalWidth == old(lineLogicalWidth) && hasIntrusiveFloat == old(hasIntrusiveFloat)
      ensures lineIsVisuallyEmptyBeforeTrimmableContent == old(lineIsVisuallyEmptyBeforeTrimmableContent)
      ensures Valid()
    {
      var run := InlineItemRun(inlineItem, logicalLeft, logicalWidth, None, false, false);
      MarkerAppendKeepsWindow(runs, trimmableContent, run);
      runs := runs + [run];
      lineBox := WidenedBy(lineBox, logicalWidth);
    }

    /** `appendInlineContainerStart`: a marker at the content's end; the window is kept. */
    method AppendInlineContainerStart(inlineItem: InlineItem, logicalWidth: LayoutUnit)
      requires Valid() && inlineItem.ContainerStart?
      modifies this
      ensures runs == old(runs) + [InlineItemRun(inlineItem, old(ContentLogicalWidth()), logicalWidth, None, false, false)]
      ensures ContentLogicalWidth() == old(ContentLogicalWidth()) + logicalWidth
      ensures lineBox == WidenedBy(old(lineBox), logicalWidth)
      ensures trimmableContent == old(trimmableContent) && initialStrut == old(initialStrut)
      ensures lineLogicalWidth == old(lineLogicalWidth) && hasIntrusiveFloat == old(hasIntrusiveFloat)
      ensures lineIsVisuallyEmptyBeforeTrimmableContent == old(lineIsVisuallyEmptyBeforeTrimmableContent)
      ensures Valid()
    {
      AppendNonBreakableSpace(inlineItem, ContentLogicalWidth(), logicalWidth);
    }

    /**
     * `appendInlineContainerEnd`: trailing letter spacing does not spill out of the container
     * (section 8.2 of CSS Text Module Level 3), so a partially trimmable window is trimmed
     * first; the marker then goes at the end of the (trimmed) content.
     */
    method AppendInlineContainerEnd(inlineItem: InlineItem, logicalWidth: LayoutUnit)
      requires Valid() && inlineItem.ContainerEnd?
      modifies this
      ensures |runs| == |old(runs)| + 1
      ensures runs[|runs| - 1] == InlineItemRun(inlineItem, ContentLogicalWidth() - logicalWidth, logicalWidth, None, false, false)
      ensures old(trimmableContent.IsTrailingRunPartiallyTrimmable()) ==>
        var first := old(trimmableContent.firstRunIndex.value);
        runs[..|runs| - 1] == old(runs)[first := old(runs)[first].RemoveTrailingLetterSpacing()]
        && ContentLogicalWidth() == old(ContentLogicalWidth()) - old(runs)[first].TrailingLetterSpacing() + logicalWidth
        && old(runs)[first].TrailingLetterSpacing() == old(trimmableContent.width)
        && trimmableContent == NoTrimmableContent
      ensures !old(trimmableContent.IsTrailingRunPartiallyTrimmable()) ==>
        runs[..|runs| - 1] == old(runs) && ContentLogicalWidth() == old(ContentLogicalWidth()) + logicalWidth
        && trimmableContent == old(trimmableContent)
      ensures forall k :: 0 <= k < |old(runs)| ==> IsVisuallyNonEmpty(runs[k], skipAlignment) == IsVisuallyNonEmpty(old(runs)[k], skipAlignment)
      ensures lineBox.(rect := old(lineBox.rect)) == old(lineBox) && lineBox.rect.(width := old(lineBox.rect.width)) == old(lineBox.rect)
      ensures initialStrut == old(initialStrut)
      ensures lineLogicalWidth == old(lineLogicalWidth) && hasIntrusiveFloat == old(hasIntrusiveFloat)
      ensures lineIsVisuallyEmptyBeforeTrimmableContent == old(lineIsVisuallyEmptyBeforeTrimmableContent)
      ensures Valid()
    {
      if trimmableContent.IsTrailingRunPartiallyTrimmable() {
        var trimmed := TrimTrailingRun();
        lineBox := WidenedBy(lineBox, -trimmed);
      }
      AppendNonBreakableSpace(inlineItem, ContentLogicalWidth(), logicalWidth);
    }

    /**
     * `appendTextContent`: the run goes at the content's end and the line grows by its
     * (possibly collapsed) width; non-trimmable text closes the window, trimmable text
     * extends it or opens a new one, recording whether the line was visually empty before.
     */
    method AppendTextContent(inlineItem: InlineItem, logicalWidth: LayoutUnit)
      requires Valid() && inlineItem.TextItem?
      modifies this
      ensures runs == old(runs) + [TextRun(old(runs), inlineItem, old(ContentLogicalWidth()), logicalWidth)]
      ensures ContentLogicalWidth() == old(ContentLogicalWidth()) + runs[|runs| - 1].logicalWidth
      ensures lineBox == WidenedBy(old(lineBox), runs[|runs| - 1].logicalWidth)
      ensures trimmableContent == AfterTextAppended(old(trimmableContent), |old(runs)|, runs[|runs| - 1])
      ensures lineIsVisuallyEmptyBeforeTrimmableContent ==
        if OpensWindow(old(trimmableContent), runs[|runs| - 1]) then Some(old(lineBox.isConsideredEmpty))
        else old(lineIsVisuallyEmptyBeforeTrimmableContent)
      ensures initialStrut == old(initialStrut)
      ensures lineLogicalWidth == old(lineLogicalWidth) && hasIntrusiveFloat == old(hasIntrusiveFloat)
      ensures Valid()
    {
      var collapsesToZeroAdvanceWidth := WillCollapseCompletely(inlineItem);
      var collapsedRun := inlineItem.IsCollapsible() && inlineItem.length > 1;
      var contentLength := if collapsedRun then 1 else inlineItem.length;
      var lineRun := InlineItemRun(inlineItem, ContentLogicalWidth(), logicalWidth,
                                   Some(TextContext(inlineItem.start, contentLength, None)), false, false);
      if collapsesToZeroAdvanceWidth {
        lineRun := lineRun.CollapseToZeroAdvanceWidth();
      }
      if collapsedRun {
        lineRun := lineRun.(isCollapsed := true);
      }
      assert lineRun == TextRun(runs, inlineItem, ContentLogicalWidth(), logicalWidth);
      TextAppendKeepsWindow(runs, trimmableContent, lineRun);
      runs := runs + [lineRun];
      lineBox := WidenedBy(lineBox, lineRun.logicalWidth);

      if !trimmableContent.IsEmpty() && !lineRun.IsTrimmableWhitespace() {
        trimmableContent := NoTrimmableContent;
      }
      if lineRun.IsTrimmableWhitespace() || lineRun.HasTrailingLetterSpacing() {
        if trimmableContent.IsEmpty() {
          lineIsVisuallyEmptyBeforeTrimmableContent := Some(IsVisuallyEmpty());
        }
        trimmableContent := trimmableContent.Append(|runs| - 1, lineRun);
      }
    }

    /** `willCollapseCompletely`: the backward scan over the runs so far. */
    method WillCollapseCompletely(inlineItem: InlineItem) returns (collapses: bool)
      requires inlineItem.TextItem?
      ensures collapses == CollapsesCompletely(runs, inlineItem)
    {
      if inlineItem.length == 0 {
        return true;
      }
      if runs == [] {
        return !ShouldPreserveLeadingContent(inlineItem);
      }
      if !inlineItem.IsCollapsible() {
        return false;
      }
      var i: nat := |runs|;
      while i > 0
        invariant i <= |runs|
        invariant PrecedingContentCollapses(runs, i) == PrecedingContentCollapses(runs, |runs|)
      {
        var run := runs[i - 1];
        if run.IsBox() {
          return false;
        }
        if run.IsText() {
          return run.IsCollapsible();
        }
        i := i - 1;
      }
      return true;
    }

    /**
     * `appendNonReplacedInlineBox`: the box sits after its start margin and the line grows by
     * the box and both horizontal margins; a box closes the trimmable window.
     */
    method AppendNonReplacedInlineBox(inlineItem: InlineItem, logicalWidth: LayoutUnit)
      requires Valid() && !inlineItem.TextItem?
      modifies this
      ensures var geometry := inlineItem.layoutBox.geometry;
        runs == old(runs) + [InlineItemRun(inlineItem, old(ContentLogicalWidth()) + geometry.marginStart, logicalWidth, None, false, false)]
        && lineBox == WidenedBy(old(lineBox), logicalWidth + geometry.marginStart + geometry.marginEnd)
      ensures trimmableContent == NoTrimmableContent && initialStrut == old(initialStrut)
      ensures lineLogicalWidth == old(lineLogicalWidth) && hasIntrusiveFloat == old(hasIntrusiveFloat)
      ensures lineIsVisuallyEmptyBeforeTrimmableContent == old(lineIsVisuallyEmptyBeforeTrimmableContent)
      ensures Valid()
    {
      var geometry := inlineItem.layoutBox.geometry;
      runs := runs + [InlineItemRun(inlineItem, ContentLogicalWidth() + geometry.marginStart, logicalWidth, None, false, false)];
      lineBox := WidenedBy(lineBox, logicalWidth + geometry.marginStart + geometry.marginEnd);
      trimmableContent := NoTrimmableContent;
    }

    /** `appendReplacedInlineBox`: placed like any other inline box. */
    method AppendReplacedInlineBox(inlineItem: InlineItem, logicalWidth: LayoutUnit)
      requires Valid() && !inlineItem.TextItem? && inlineItem.layoutBox.isReplaced
      modifies this
      ensures var geometry := inlineItem.layoutBox.geometry;
        runs == old(runs) + [InlineItemRun(inlineItem, old(ContentLogicalWidth()) + geometry.marginStart, logicalWidth, None, false, false)]
        && lineBox == WidenedBy(old(lineBox), logicalWidth + geometry.marginStart + geometry.marginEnd)
      ensures trimmableContent == NoTrimmableContent && initialStrut == old(initialStrut)
      ensures lineLogicalWidth == old(lineLogicalWidth) && hasIntrusiveFloat == old(hasIntrusiveFloat)
      ensures lineIsVisuallyEmptyBeforeTrimmableContent == old(lineIsVisuallyEmptyBeforeTrimmableContent)
      ensures Valid()
    {
      AppendNonReplacedInlineBox(inlineItem, logicalWidth);
    }

    /**
     * `appendLineBreak`: a zero-width run at the content's end; a soft line break also
     * carries the one character of text it stands for. The line does not grow.
     */
    method AppendLineBreak(inlineItem: InlineItem)
      requires Valid() && inlineItem.IsLineBreak()
      modifies this
      ensures runs == old(runs) + [InlineItemRun(inlineItem, old(ContentLogicalWidth()), 0.0,
        if inlineItem.SoftLineBreak? then Some(TextContext(inlineItem.position, 1, None)) else None, false, false)]
      ensures lineBox == old(lineBox) && trimmableContent == old(trimmableContent) && initialStrut == old(initialStrut)
      ensures lineLogicalWidth == old(lineLogicalWidth) && hasIntrusiveFloat == old(hasIntrusiveFloat)
      ensures lineIsVisuallyEmptyBeforeTrimmableContent == old(lineIsVisuallyEmptyBeforeTrimmableContent)
      ensures Valid()
    {
      var run := InlineItemRun(inlineItem, ContentLogicalWidth(), 0.0,
        if inlineItem.SoftLineBreak? then Some(TextContext(inlineItem.position, 1, None)) else None, false, false);
      MarkerAppendKeepsWindow(runs, trimmableContent, run);
      runs := runs + [run];
    }

    /**
     * `TrimmableContent::trim`: every run of the window moves left by what was trimmed before
     * it, whitespace collapses to zero advance width, letter spacing is removed; the window is
     * reset and the trimmed width returned.
     */
    method Trim() returns (trimmedWidth: LayoutUnit)
      requires Valid() && !trimmableContent.IsEmpty()
      modifies this
      ensures runs == TrimmedRuns(old(runs), old(trimmableContent.firstRunIndex.value))
      ensures trimmedWidth == TrimmedWidthOf(old(runs), old(trimmableContent.firstRunIndex.value), |old(runs)|)
      ensures trimmableContent == NoTrimmableContent
      ensures lineBox == old(lineBox) && initialStrut == old(initialStrut)
      ensures lineLogicalWidth == old(lineLogicalWidth) && hasIntrusiveFloat == old(hasIntrusiveFloat)
      ensures lineIsVisuallyEmptyBeforeTrimmableContent == old(lineIsVisuallyEmptyBeforeTrimmableContent)
      ensures Valid()
    {
      var first := trimmableContent.firstRunIndex.value;
      runs, trimmedWidth := TrimWindow(runs, first);
      trimmableContent := NoTrimmableContent;
    }

    /**
     * `TrimmableContent::trimTrailingRun`, scanning back from the last run to the window's
     * first run: when the window is partially trimmable, the run found is the letter-spaced
     * text that opened the window; its letter spacing is removed and the window, whose whole
     * width that was, is closed.
     */
    method TrimTrailingRun() returns (trimmedWidth: LayoutUnit)
      requires Valid() && trimmableContent.IsTrailingRunPartiallyTrimmable()
      modifies this
      ensures var first := old(trimmableContent.firstRunIndex.value);
        runs == old(runs)[first := old(runs)[first].RemoveTrailingLetterSpacing()]
        && trimmedWidth == old(runs)[first].TrailingLetterSpacing() == old(trimmableContent.width)
        && trimmedWidth > 0.0
      ensures trimmableContent == NoTrimmableContent
      ensures forall k :: 0 <= k < |runs| ==> IsVisuallyNonEmpty(runs[k], skipAlignment) == IsVisuallyNonEmpty(old(runs)[k], skipAlignment)
      ensures lineBox == old(lineBox) && initialStrut == old(initialStrut)
      ensures lineLogicalWidth == old(lineLogicalWidth) && hasIntrusiveFloat == old(hasIntrusiveFloat)
      ensures lineIsVisuallyEmptyBeforeTrimmableContent == old(lineIsVisuallyEmptyBeforeTrimmableContent)
      ensures Valid()
    {
      var first := trimmableContent.firstRunIndex.value;
      PartiallyTrimmableHasNoTextAfter(runs, trimmableContent);
      var index := |runs| - 1;
      while !runs[index].IsText()
        invariant first <= index < |runs|
        decreases index
      {
        index := index - 1;
      }
      var run := runs[index];
      trimmedWidth := run.TrailingLetterSpacing();
      WindowWidthIsFirst(runs, first, |runs|);
      runs := runs[index := run.RemoveTrailingLetterSpacing()];
      trimmableContent := TrimmableContent(None, trimmableContent.width - trimmedWidth, trimmableContent.lastRunIsFullyTrimmable);
    }

    /**
     * `removeTrailingTrimmableContent`: trim the window and shrink the line by what was
     * trimmed; if the window remembered the line's visibility, recheck it, which can only turn
     * the line visually empty.
     */
    method RemoveTrailingTrimmableContent()
      requires Valid()
      modifies this
      ensures runs == TrimmedLineRuns(old(runs), old(trimmableContent))
      ensures lineBox == TrimmedLineBox(old(lineBox), old(runs), old(trimmableContent),
                                        old(lineIsVisuallyEmptyBeforeTrimmableContent), skipAlignment)
      ensures old(lineBox.isConsideredEmpty) ==> lineBox.isConsideredEmpty
      ensures old(trimmableContent.IsEmpty()) ==> runs == old(runs) && lineBox == old(lineBox)
      ensures trimmableContent == NoTrimmableContent && initialStrut == old(initialStrut)
      ensures lineLogicalWidth == old(lineLogicalWidth) && hasIntrusiveFloat == old(hasIntrusiveFloat)
      ensures old(TracksVisibility()) ==> TracksVisibility()
      ensures Valid()
    {
      if trimmableContent.IsEmpty() || runs == [] {
        return;
      }
      TrimmedRunsStayHidden(runs, trimmableContent.firstRunIndex.value, skipAlignment);
      TrimAndShrink();
      if lineIsVisuallyEmptyBeforeTrimmableContent.None? {
        return;
      }
      var lineIsVisuallyEmpty := HasNoVisuallyNonEmptyRun();
      if lineIsVisuallyEmpty {
        lineBox := lineBox.(isConsideredEmpty := true);
      }
      lineIsVisuallyEmptyBeforeTrimmableContent := None;
    }

    /** `m_lineBox.shrinkHorizontally(m_trimmableContent.trim())`. */
    method TrimAndShrink()
      requires Valid() && !trimmableContent.IsEmpty()
      modifies this
      ensures runs == TrimmedRuns(old(runs), old(trimmableContent.firstRunIndex.value))
      ensures lineBox == WidenedBy(old(lineBox), -TrimmedWidthOf(old(runs), old(trimmableContent.firstRunIndex.value), |old(runs)|))
      ensures trimmableContent == NoTrimmableContent && initialStrut == old(initialStrut)
      ensures lineLogicalWidth == old(lineLogicalWidth) && hasIntrusiveFloat == old(hasIntrusiveFloat)
      ensures lineIsVisuallyEmptyBeforeTrimmableContent == old(lineIsVisuallyEmptyBeforeTrimmableContent)
      ensures Valid()
    {
      var trimmed := Trim();
      lineBox := WidenedBy(lineBox, -trimmed);
    }

    /** The `lineIsVisuallyEmpty` scan of `removeTrailingTrimmableContent`. */
    method HasNoVisuallyNonEmptyRun() returns (empty: bool)
      ensures empty == NoVisuallyNonEmptyRun(runs, skipAlignment)
    {
      var i := 0;
      while i < |runs|
        invariant i <= |runs|
        invariant forall k :: 0 <= k < i ==> !IsVisuallyNonEmpty(runs[k], skipAlignment)
      {
        if IsVisuallyNonEmpty(runs[i], skipAlignment) {
          return false;
        }
        i := i + 1;
      }
      return true;
    }

    /**
     * `close`: trim the trailing content, merge continuous text, then (unless alignment is
     * skipped) size the line and its runs and align them.
     */
    method Close(isLastLine: bool, lineDescentNeedsCollapsing: bool) returns (runList: seq<Run>)
      requires Valid() && (skipAlignment || horizontalAlignment.Some?)
      modifies this
      ensures Valid()
      ensures runs == TrimmedLineRuns(old(runs), old(trimmableContent))
      ensures var closed := ClosedLineOf(runs, TrimmedLineBox(old(lineBox), old(runs), old(trimmableContent),
                                                             old(lineIsVisuallyEmptyBeforeTrimmableContent), skipAlignment),
                                         old(initialStrut), horizontalAlignment, skipAlignment, lineLogicalWidth,
                                         isLastLine, lineDescentNeedsCollapsing);
        runList == closed.runList && lineBox == closed.lineBox && initialStrut == closed.initialStrut
      ensures trimmableContent == NoTrimmableContent
      ensures lineLogicalWidth == old(lineLogicalWidth) && hasIntrusiveFloat == old(hasIntrusiveFloat)
    {
      RemoveTrailingTrimmableContent();
      ghost var trimmedBox := lineBox;
      assert trimmedBox == TrimmedLineBox(old(lineBox), old(runs), old(trimmableContent),
                                          old(lineIsVisuallyEmptyBeforeTrimmableContent), skipAlignment);
      ghost var trimmedRuns := runs;
      var closed := CloseRuns(runs, lineBox, initialStrut, horizontalAlignment, skipAlignment, lineLogicalWidth,
                              isLastLine, lineDescentNeedsCollapsing);
      assert closed == ClosedLineOf(trimmedRuns, trimmedBox, old(initialStrut), horizontalAlignment, skipAlignment,
                                    lineLogicalWidth, isLastLine, lineDescentNeedsCollapsing);
      lineBox := closed.lineBox;
      initialStrut := closed.initialStrut;
      runList := closed.runList;
      assert runs == trimmedRuns;
    }
  }

  /**
   * The body of `close` after trimming: merge, then (unless alignment is skipped) stretch the
   * line by every run, size the runs, collapse an empty line and the descent, and align.
   */
  method CloseRuns(runs: seq<InlineItemRun>, lineBox: LineBox, initialStrut: Option<LineBaseline>,
                   horizontalAlignment: Option<TextAlign>, skipAlignment: bool, lineLogicalWidth: LayoutUnit,
                   isLastLine: bool, lineDescentNeedsCollapsing: bool) returns (closed: ClosedLine)
    requires forall k :: 0 <= k < |runs| ==> WellFormedRun(runs[k])
    requires skipAlignment || horizontalAlignment.Some?
    ensures closed == ClosedLineOf(runs, lineBox, initialStrut, horizontalAlignment, skipAlignment, lineLogicalWidth,
                                   isLastLine, lineDescentNeedsCollapsing)
  {
    var justify := horizontalAlignment == Some(Justify);
    var merged := MergeRuns(runs, justify);
    if skipAlignment {
      return ClosedLine(merged, lineBox, initialStrut);
    }
    MergedFromExpandable(runs, 0, justify);
    closed := AlignLine(merged, lineBox, initialStrut, horizontalAlignment.value, lineLogicalWidth, isLastLine, lineDescentNeedsCollapsing);
  }

  /** Size the line and its runs, then align them vertically and horizontally. */
  method AlignLine(merged: seq<Run>, lineBox: LineBox, initialStrut: Option<LineBaseline>, alignment: TextAlign,
                   lineLogicalWidth: LayoutUnit, isLastLine: bool, lineDescentNeedsCollapsing: bool) returns (closed: ClosedLine)
    requires forall k :: 0 <= k < |merged| ==> ExpandableRun(merged[k])
    ensures closed == AlignedLine(merged, lineBox, initialStrut, alignment, lineLogicalWidth, isLastLine, lineDescentNeedsCollapsing)
  {
    var metrics, sized := SizeRuns(merged, LineMetrics(lineBox, initialStrut));
    var finalBox := EmptyLineCollapsed(metrics.lineBox);
    if lineDescentNeedsCollapsing {
      finalBox := DescentCollapsed(finalBox);
    }
    var vertical := AlignContentVertically(sized, finalBox);
    assert vertical == VerticallyAligned(SizedRuns(merged), finalBox);
    SizedAndAlignedExpandable(merged, finalBox);
    var runList := AlignContentHorizontally(vertical, alignment, lineLogicalWidth - finalBox.LogicalWidth(), isLastLine);
    closed := ClosedLine(runList, finalBox, metrics.initialStrut);
  }

  /** The window's width when its first run is text with trailing letter spacing and nothing else trims. */
  lemma {:induction false} WindowWidthIsFirst(runs: seq<InlineItemRun>, first: nat, end: nat)
    requires first < end <= |runs| && forall k :: first < k < end ==> !runs[k].IsText()
    ensures WindowWidth(runs, first, end) == TrimmableWidth(runs[first])
  {
    if end - 1 > first {
      WindowWidthIsFirst(runs, first, end - 1);
    }
  }

  /** The loop of `TrimmableContent::trim` over the runs from `first` on. */
  method TrimWindow(runs: seq<InlineItemRun>, first: nat) returns (trimmed: seq<InlineItemRun>, trimmedWidth: LayoutUnit)
    requires first <= |runs|
    ensures trimmed == TrimmedRuns(runs, first)
    ensures trimmedWidth == TrimmedWidthOf(runs, first, |runs|)
  {
    trimmed := runs;
    trimmedWidth := 0.0;
    var index := first;
    while index < |trimmed|
      invariant first <= index <= |trimmed| == |runs|
      invariant forall k :: 0 <= k < first ==> trimmed[k] == runs[k]
      invariant forall k :: index <= k < |runs| ==> trimmed[k] == runs[k]
      invariant forall k {:trigger trimmed[k]} :: first <= k < index ==> trimmed[k] == TrimmedRun(runs[k], TrimmedWidthOf(runs, first, k))
      invariant trimmedWidth == TrimmedWidthOf(runs, first, index)
    {
      var run := trimmed[index];
      trimmed := trimmed[index := TrimmedRun(run, trimmedWidth)];
      trimmedWidth := trimmedWidth + TrimmedWidth(run);
      index := index + 1;
    }
  }

  /** The sizing loop of `close`: each run stretches the line and takes its content height. */
  method SizeRuns(runs: seq<Run>, initial: LineMetrics) returns (metrics: LineMetrics, sized: seq<Run>)
    ensures metrics == MetricsOf(initial, runs) && sized == SizedRuns(runs)
  {
    metrics := initial;
    sized := [];
    var i := 0;
    while i < |runs|
      invariant i <= |runs| && metrics == MetricsOf(initial, runs[..i])
      invariant |sized| == i && forall k :: 0 <= k < i ==> sized[k] == WithContentHeight(runs[k])
    {
      assert runs[..i + 1][..i] == runs[..i];
      metrics := AdjustedLineMetrics(metrics, runs[i]);
      sized := sized + [WithContentHeight(runs[i])];
      i := i + 1;
    }
    assert runs[..i] == runs;
  }
}
