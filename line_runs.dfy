/**
 * The runs of one line (`LineBuilder::InlineItemRun`, `LineBuilder::Run`) and what
 * `LineBuilder::close` does with them once the line is complete: merging continuous text
 * (`ContinousContent`), justification, horizontal and vertical alignment, and the
 * line-height and baseline bookkeeping.
 */
module InlineLineRuns {
  import opened Wrappers
  import opened LayoutStyle
  import opened InlineItems

  // ---------------------------------------------------------------------------------------
  // Geometry.

  /** `Display::InlineRect`: logical top, left, width and height. */
  datatype InlineRect = InlineRect(top: LayoutUnit, left: LayoutUnit, width: LayoutUnit, height: LayoutUnit) {
    function Right(): LayoutUnit { left + width }
    function Bottom(): LayoutUnit { top + height }
  }

  /**
   * `Display::LineBox`: the line's rectangle (its width is the content width), baseline
   * metrics and baseline offset, and whether the line counts as visually empty.
   */
  datatype LineBox = LineBox(rect: InlineRect, baseline: LineBaseline, baselineOffset: LayoutUnit, isConsideredEmpty: bool) {
    function LogicalTop(): LayoutUnit { rect.top }
    function LogicalLeft(): LayoutUnit { rect.left }
    function LogicalWidth(): LayoutUnit { rect.width }
    function LogicalHeight(): LayoutUnit { rect.height }
    function LogicalRight(): LayoutUnit { rect.Right() }
    function LogicalBottom(): LayoutUnit { rect.Bottom() }
    /** The baseline lies at least the ascent below the line's top: what rises above it starts within the line. */
    predicate BaselineClearsAscent() { baselineOffset >= baseline.ascent }
  }

  // ---------------------------------------------------------------------------------------
  // Text content and expansion.

  /**
   * `ExpansionBehavior`: an `unsigned` of `ExpansionBehaviorFlags` (TextFlags.h). Bits 0-1
   * hold the trailing edge's policy and bits 2-3 the leading edge's: 0 forbids expansion,
   * 1 allows it, 2 forces it.
   */
  type ExpansionBehavior = bv4

  const ForbidTrailingExpansion: ExpansionBehavior := 0
  const AllowTrailingExpansion: ExpansionBehavior := 1
  const TrailingExpansionMask: ExpansionBehavior := 3
  const ForbidLeadingExpansion: ExpansionBehavior := 0
  const AllowLeadingExpansion: ExpansionBehavior := 4
  const LeadingExpansionMask: ExpansionBehavior := 12

  /** `DefaultExpansion`: the trailing edge may expand, the leading edge may not. */
  const DefaultExpansion: ExpansionBehavior := AllowTrailingExpansion | ForbidLeadingExpansion

  function TrailingPolicy(b: ExpansionBehavior): ExpansionBehavior { b & TrailingExpansionMask }
  function LeadingPolicy(b: ExpansionBehavior): ExpansionBehavior { b & LeadingExpansionMask }

  datatype ExpansionContext = ExpansionContext(behavior: ExpansionBehavior, horizontalExpansion: LayoutUnit)

  /** `Display::Run::TextContext`: the slice of the box's text a run paints. */
  datatype TextContext = TextContext(start: nat, length: nat, expansion: Option<ExpansionContext>)

  // ---------------------------------------------------------------------------------------
  // Runs under construction.

  /** `LineBuilder::InlineItemRun`: an item placed on the line at a line-relative left. */
  datatype InlineItemRun = InlineItemRun(
    inlineItem: InlineItem,
    logicalLeft: LayoutUnit,
    logicalWidth: LayoutUnit,
    textContext: Option<TextContext>,
    isCollapsed: bool,
    collapsedToZeroAdvanceWidth: bool)
  {
    predicate IsText() { inlineItem.TextItem? }
    predicate IsBox() { inlineItem.BoxItem? }
    predicate IsContainerStart() { inlineItem.ContainerStart? }
    predicate IsContainerEnd() { inlineItem.ContainerEnd? }
    predicate IsLineBreak() { inlineItem.IsLineBreak() }
    predicate IsWhitespace() { inlineItem.IsWhitespace() }
    predicate IsCollapsible() { inlineItem.IsCollapsible() }
    function Style(): Style { inlineItem.Style() }

    /** Whitespace that is not collapsed away is where justification adds space. */
    predicate HasExpansionOpportunity() { IsWhitespace() && !collapsedToZeroAdvanceWidth }

    /** Whitespace that `pre`, `pre-wrap` and `break-spaces` do not keep at the end of a line. */
    predicate IsTrimmableWhitespace() { IsWhitespace() && !Style().ShouldPreserveTrailingWhitespace() }

    predicate HasTrailingLetterSpacing() { !IsWhitespace() && Style().letterSpacing > 0.0 }

    function TrailingLetterSpacing(): (r: LayoutUnit)
      ensures HasTrailingLetterSpacing() ==> r > 0.0
      ensures !HasTrailingLetterSpacing() ==> r == 0.0
    {
      if HasTrailingLetterSpacing() then Style().letterSpacing else 0.0
    }

    /** `moveHorizontally`: only the left edge moves, by exactly the offset. */
    function MoveHorizontally(offset: LayoutUnit): (r: InlineItemRun)
      ensures r.logicalLeft - logicalLeft == offset
      ensures r.(logicalLeft := logicalLeft) == this
    {
      this.(logicalLeft := logicalLeft + offset)
    }

    /** `setCollapsesToZeroAdvanceWidth`. */
    function CollapseToZeroAdvanceWidth(): (r: InlineItemRun)
      ensures r.collapsedToZeroAdvanceWidth && r.logicalWidth == 0.0 && !r.HasExpansionOpportunity()
      ensures r.(logicalWidth := logicalWidth, collapsedToZeroAdvanceWidth := collapsedToZeroAdvanceWidth) == this
    {
      this.(collapsedToZeroAdvanceWidth := true, logicalWidth := 0.0)
    }

    /** `removeTrailingLetterSpacing`. */
    function RemoveTrailingLetterSpacing(): (r: InlineItemRun)
      ensures r.logicalWidth == logicalWidth - TrailingLetterSpacing()
      ensures r.(logicalWidth := logicalWidth) == this
    {
      this.(logicalWidth := logicalWidth - TrailingLetterSpacing())
    }
  }

  /**
   * What the line builder guarantees of every run it creates: text runs carry their text
   * slice, and a text run without characters has collapsed to zero advance width.
   */
  predicate WellFormedRun(r: InlineItemRun) {
    r.IsText() ==> r.textContext.Some? && (r.textContext.value.length == 0 ==> r.collapsedToZeroAdvanceWidth)
  }

  // ---------------------------------------------------------------------------------------
  // Display runs.

  /** `LineBuilder::Run`: a finished run of the line. */
  datatype Run = Run(
    inlineItem: InlineItem,
    logicalRect: InlineRect,
    textContext: Option<TextContext>,
    expansionOpportunityCount: nat,
    isCollapsedToVisuallyEmpty: bool)
  {
    predicate IsText() { inlineItem.TextItem? }
    predicate IsBox() { inlineItem.BoxItem? }
    predicate IsLineBreak() { inlineItem.HardLineBreak? || inlineItem.SoftLineBreak? }
    predicate IsContainerStart() { inlineItem.ContainerStart? }
    predicate IsContainerEnd() { inlineItem.ContainerEnd? }
    function LayoutBox(): LayoutBox { inlineItem.layoutBox }
    function Style(): Style { inlineItem.Style() }

    predicate HasExpansionOpportunity() { expansionOpportunityCount != 0 }

    /** `moveHorizontally`: only the left edge moves. */
    function MoveHorizontally(offset: LayoutUnit): (r: Run)
      ensures r.logicalRect.left == logicalRect.left + offset
      ensures r.logicalRect.width == logicalRect.width && r.logicalRect.top == logicalRect.top
      ensures r.(logicalRect := logicalRect) == this
    {
      this.(logicalRect := logicalRect.(left := logicalRect.left + offset))
    }
  }

  /** A run with expansion opportunities carries an expansion context in its text slice. */
  predicate ExpandableRun(r: Run) {
    r.HasExpansionOpportunity() ==> r.textContext.Some? && r.textContext.value.expansion.Some?
  }

  /**
   * `Run(const InlineItemRun&)`: a run of its own; whitespace is one expansion opportunity,
   * which may expand at its trailing edge but not at its leading one.
   */
  function RunOf(r: InlineItemRun): (run: Run)
    requires WellFormedRun(r)
    ensures run.inlineItem == r.inlineItem
    ensures run.logicalRect == InlineRect(0.0, r.logicalLeft, r.logicalWidth, 0.0)
    ensures run.HasExpansionOpportunity() <==> r.HasExpansionOpportunity()
    ensures run.expansionOpportunityCount <= 1 && ExpandableRun(run)
    ensures run.isCollapsedToVisuallyEmpty == r.collapsedToZeroAdvanceWidth
    ensures !r.HasExpansionOpportunity() ==> run.textContext == r.textContext
    ensures r.HasExpansionOpportunity() ==>
      r.textContext.Some? && run.textContext.Some? &&
      run.textContext.value.start == r.textContext.value.start &&
      run.textContext.value.length == r.textContext.value.length &&
      run.textContext.value.expansion.Some? &&
      LeadingPolicy(run.textContext.value.expansion.value.behavior) == ForbidLeadingExpansion &&
      TrailingPolicy(run.textContext.value.expansion.value.behavior) == AllowTrailingExpansion &&
      run.textContext.value.expansion.value.horizontalExpansion == 0.0
  {
    if r.HasExpansionOpportunity() then
      Run(r.inlineItem, InlineRect(0.0, r.logicalLeft, r.logicalWidth, 0.0),
          Some(r.textContext.value.(expansion := Some(ExpansionContext(DefaultExpansion, 0.0)))), 1, r.collapsedToZeroAdvanceWidth)
    else
      Run(r.inlineItem, InlineRect(0.0, r.logicalLeft, r.logicalWidth, 0.0), r.textContext, 0, r.collapsedToZeroAdvanceWidth)
  }

  // ---------------------------------------------------------------------------------------
  // Merging continuous text (`ContinousContent`).

  /** Text that still has its full advance and is not collapsed may be followed by merged text. */
  predicate CanBeExpanded(r: InlineItemRun) {
    r.IsText() && !r.isCollapsed && !r.collapsedToZeroAdvanceWidth
  }

  /** Only text of the same layout box that has not collapsed away merges into the initial run. */
  predicate CanBeMerged(initial: InlineItemRun, r: InlineItemRun) {
    r.IsText() && !r.collapsedToZeroAdvanceWidth && initial.inlineItem.layoutBox.id == r.inlineItem.layoutBox.id
  }

  /** Runs `i + 1 .. j - 1` merge into run `i`: each previous run may expand and each next one may merge. */
  predicate MergesThrough(runs: seq<InlineItemRun>, i: nat, j: nat)
    requires i < j <= |runs|
  {
    (forall k :: i <= k < j - 1 ==> CanBeExpanded(runs[k])) &&
    (forall k :: i < k < j ==> CanBeMerged(runs[i], runs[k]))
  }

  /** The end of the group of runs merged into run `i`, scanning from `j`. */
  function MergeEndFrom(runs: seq<InlineItemRun>, i: nat, j: nat): (e: nat)
    requires i < j <= |runs| && MergesThrough(runs, i, j)
    ensures j <= e <= |runs| && MergesThrough(runs, i, e)
    ensures e < |runs| ==> !(CanBeExpanded(runs[e - 1]) && CanBeMerged(runs[i], runs[e]))
    decreases |runs| - j
  {
    if j < |runs| && CanBeExpanded(runs[j - 1]) && CanBeMerged(runs[i], runs[j]) then MergeEndFrom(runs, i, j + 1) else j
  }

  function MergeEnd(runs: seq<InlineItemRun>, i: nat): (e: nat)
    requires i < |runs|
    ensures i < e <= |runs| && MergesThrough(runs, i, e)
    ensures e < |runs| ==> !(CanBeExpanded(runs[e - 1]) && CanBeMerged(runs[i], runs[e]))
  {
    MergeEndFrom(runs, i, i + 1)
  }

  function TextLength(r: InlineItemRun): nat {
    if r.textContext.Some? then r.textContext.value.length else 0
  }

  /** The summed text length of `runs[from..to]`. */
  function TextLengthOf(runs: seq<InlineItemRun>, from: nat, to: nat): nat
    requires from <= to <= |runs|
  {
    if from == to then 0 else TextLengthOf(runs, from, to - 1) + TextLength(runs[to - 1])
  }

  /** The summed width of `runs[from..to]`. */
  function WidthOf(runs: seq<InlineItemRun>, from: nat, to: nat): LayoutUnit
    requires from <= to <= |runs|
  {
    if from == to then 0.0 else WidthOf(runs, from, to - 1) + runs[to - 1].logicalWidth
  }

  /** The number of runs of `runs[from..to]` that have an expansion opportunity. */
  function OpportunitiesOf(runs: seq<InlineItemRun>, from: nat, to: nat): nat
    requires from <= to <= |runs|
  {
    if from == to then 0 else OpportunitiesOf(runs, from, to - 1) + (if runs[to - 1].HasExpansionOpportunity() then 1 else 0)
  }

  /**
   * `ContinousContent::close` for the group `runs[i..j]`: the initial run widened by the
   * merged runs and its text slice lengthened by theirs. With `justify`, the merged run
   * counts the whitespace opportunities of the group and forbids leading expansion when the
   * group ends in whitespace.
   */
  function MergedRun(runs: seq<InlineItemRun>, i: nat, j: nat, justify: bool): Run
    requires i < j <= |runs| && WellFormedRun(runs[i]) && MergesThrough(runs, i, j)
  {
    var initial := runs[i];
    var expandedLength := TextLengthOf(runs, i + 1, j);
    if expandedLength == 0 then RunOf(initial)
    else
      var textContext := initial.textContext.value.(length := initial.textContext.value.length + expandedLength);
      var rect := InlineRect(0.0, initial.logicalLeft, initial.logicalWidth + WidthOf(runs, i + 1, j), 0.0);
      if justify then
        var behavior := if runs[j - 1].HasExpansionOpportunity() then ForbidLeadingExpansion | AllowTrailingExpansion
                        else AllowLeadingExpansion | AllowTrailingExpansion;
        var count := OpportunitiesOf(runs, i + 1, j) + (if initial.HasExpansionOpportunity() then 1 else 0);
        Run(initial.inlineItem, rect, Some(textContext.(expansion := Some(ExpansionContext(behavior, 0.0)))), count,
            initial.collapsedToZeroAdvanceWidth)
      else
        Run(initial.inlineItem, rect, Some(textContext), 0, initial.collapsedToZeroAdvanceWidth)
  }

  /** The runs `close` produces from `runs[i..]`, one per maximal group of merged runs. */
  function MergedFrom(runs: seq<InlineItemRun>, i: nat, justify: bool): seq<Run>
    requires i <= |runs| && forall k :: 0 <= k < |runs| ==> WellFormedRun(runs[k])
    decreases |runs| - i
  {
    if i == |runs| then [] else
    var j := MergeEnd(runs, i);
    [MergedRun(runs, i, j, justify)] + MergedFrom(runs, j, justify)
  }

  /** `ContinousContent`: the run a group starts with and what the merged runs add to it. */
  class ContinousContent {
    const initialInlineRun: InlineItemRun
    const textIsAlignJustify: bool
    var expandedLength: nat
    var expandedWidth: LayoutUnit
    var trailingRunCanBeExpanded: bool
    var hasTrailingExpansionOpportunity: bool
    var expansionOpportunityCount: nat

    /** The content holds the group `runs[start..end]`. */
    ghost predicate Holds(runs: seq<InlineItemRun>, start: nat, end: nat)
      reads this
    {
      start < end <= |runs| && initialInlineRun == runs[start] && MergesThrough(runs, start, end) &&
      expandedLength == TextLengthOf(runs, start + 1, end) &&
      expandedWidth == WidthOf(runs, start + 1, end) &&
      trailingRunCanBeExpanded == CanBeExpanded(runs[end - 1]) &&
      (textIsAlignJustify ==> (expansionOpportunityCount == OpportunitiesOf(runs, start + 1, end) &&
        hasTrailingExpansionOpportunity == (end > start + 1 && runs[end - 1].HasExpansionOpportunity())))
    }

    constructor (initialInlineRun: InlineItemRun, textIsAlignJustify: bool, ghost runs: seq<InlineItemRun>, ghost start: nat)
      requires start < |runs| && runs[start] == initialInlineRun
      ensures Holds(runs, start, start + 1) && this.textIsAlignJustify == textIsAlignJustify
    {
      this.initialInlineRun := initialInlineRun;
      this.textIsAlignJustify := textIsAlignJustify;
      expandedLength := 0;
      expandedWidth := 0.0;
      trailingRunCanBeExpanded := CanBeExpanded(initialInlineRun);
      hasTrailingExpansionOpportunity := false;
      expansionOpportunityCount := 0;
    }

    /** `ContinousContent::append`: merges the next run when the content is still continuous. */
    method Append(inlineItemRun: InlineItemRun, ghost runs: seq<InlineItemRun>, ghost start: nat, ghost end: nat)
      returns (appended: bool)
      requires Holds(runs, start, end) && end < |runs| && runs[end] == inlineItemRun
      modifies this
      ensures appended <==> CanBeExpanded(runs[end - 1]) && CanBeMerged(runs[start], inlineItemRun)
      ensures appended ==> Holds(runs, start, end + 1)
      ensures !appended ==> Holds(runs, start, end)
    {
      // Merged content needs to be continuous.
      if !trailingRunCanBeExpanded || !CanBeMerged(initialInlineRun, inlineItemRun) {
        return false;
      }
      trailingRunCanBeExpanded := CanBeExpanded(inlineItemRun);
      expandedLength := expandedLength + TextLength(inlineItemRun);
      expandedWidth := expandedWidth + inlineItemRun.logicalWidth;
      if textIsAlignJustify {
        hasTrailingExpansionOpportunity := inlineItemRun.HasExpansionOpportunity();
        if hasTrailingExpansionOpportunity {
          expansionOpportunityCount := expansionOpportunityCount + 1;
        }
      }
      return true;
    }

    /** `ContinousContent::close`. */
    method Close(ghost runs: seq<InlineItemRun>, ghost start: nat, ghost end: nat) returns (run: Run)
      requires Holds(runs, start, end) && WellFormedRun(initialInlineRun)
      ensures run == MergedRun(runs, start, end, textIsAlignJustify)
    {
      if expandedLength == 0 {
        return RunOf(initialInlineRun);
      }
      var textContext := initialInlineRun.textContext.value;
      var length := textContext.length + expandedLength;
      textContext := textContext.(length := length);
      var count := expansionOpportunityCount;
      if textIsAlignJustify {
        var expansionBehavior := if hasTrailingExpansionOpportunity then ForbidLeadingExpansion | AllowTrailingExpansion
                                 else AllowLeadingExpansion | AllowTrailingExpansion;
        if initialInlineRun.HasExpansionOpportunity() {
          count := count + 1;
        }
        textContext := textContext.(expansion := Some(ExpansionContext(expansionBehavior, 0.0)));
      }
      var rect := InlineRect(0.0, initialInlineRun.logicalLeft, initialInlineRun.logicalWidth + expandedWidth, 0.0);
      return Run(initialInlineRun.inlineItem, rect, Some(textContext), if textIsAlignJustify then count else 0,
                 initialInlineRun.collapsedToZeroAdvanceWidth);
    }
  }

  /** A group ends at the first run that cannot be merged, or at the end of the line. */
  lemma MergeEndIs(runs: seq<InlineItemRun>, i: nat, j: nat)
    requires i < j <= |runs| && MergesThrough(runs, i, j)
    requires j == |runs| || !(CanBeExpanded(runs[j - 1]) && CanBeMerged(runs[i], runs[j]))
    ensures MergeEnd(runs, i) == j
  {
  }

  /** The merge loop of `close`: each group of continuous runs becomes one run. */
  method MergeRuns(runs: seq<InlineItemRun>, textIsAlignJustify: bool) returns (runList: seq<Run>)
    requires forall k :: 0 <= k < |runs| ==> WellFormedRun(runs[k])
    ensures runList == MergedFrom(runs, 0, textIsAlignJustify)
  {
    runList := [];
    var runIndex := 0;
    while runIndex < |runs|
      invariant runIndex <= |runs|
      invariant runList + MergedFrom(runs, runIndex, textIsAlignJustify) == MergedFrom(runs, 0, textIsAlignJustify)
    {
      var run, nextIndex := MergeFrom(runs, runIndex, textIsAlignJustify);
      ghost var rest := MergedFrom(runs, nextIndex, textIsAlignJustify);
      MergedFromStep(runs, runIndex, textIsAlignJustify);
      assert runList + ([run] + rest) == (runList + [run]) + rest;
      runList := runList + [run];
      runIndex := nextIndex;
    }
  }

  /** `MergedFrom` takes one group off the front. */
  lemma MergedFromStep(runs: seq<InlineItemRun>, i: nat, justify: bool)
    requires i < |runs| && forall k :: 0 <= k < |runs| ==> WellFormedRun(runs[k])
    ensures MergedFrom(runs, i, justify)
      == [MergedRun(runs, i, MergeEnd(runs, i), justify)] + MergedFrom(runs, MergeEnd(runs, i), justify)
  {
  }

  /** One step of the merge loop: the run starting at `runIndex` absorbs what continues it. */
  method MergeFrom(runs: seq<InlineItemRun>, runIndex: nat, textIsAlignJustify: bool) returns (run: Run, nextIndex: nat)
    requires runIndex < |runs| && forall k :: 0 <= k < |runs| ==> WellFormedRun(runs[k])
    ensures nextIndex == MergeEnd(runs, runIndex)
    ensures run == MergedRun(runs, runIndex, nextIndex, textIsAlignJustify)
  {
    var continousContent := new ContinousContent(runs[runIndex], textIsAlignJustify, runs, runIndex);
    nextIndex := runIndex + 1;
    while nextIndex < |runs|
      invariant runIndex < nextIndex <= |runs|
      invariant continousContent.Holds(runs, runIndex, nextIndex)
      invariant continousContent.textIsAlignJustify == textIsAlignJustify
    {
      var appended := continousContent.Append(runs[nextIndex], runs, runIndex, nextIndex);
      if !appended {
        break;
      }
      nextIndex := nextIndex + 1;
    }
    MergeEndIs(runs, runIndex, nextIndex);
    run := continousContent.Close(runs, runIndex, nextIndex);
  }

  // What merging promises.

  function RunWidth(run: Run): LayoutUnit { run.logicalRect.width }

  function RunsWidth(runs: seq<Run>): LayoutUnit {
    if runs == [] then 0.0 else RunsWidth(runs[..|runs| - 1]) + RunWidth(runs[|runs| - 1])
  }

  function RunTextLength(run: Run): nat {
    if run.textContext.Some? then run.textContext.value.length else 0
  }

  function RunsTextLength(runs: seq<Run>): nat {
    if runs == [] then 0 else RunsTextLength(runs[..|runs| - 1]) + RunTextLength(runs[|runs| - 1])
  }

  /** A group without merged text is the initial run alone, since merged runs never collapse to nothing. */
  lemma {:induction false} NoExpandedLengthMeansSingleRun(runs: seq<InlineItemRun>, i: nat, j: nat)
    requires i < j <= |runs| && MergesThrough(runs, i, j)
    requires forall k :: 0 <= k < |runs| ==> WellFormedRun(runs[k])
    requires TextLengthOf(runs, i + 1, j) == 0
    ensures j == i + 1
  {
  }

  /** A merged run is exactly as wide as its group and paints exactly the group's text. */
  lemma MergedRunSums(runs: seq<InlineItemRun>, i: nat, j: nat, justify: bool)
    requires i < j <= |runs| && MergesThrough(runs, i, j)
    requires forall k :: 0 <= k < |runs| ==> WellFormedRun(runs[k])
    ensures RunWidth(MergedRun(runs, i, j, justify)) == WidthOf(runs, i, j)
    ensures RunTextLength(MergedRun(runs, i, j, justify)) == TextLengthOf(runs, i, j)
    ensures MergedRun(runs, i, j, justify).logicalRect.left == runs[i].logicalLeft
  {
    WidthOfSplit(runs, i, i + 1, j);
    TextLengthOfSplit(runs, i, i + 1, j);
    if TextLengthOf(runs, i + 1, j) == 0 {
      NoExpandedLengthMeansSingleRun(runs, i, j);
    }
  }

  lemma {:induction false} WidthOfSplit(runs: seq<InlineItemRun>, a: nat, b: nat, c: nat)
    requires a <= b <= c <= |runs|
    ensures WidthOf(runs, a, c) == WidthOf(runs, a, b) + WidthOf(runs, b, c)
    decreases c - b
  {
    if c > b {
      WidthOfSplit(runs, a, b, c - 1);
    }
  }

  lemma {:induction false} TextLengthOfSplit(runs: seq<InlineItemRun>, a: nat, b: nat, c: nat)
    requires a <= b <= c <= |runs|
    ensures TextLengthOf(runs, a, c) == TextLengthOf(runs, a, b) + TextLengthOf(runs, b, c)
    decreases c - b
  {
    if c > b {
      TextLengthOfSplit(runs, a, b, c - 1);
    }
  }

  lemma {:induction false} RunsWidthConcat(a: seq<Run>, b: seq<Run>)
    ensures RunsWidth(a + b) == RunsWidth(a) + RunsWidth(b)
    ensures RunsTextLength(a + b) == RunsTextLength(a) + RunsTextLength(b)
    decreases |b|
  {
    if b != [] {
      assert (a + b)[..|a + b| - 1] == a + b[..|b| - 1];
      RunsWidthConcat(a, b[..|b| - 1]);
    } else {
      assert a + b == a;
    }
  }

  /**
   * Merging loses nothing and invents nothing: the merged runs are together exactly as wide
   * as the committed runs, paint exactly their text, and are no more numerous.
   */
  lemma {:induction false} MergedFromSums(runs: seq<InlineItemRun>, i: nat, justify: bool)
    requires i <= |runs| && forall k :: 0 <= k < |runs| ==> WellFormedRun(runs[k])
    ensures RunsWidth(MergedFrom(runs, i, justify)) == WidthOf(runs, i, |runs|)
    ensures RunsTextLength(MergedFrom(runs, i, justify)) == TextLengthOf(runs, i, |runs|)
    ensures |MergedFrom(runs, i, justify)| <= |runs| - i
    decreases |runs| - i
  {
    if i < |runs| {
      var j := MergeEnd(runs, i);
      MergedFromSums(runs, j, justify);
      MergedRunSums(runs, i, j, justify);
      RunsWidthConcat([MergedRun(runs, i, j, justify)], MergedFrom(runs, j, justify));
      assert [MergedRun(runs, i, j, justify)][..0] == [];
      WidthOfSplit(runs, i, j, |runs|);
      TextLengthOfSplit(runs, i, j, |runs|);
    }
  }

  /** Every merged run either stands alone or starts a group of text runs of one layout box. */
  lemma MergedGroupsShareBox(runs: seq<InlineItemRun>, i: nat, k: nat)
    requires i < |runs| && i < k < MergeEnd(runs, i)
    ensures runs[k].IsText() && runs[k].inlineItem.layoutBox.id == runs[i].inlineItem.layoutBox.id
    ensures CanBeExpanded(runs[k - 1]) && !runs[k].collapsedToZeroAdvanceWidth
  {
  }

  // ---------------------------------------------------------------------------------------
  // Justification.

  /** The expansion of one run: its share of the extra space, per opportunity. */
  function Expansion(run: Run, expansionToDistribute: LayoutUnit): LayoutUnit {
    if run.HasExpansionOpportunity() then expansionToDistribute * run.expansionOpportunityCount as real else 0.0
  }

  /** `setComputedHorizontalExpansion` and `moveHorizontally` for one run. */
  function JustifiedRun(run: Run, expansionToDistribute: LayoutUnit, accumulatedExpansion: LayoutUnit): (r: Run)
    requires ExpandableRun(run)
    ensures r.logicalRect.left == run.logicalRect.left + accumulatedExpansion
    ensures r.logicalRect.width == run.logicalRect.width + Expansion(run, expansionToDistribute)
    ensures ExpandableRun(r)
  {
    if !run.HasExpansionOpportunity() then run.MoveHorizontally(accumulatedExpansion)
    else
      var computedExpansion := expansionToDistribute * run.expansionOpportunityCount as real;
      var textContext := run.textContext.value;
      var expanded := run.(logicalRect := run.logicalRect.(width := run.logicalRect.width + computedExpansion),
                           textContext := Some(textContext.(expansion := Some(textContext.expansion.value.(horizontalExpansion := computedExpansion)))));
      expanded.MoveHorizontally(accumulatedExpansion)
  }

  /** The runs from `runs` on, each shifted by the expansions before it and widened by its own. */
  function JustifiedFrom(runs: seq<Run>, expansionToDistribute: LayoutUnit, accumulatedExpansion: LayoutUnit): (r: seq<Run>)
    requires forall k :: 0 <= k < |runs| ==> ExpandableRun(runs[k])
    ensures |r| == |runs|
  {
    if runs == [] then []
    else
      [JustifiedRun(runs[0], expansionToDistribute, accumulatedExpansion)]
      + JustifiedFrom(runs[1..], expansionToDistribute, accumulatedExpansion + Expansion(runs[0], expansionToDistribute))
  }

  function OpportunityCount(runs: seq<Run>): nat {
    if runs == [] then 0 else runs[0].expansionOpportunityCount + OpportunityCount(runs[1..])
  }

  /**
   * `adjustExpansionBehavior(*expansionBehavior() | ForbidTrailingExpansion)` as written.
   * `ForbidTrailingExpansion` is the zero flag, so the OR leaves the behaviour as it was.
   */
  function ForbidTrailingExpansionAsWritten(run: Run): (r: Run)
    requires ExpandableRun(run)
    ensures ExpandableRun(r) && r.logicalRect == run.logicalRect && r.expansionOpportunityCount == run.expansionOpportunityCount
  {
    if run.HasExpansionOpportunity() then
      var textContext := run.textContext.value;
      var expansion := textContext.expansion.value;
      run.(textContext := Some(textContext.(expansion := Some(expansion.(behavior := expansion.behavior | ForbidTrailingExpansion)))))
    else run
  }

  /**
   * The last run must not expand at its trailing edge: its trailing policy is replaced by
   * `ForbidTrailingExpansion`, and everything else about it is kept.
   */
  function ForbidTrailingExpansionOf(run: Run): (r: Run)
    requires ExpandableRun(run)
    ensures ExpandableRun(r) && r.logicalRect == run.logicalRect && r.expansionOpportunityCount == run.expansionOpportunityCount
    ensures !run.HasExpansionOpportunity() ==> r == run
    ensures run.HasExpansionOpportunity() ==>
      var before := run.textContext.value.expansion.value;
      var after := r.textContext.value.expansion.value;
      TrailingPolicy(after.behavior) == ForbidTrailingExpansion &&
      LeadingPolicy(after.behavior) == LeadingPolicy(before.behavior) &&
      after.horizontalExpansion == before.horizontalExpansion &&
      r.textContext.value.(expansion := None) == run.textContext.value.(expansion := None)
  {
    if run.HasExpansionOpportunity() then
      var textContext := run.textContext.value;
      var expansion := textContext.expansion.value;
      var behavior := (expansion.behavior & !TrailingExpansionMask) | ForbidTrailingExpansion;
      run.(textContext := Some(textContext.(expansion := Some(expansion.(behavior := behavior)))))
    else run
  }

  /**
   * The OR at the last run changes nothing: a run that keeps `DefaultExpansion` still allows
   * trailing expansion as written, while the corrected adjustment forbids it.
   */
  lemma ForbidTrailingExpansionAsWrittenCounterexample(run: Run)
    requires ExpandableRun(run) && run.HasExpansionOpportunity()
    requires run.textContext.value.expansion.value.behavior == DefaultExpansion
    ensures ForbidTrailingExpansionAsWritten(run) == run
    ensures TrailingPolicy(ForbidTrailingExpansionAsWritten(run).textContext.value.expansion.value.behavior) == AllowTrailingExpansion
    ensures TrailingPolicy(ForbidTrailingExpansionOf(run).textContext.value.expansion.value.behavior) == ForbidTrailingExpansion
  {
  }

  /** The line's runs with the last one's trailing expansion forbidden. */
  function TrailingExpansionForbidden(runList: seq<Run>): (r: seq<Run>)
    requires runList != [] && forall k :: 0 <= k < |runList| ==> ExpandableRun(runList[k])
    ensures |r| == |runList| && forall k :: 0 <= k < |r| ==> ExpandableRun(r[k])
    ensures forall k :: 0 <= k < |r| ==> r[k].logicalRect == runList[k].logicalRect
    ensures forall k :: 0 <= k < |r| ==> r[k].expansionOpportunityCount == runList[k].expansionOpportunityCount
    ensures forall k :: 0 <= k < |r| - 1 ==> r[k] == runList[k]
    ensures r[|r| - 1] == ForbidTrailingExpansionOf(runList[|r| - 1])
  {
    runList[|runList| - 1 := ForbidTrailingExpansionOf(runList[|runList| - 1])]
  }

  /** `justifyRuns`: the available width spread evenly over the expansion opportunities. */
  function Justified(runList: seq<Run>, availableWidth: LayoutUnit): (r: seq<Run>)
    requires runList != [] && forall k :: 0 <= k < |runList| ==> ExpandableRun(runList[k])
    ensures |r| == |runList|
  {
    var runs := TrailingExpansionForbidden(runList);
    var expansionOpportunityCount := OpportunityCount(runs);
    if expansionOpportunityCount == 0 then runs
    else JustifiedFrom(runs, ExpansionShare(availableWidth, expansionOpportunityCount), 0.0)
  }

  method JustifyRuns(runList: seq<Run>, availableWidth: LayoutUnit) returns (justified: seq<Run>)
    requires runList != [] && forall k :: 0 <= k < |runList| ==> ExpandableRun(runList[k])
    ensures justified == Justified(runList, availableWidth)
  {
    // Need to fix up the last run first.
    var runs := TrailingExpansionForbidden(runList);
    var expansionOpportunityCount := 0;
    var i := 0;
    while i < |runs|
      invariant i <= |runs|
      invariant expansionOpportunityCount + OpportunityCount(runs[i..]) == OpportunityCount(runs)
    {
      assert runs[i..][1..] == runs[i + 1..];
      expansionOpportunityCount := expansionOpportunityCount + runs[i].expansionOpportunityCount;
      i := i + 1;
    }
    // Nothing to distribute?
    if expansionOpportunityCount == 0 {
      return runs;
    }
    var expansionToDistribute := ExpansionShare(availableWidth, expansionOpportunityCount);
    justified := JustifyWithExpansion(runs, expansionToDistribute);
  }

  /** The distribution loop of `justifyRuns`. */
  method JustifyWithExpansion(runs: seq<Run>, expansionToDistribute: LayoutUnit) returns (justified: seq<Run>)
    requires forall k :: 0 <= k < |runs| ==> ExpandableRun(runs[k])
    ensures justified == JustifiedFrom(runs, expansionToDistribute, 0.0)
  {
    var accumulatedExpansion := 0.0;
    justified := [];
    var i := 0;
    while i < |runs|
      invariant i <= |runs|
      invariant justified + JustifiedFrom(runs[i..], expansionToDistribute, accumulatedExpansion)
        == JustifiedFrom(runs, expansionToDistribute, 0.0)
    {
      var run := runs[i];
      assert runs[i..][1..] == runs[i + 1..];
      assert JustifiedFrom(runs[i..], expansionToDistribute, accumulatedExpansion)
        == [JustifiedRun(run, expansionToDistribute, accumulatedExpansion)]
           + JustifiedFrom(runs[i + 1..], expansionToDistribute, accumulatedExpansion + Expansion(run, expansionToDistribute));
      justified := justified + [JustifiedRun(run, expansionToDistribute, accumulatedExpansion)];
      accumulatedExpansion := accumulatedExpansion + Expansion(run, expansionToDistribute);
      i := i + 1;
    }
  }

  /** The sum of the expansions handed to `runs`. */
  function TotalExpansion(runs: seq<Run>, expansionToDistribute: LayoutUnit): LayoutUnit {
    if runs == [] then 0.0 else Expansion(runs[0], expansionToDistribute) + TotalExpansion(runs[1..], expansionToDistribute)
  }

  lemma {:induction false} TotalExpansionIsShare(runs: seq<Run>, e: LayoutUnit)
    ensures TotalExpansion(runs, e) == e * OpportunityCount(runs) as real
    decreases |runs|
  {
    if runs != [] {
      TotalExpansionIsShare(runs[1..], e);
      var c := runs[0].expansionOpportunityCount as real;
      var rest := OpportunityCount(runs[1..]) as real;
      assert Expansion(runs[0], e) == e * c;
      assert e * (c + rest) == e * c + e * rest;
    }
  }

  /**
   * Runs laid side by side stay side by side when justified: each run's left edge is where
   * the previous justified run now ends.
   */
  ghost predicate Contiguous(runs: seq<Run>) {
    forall j, k :: 0 <= j < k < |runs| && k == j + 1 ==> runs[k].logicalRect.left == runs[j].logicalRect.Right()
  }

  lemma {:induction false} JustifiedFromKeepsContiguity(runs: seq<Run>, e: LayoutUnit, acc: LayoutUnit)
    requires forall k :: 0 <= k < |runs| ==> ExpandableRun(runs[k])
    requires Contiguous(runs)
    ensures Contiguous(JustifiedFrom(runs, e, acc))
    decreases |runs|
  {
    if runs != [] {
      var rest := runs[1..];
      var acc' := acc + Expansion(runs[0], e);
      JustifiedFromKeepsContiguity(rest, e, acc');
      var r := JustifiedFrom(runs, e, acc);
      assert r[1..] == JustifiedFrom(rest, e, acc');
      forall j, k | 0 <= j < k < |r| && k == j + 1
        ensures r[k].logicalRect.left == r[j].logicalRect.Right()
      {
        if k == 1 {
          assert runs[1].logicalRect.left == runs[0].logicalRect.Right();
        } else {
          assert r[k] == JustifiedFrom(rest, e, acc')[k - 1];
          assert r[j] == JustifiedFrom(rest, e, acc')[j - 1];
        }
      }
    }
  }

  /** The last justified run ends further right by the shift before it and its own expansion. */
  lemma {:induction false} JustifiedFromLastRight(runs: seq<Run>, e: LayoutUnit, acc: LayoutUnit)
    requires runs != [] && forall k :: 0 <= k < |runs| ==> ExpandableRun(runs[k])
    ensures JustifiedFrom(runs, e, acc)[|runs| - 1].logicalRect.Right()
      == runs[|runs| - 1].logicalRect.Right() + acc + TotalExpansion(runs, e)
    decreases |runs|
  {
    if |runs| > 1 {
      var rest := runs[1..];
      var acc' := acc + Expansion(runs[0], e);
      JustifiedFromLastRight(rest, e, acc');
      assert JustifiedFrom(runs, e, acc)[|runs| - 1] == JustifiedFrom(rest, e, acc')[|rest| - 1];
    }
  }

  /**
   * Justification fills the line exactly: with some opportunity on the line, contiguous runs
   * stay contiguous and the last one now ends the available width further right.
   */
  lemma JustifiedFillsLine(runList: seq<Run>, availableWidth: LayoutUnit)
    requires runList != [] && forall k :: 0 <= k < |runList| ==> ExpandableRun(runList[k])
    requires Contiguous(runList)
    requires OpportunityCount(runList) > 0
    ensures Contiguous(Justified(runList, availableWidth))
    ensures Justified(runList, availableWidth)[|runList| - 1].logicalRect.Right()
      == runList[|runList| - 1].logicalRect.Right() + availableWidth
  {
    JustifiedUnfolds(runList, availableWidth);
    var runs := TrailingExpansionForbidden(runList);
    JustifiedFromKeepsContiguity(runs, ExpansionShare(availableWidth, OpportunityCount(runs)), 0.0);
    JustifiedFromFills(runs, availableWidth);
  }

  lemma JustifiedUnfolds(runList: seq<Run>, availableWidth: LayoutUnit)
    requires runList != [] && forall k :: 0 <= k < |runList| ==> ExpandableRun(runList[k])
    requires OpportunityCount(runList) > 0
    ensures OpportunityCount(TrailingExpansionForbidden(runList)) > 0
    ensures Justified(runList, availableWidth) == JustifiedFrom(TrailingExpansionForbidden(runList),
      ExpansionShare(availableWidth, OpportunityCount(TrailingExpansionForbidden(runList))), 0.0)
  {
    OpportunityCountSameCounts(runList, TrailingExpansionForbidden(runList));
  }

  lemma JustifiedFromFills(runs: seq<Run>, availableWidth: LayoutUnit)
    requires runs != [] && forall k :: 0 <= k < |runs| ==> ExpandableRun(runs[k])
    requires OpportunityCount(runs) > 0
    ensures JustifiedFrom(runs, ExpansionShare(availableWidth, OpportunityCount(runs)), 0.0)[|runs| - 1].logicalRect.Right()
      == runs[|runs| - 1].logicalRect.Right() + availableWidth
  {
    TotalExpansionOfShare(runs, availableWidth);
    JustifiedFromLastRight(runs, ExpansionShare(availableWidth, OpportunityCount(runs)), 0.0);
  }

  /** Evenly shared, the expansions add up to the whole available width. */
  lemma TotalExpansionOfShare(runs: seq<Run>, availableWidth: LayoutUnit)
    requires OpportunityCount(runs) > 0
    ensures TotalExpansion(runs, ExpansionShare(availableWidth, OpportunityCount(runs))) == availableWidth
  {
    TotalExpansionIsShare(runs, ExpansionShare(availableWidth, OpportunityCount(runs)));
  }

  /** The space each expansion opportunity receives: all of it, shared evenly. */
  function ExpansionShare(availableWidth: LayoutUnit, expansionOpportunityCount: nat): (e: LayoutUnit)
    requires expansionOpportunityCount > 0
    ensures e * expansionOpportunityCount as real == availableWidth
  {
    availableWidth / expansionOpportunityCount as real
  }

  lemma {:induction false} OpportunityCountSameCounts(a: seq<Run>, b: seq<Run>)
    requires |a| == |b| && forall k :: 0 <= k < |a| ==> a[k].expansionOpportunityCount == b[k].expansionOpportunityCount
    ensures OpportunityCount(a) == OpportunityCount(b)
    decreases |a|
  {
    if a != [] {
      OpportunityCountSameCounts(a[1..], b[1..]);
    }
  }

  /** Nothing moves or grows when the line has no expansion opportunity. */
  lemma JustifiedWithoutOpportunities(runList: seq<Run>, availableWidth: LayoutUnit)
    requires runList != [] && forall k :: 0 <= k < |runList| ==> ExpandableRun(runList[k])
    requires OpportunityCount(runList) == 0
    ensures forall k :: 0 <= k < |runList| ==> Justified(runList, availableWidth)[k].logicalRect == runList[k].logicalRect
  {
    OpportunityCountSameCounts(runList, TrailingExpansionForbidden(runList));
  }

  // ---------------------------------------------------------------------------------------
  // Horizontal alignment.

  /** `alignContentHorizontally`'s offset for each alignment; justify is handled separately. */
  function AlignmentOffset(alignment: TextAlign, availableWidth: LayoutUnit): (r: Option<LayoutUnit>)
    requires availableWidth > 0.0
    ensures alignment in {Left, WebKitLeft, Start, Justify} <==> r.None?
    ensures alignment in {Right, WebKitRight, End} ==> r == Some(availableWidth)
    ensures alignment in {Center, WebKitCenter} ==> r == Some(availableWidth / 2.0)
  {
    match alignment
    case Left => None
    case WebKitLeft => None
    case Start => None
    case Right => Some(if availableWidth > 0.0 then availableWidth else 0.0)
    case WebKitRight => Some(if availableWidth > 0.0 then availableWidth else 0.0)
    case End => Some(if availableWidth > 0.0 then availableWidth else 0.0)
    case Center => Some(if availableWidth / 2.0 > 0.0 then availableWidth / 2.0 else 0.0)
    case WebKitCenter => Some(if availableWidth / 2.0 > 0.0 then availableWidth / 2.0 else 0.0)
    case Justify => None
  }

  function MoveRuns(runs: seq<Run>, offset: LayoutUnit): (r: seq<Run>)
    ensures |r| == |runs|
    ensures forall k :: 0 <= k < |runs| ==> r[k] == runs[k].MoveHorizontally(offset)
  {
    if runs == [] then [] else [runs[0].MoveHorizontally(offset)] + MoveRuns(runs[1..], offset)
  }

  /** Alignment of a line's runs within the available width. */
  function AlignedHorizontally(runList: seq<Run>, alignment: TextAlign, availableWidth: LayoutUnit, isLastLine: bool): (r: seq<Run>)
    requires forall k :: 0 <= k < |runList| ==> ExpandableRun(runList[k])
    ensures |r| == |runList|
    ensures runList == [] || availableWidth <= 0.0 ==> r == runList
    ensures alignment == Justify && isLastLine ==> r == runList
    ensures alignment in {Left, WebKitLeft, Start} ==> r == runList
    ensures alignment != Justify && runList != [] && availableWidth > 0.0 && AlignmentOffset(alignment, availableWidth).Some? ==>
      forall k :: 0 <= k < |r| ==> r[k].logicalRect.left == runList[k].logicalRect.left + AlignmentOffset(alignment, availableWidth).value
  {
    if runList == [] || availableWidth <= 0.0 then runList
    else if alignment == Justify then
      // The last line is not justified.
      if !isLastLine then Justified(runList, availableWidth) else runList
    else
      match AlignmentOffset(alignment, availableWidth)
      case None => runList
      case Some(adjustment) => MoveRuns(runList, adjustment)
  }

  /** `alignContentHorizontally`. */
  method AlignContentHorizontally(runList: seq<Run>, alignment: TextAlign, availableWidth: LayoutUnit, isLastLine: bool)
    returns (aligned: seq<Run>)
    requires forall k :: 0 <= k < |runList| ==> ExpandableRun(runList[k])
    ensures aligned == AlignedHorizontally(runList, alignment, availableWidth, isLastLine)
  {
    if runList == [] || availableWidth <= 0.0 {
      return runList;
    }
    if alignment == Justify {
      if !isLastLine {
        aligned := JustifyRuns(runList, availableWidth);
        return;
      }
      return runList;
    }
    var adjustment := AlignmentOffset(alignment, availableWidth);
    if adjustment.None? {
      return runList;
    }
    aligned := [];
    var i := 0;
    while i < |runList|
      invariant i <= |runList|
      invariant aligned == MoveRuns(runList, adjustment.value)[..i]
    {
      aligned := aligned + [runList[i].MoveHorizontally(adjustment.value)];
      i := i + 1;
    }
  }

  // ---------------------------------------------------------------------------------------
  // Line height and baseline.

  /**
   * Half-leading (section 10.8.1 of CSS 2.1): the leading is split evenly above and below
   * the glyphs, the ascent rounded down and the descent rounded up, neither below zero.
   */
  function HalfLeadingMetrics(fontMetrics: FontMetrics, lineLogicalHeight: int): (r: LineBaseline)
    ensures r.ascent >= 0.0 && r.descent >= 0.0
    ensures 2 * fontMetrics.ascent + lineLogicalHeight - (fontMetrics.ascent + fontMetrics.descent) >= 0 ==>
      r.ascent <= (fontMetrics.ascent as real) + ((lineLogicalHeight - (fontMetrics.ascent + fontMetrics.descent)) as real) / 2.0
      < r.ascent + 1.0
    ensures 2 * fontMetrics.descent + lineLogicalHeight - (fontMetrics.ascent + fontMetrics.descent) >= 0 ==>
      r.descent - 1.0 < (fontMetrics.descent as real) + ((lineLogicalHeight - (fontMetrics.ascent + fontMetrics.descent)) as real) / 2.0
      <= r.descent
  {
    var ascent := fontMetrics.ascent;
    var descent := fontMetrics.descent;
    // floor(ascent + halfLeading) and ceil(descent + halfLeading) on the doubled integers.
    var adjustedAscent := (lineLogicalHeight + ascent - descent) / 2;
    var adjustedDescent := (lineLogicalHeight - ascent + descent + 1) / 2;
    LineBaseline((if adjustedAscent > 0 then adjustedAscent else 0) as real, (if adjustedDescent > 0 then adjustedDescent else 0) as real)
  }

  /** Unless clamped at zero, the half-leading ascent and descent add up to the line height. */
  lemma HalfLeadingFillsLineHeight(fontMetrics: FontMetrics, lineLogicalHeight: int)
    requires lineLogicalHeight + fontMetrics.ascent - fontMetrics.descent >= 0
    requires lineLogicalHeight - fontMetrics.ascent + fontMetrics.descent >= 0
    ensures HalfLeadingMetrics(fontMetrics, lineLogicalHeight).Height() == lineLogicalHeight as real
  {
    var a := (lineLogicalHeight + fontMetrics.ascent - fontMetrics.descent) / 2;
    var d := (lineLogicalHeight - fontMetrics.ascent + fontMetrics.descent + 1) / 2;
    assert a + d == lineLogicalHeight;
  }

  /** What the line's height and baseline may be stretched by, and the strut not yet applied. */
  datatype LineMetrics = LineMetrics(lineBox: LineBox, initialStrut: Option<LineBaseline>)

  function Max(a: LayoutUnit, b: LayoutUnit): LayoutUnit { if a >= b then a else b }

  /**
   * `setAscentIfGreater`: a greater ascent also pushes the baseline at least that far down
   * from the line's top, so that the content above the baseline stays within the line.
   * `setDescentIfGreater`, `setBaselineOffsetIfGreater`, `setLogicalHeightIfGreater` only raise their value.
   */
  function AscentAtLeast(lineBox: LineBox, ascent: LayoutUnit): (r: LineBox)
    ensures r.baseline.ascent == Max(lineBox.baseline.ascent, ascent)
    ensures r.baselineOffset >= lineBox.baselineOffset
    ensures ascent >= lineBox.baseline.ascent ==> r.baselineOffset == Max(lineBox.baselineOffset, ascent)
    ensures ascent < lineBox.baseline.ascent ==> r == lineBox
    ensures r.(baseline := lineBox.baseline, baselineOffset := lineBox.baselineOffset) == lineBox
  {
    if ascent < lineBox.baseline.ascent then lineBox
    else BaselineOffsetAtLeast(lineBox, ascent).(baseline := lineBox.baseline.(ascent := ascent))
  }
  function DescentAtLeast(lineBox: LineBox, descent: LayoutUnit): LineBox {
    lineBox.(baseline := lineBox.baseline.(descent := Max(lineBox.baseline.descent, descent)))
  }
  function BaselineOffsetAtLeast(lineBox: LineBox, baselineOffset: LayoutUnit): LineBox {
    lineBox.(baselineOffset := Max(lineBox.baselineOffset, baselineOffset))
  }
  function HeightAtLeast(lineBox: LineBox, height: LayoutUnit): LineBox {
    lineBox.(rect := lineBox.rect.(height := Max(lineBox.rect.height, height)))
  }

  /**
   * `adjustBaselineAndLineHeight`: text takes the initial strut once; an inline container
   * stretches the line by its font (half-leading when baseline aligned); an atomic box by
   * its margin box, according to its vertical alignment. The line only ever grows.
   */
  function AdjustedLineMetrics(metrics: LineMetrics, run: Run): (r: LineMetrics)
    ensures r.lineBox.LogicalHeight() >= metrics.lineBox.LogicalHeight()
    ensures r.lineBox.baseline.ascent >= metrics.lineBox.baseline.ascent
    ensures r.lineBox.baseline.descent >= metrics.lineBox.baseline.descent
    ensures r.lineBox.baselineOffset >= metrics.lineBox.baselineOffset
    ensures r.lineBox.rect.(height := metrics.lineBox.rect.height) == metrics.lineBox.rect
    ensures r.lineBox.isConsideredEmpty == metrics.lineBox.isConsideredEmpty
    ensures metrics.lineBox.BaselineClearsAscent() ==> r.lineBox.BaselineClearsAscent()
    ensures r.initialStrut.Some? ==> r.initialStrut == metrics.initialStrut
    ensures (run.IsText() || run.IsLineBreak()) && metrics.initialStrut.Some? ==>
      r.initialStrut.None? && r.lineBox.baseline.ascent >= metrics.initialStrut.value.ascent
      && r.lineBox.baseline.descent >= metrics.initialStrut.value.descent
      && (metrics.lineBox.BaselineClearsAscent() ==> r.lineBox.baselineOffset >= metrics.initialStrut.value.ascent)
      && r.lineBox.LogicalHeight() >= r.lineBox.baseline.Height()
    // An inline container stretches the line by its font: half-leading when baseline aligned
    // (each half only when positive), the font's height otherwise. Its end changes nothing.
    ensures run.IsContainerStart() && run.Style().verticalAlign == Baseline ==>
      var halfLeading := HalfLeadingMetrics(run.Style().fontMetrics, run.Style().computedLineHeight);
      (halfLeading.ascent > 0.0 ==> r.lineBox.baseline.ascent >= halfLeading.ascent
                                     && (metrics.lineBox.BaselineClearsAscent() ==> r.lineBox.baselineOffset >= halfLeading.ascent))
      && (halfLeading.descent > 0.0 ==> r.lineBox.baseline.descent >= halfLeading.descent)
      && r.lineBox.LogicalHeight() >= r.lineBox.baseline.Height()
    ensures run.IsContainerStart() && run.Style().verticalAlign != Baseline ==>
      r.lineBox.LogicalHeight() >= run.Style().fontMetrics.height as real
    ensures run.IsContainerEnd() ==> r == metrics
    // An atomic box stretches the line by its margin box, according to its vertical alignment.
    ensures run.IsBox() && run.Style().verticalAlign == Baseline ==>
      var box := run.LayoutBox();
      var geometry := box.geometry;
      if box.isInlineBlockBox && box.establishesInlineFormattingContext then
        r.lineBox.baseline.ascent >= geometry.lastLineBaseline.ascent
        && (metrics.lineBox.BaselineClearsAscent() ==> r.lineBox.baselineOffset >= geometry.lastLineBaseline.ascent)
        && r.lineBox.baseline.descent >= geometry.lastLineBaseline.descent
        && r.lineBox.baselineOffset >= geometry.marginBefore + geometry.borderTop + geometry.paddingTop + geometry.lastLineBaselineOffset
        && r.lineBox.LogicalHeight() >= geometry.marginBoxHeight
      else
        r.lineBox.baseline.ascent >= geometry.marginBoxHeight
        // Sitting on the baseline, the box pushes the baseline down to its margin box.
        && (metrics.lineBox.BaselineClearsAscent() ==> r.lineBox.baselineOffset >= geometry.marginBoxHeight)
        && r.lineBox.LogicalHeight() >= geometry.marginBoxHeight + Max(0.0, r.lineBox.baseline.descent)
    ensures run.IsBox() && run.Style().verticalAlign in {Top, Bottom} ==>
      r.lineBox.LogicalHeight() >= run.LayoutBox().geometry.marginBoxHeight
    ensures run.IsBox() && run.Style().verticalAlign == Top ==> r.lineBox.baselineOffset == metrics.lineBox.baselineOffset
    ensures run.IsBox() && run.Style().verticalAlign == Bottom ==>
      var grown := run.LayoutBox().geometry.marginBoxHeight - metrics.lineBox.LogicalHeight();
      r.lineBox.baselineOffset == metrics.lineBox.baselineOffset + (if grown > 0.0 then grown else 0.0)
  {
    var lineBox := metrics.lineBox;
    if run.IsText() || run.IsLineBreak() then
      match metrics.initialStrut
      case None => metrics
      case Some(strut) =>
        var stretched := DescentAtLeast(AscentAtLeast(lineBox, strut.ascent), strut.descent);
        LineMetrics(HeightAtLeast(stretched, stretched.baseline.Height()), None)
    else
      var style := run.Style();
      var geometry := run.LayoutBox().geometry;
      if run.IsContainerStart() then
        var fontMetrics := style.fontMetrics;
        if style.verticalAlign == Baseline then
          var halfLeading := HalfLeadingMetrics(fontMetrics, style.computedLineHeight);
          // Both half-leading ascent and descent could be negative.
          var withDescent := if halfLeading.descent > 0.0 then DescentAtLeast(lineBox, halfLeading.descent) else lineBox;
          var withAscent := if halfLeading.ascent > 0.0 then AscentAtLeast(withDescent, halfLeading.ascent) else withDescent;
          metrics.(lineBox := HeightAtLeast(withAscent, withAscent.baseline.Height()))
        else
          metrics.(lineBox := HeightAtLeast(lineBox, fontMetrics.height as real))
      else if run.IsContainerEnd() then metrics
      else if run.IsBox() then
        var marginBoxHeight := geometry.marginBoxHeight;
        match style.verticalAlign
        case Baseline =>
          if run.LayoutBox().isInlineBlockBox && run.LayoutBox().establishesInlineFormattingContext then
            var inlineBlockBaseline := geometry.lastLineBaseline;
            var beforeHeight := geometry.marginBefore + geometry.borderTop + geometry.paddingTop;
            var stretched := DescentAtLeast(AscentAtLeast(lineBox, inlineBlockBaseline.ascent), inlineBlockBaseline.descent);
            metrics.(lineBox := HeightAtLeast(BaselineOffsetAtLeast(stretched, beforeHeight + geometry.lastLineBaselineOffset), marginBoxHeight))
          else
            // Non inline-block boxes sit on the baseline, with their bottom margin.
            var raised := AscentAtLeast(lineBox, marginBoxHeight);
            var descent := if raised.baseline.descent > 0.0 then raised.baseline.descent else 0.0;
            metrics.(lineBox := HeightAtLeast(raised, marginBoxHeight + descent))
        case Top => metrics.(lineBox := HeightAtLeast(lineBox, marginBoxHeight))
        case Bottom =>
          var lineLogicalHeight := lineBox.LogicalHeight();
          if marginBoxHeight > lineLogicalHeight then
            var taller := HeightAtLeast(lineBox, marginBoxHeight);
            metrics.(lineBox := BaselineOffsetAtLeast(taller, taller.baselineOffset + (marginBoxHeight - lineLogicalHeight)))
          else metrics
        case _ => metrics
      else metrics
  }

  /** `runContentHeight`: the font height for text and containers, a box's own height otherwise. */
  function RunContentHeight(run: Run): (h: LayoutUnit)
    ensures run.IsText() || run.IsLineBreak() || run.IsContainerStart() || run.IsContainerEnd() ==>
      h == run.Style().fontMetrics.height as real
    ensures !(run.IsText() || run.IsLineBreak() || run.IsContainerStart() || run.IsContainerEnd()) ==>
      h == (if run.LayoutBox().isReplaced || run.LayoutBox().isFloatingPositioned
            then run.LayoutBox().geometry.contentBoxHeight else run.LayoutBox().geometry.marginBoxHeight)
  {
    if run.IsText() || run.IsLineBreak() || run.IsContainerStart() || run.IsContainerEnd() then
      run.Style().fontMetrics.height as real
    else if run.LayoutBox().isReplaced || run.LayoutBox().isFloatingPositioned then run.LayoutBox().geometry.contentBoxHeight
    else run.LayoutBox().geometry.marginBoxHeight
  }

  // ---------------------------------------------------------------------------------------
  // Vertical alignment.

  /**
   * The line-relative top of a run: on the baseline by its font ascent (text), its font
   * ascent plus top border and padding (containers), its own baseline (inline-blocks) or its
   * height (other boxes); at the top of the line; or with its bottom on the line's bottom.
   */
  function RunLogicalTop(run: Run, lineBox: LineBox): LayoutUnit {
    var layoutBox := run.LayoutBox();
    var geometry := layoutBox.geometry;
    var ascent := run.Style().fontMetrics.ascent as real;
    match run.Style().verticalAlign
    case Baseline =>
      if run.IsLineBreak() || run.IsText() then lineBox.baselineOffset - ascent
      else if run.IsContainerStart() then lineBox.baselineOffset - ascent - geometry.borderTop - geometry.paddingTop
      else if layoutBox.isInlineBlockBox && layoutBox.establishesInlineFormattingContext then
        lineBox.baselineOffset - (geometry.marginBefore + geometry.borderTop + geometry.paddingTop + geometry.lastLineBaselineOffset)
      else lineBox.baselineOffset - run.logicalRect.height
    case Top => 0.0
    case Bottom => lineBox.LogicalHeight() - run.logicalRect.height
    case _ => 0.0
  }

  /** A run placed on the line and converted from line-relative to formatting-root coordinates. */
  function AlignedVertically(run: Run, lineBox: LineBox): (r: Run)
    ensures r.logicalRect.top == lineBox.LogicalTop() + RunLogicalTop(run, lineBox)
    ensures r.logicalRect.left == run.logicalRect.left + lineBox.LogicalLeft()
    ensures r.logicalRect.width == run.logicalRect.width && r.logicalRect.height == run.logicalRect.height
    ensures r.(logicalRect := run.logicalRect) == run
  {
    var placed := run.(logicalRect := run.logicalRect.(top := RunLogicalTop(run, lineBox)));
    placed.(logicalRect := placed.logicalRect.(top := placed.logicalRect.top + lineBox.LogicalTop(),
                                               left := placed.logicalRect.left + lineBox.LogicalLeft()))
  }

  /** Top-aligned runs start at the line's top and bottom-aligned runs end at the line's bottom. */
  lemma VerticalAlignmentEdges(run: Run, lineBox: LineBox)
    ensures run.Style().verticalAlign == Top ==> AlignedVertically(run, lineBox).logicalRect.top == lineBox.LogicalTop()
    ensures run.Style().verticalAlign == Bottom ==> AlignedVertically(run, lineBox).logicalRect.Bottom() == lineBox.LogicalBottom()
  {
  }

  /** The bottom-aligned top as written: the line's bottom is already in formatting-root coordinates. */
  function BottomAlignedTopAsWritten(run: Run, lineBox: LineBox): LayoutUnit {
    lineBox.LogicalBottom() - run.logicalRect.height
  }

  /**
   * On a line at top 20 and 20 tall, a 10 tall bottom-aligned run ends up at 50 as written,
   * 20 below the line's bottom (40), where the intended placement puts it at 30.
   */
  lemma BottomAlignmentAsWrittenCounterexample()
    ensures var lineBox := LineBox(InlineRect(20.0, 0.0, 100.0, 20.0), LineBaseline(15.0, 5.0), 15.0, false);
      var style := Style(Normal, NormalBreak, NBSPNormal, HyphensNone, InitialHyphenationLimit, InitialHyphenationLimit,
                         0.0, Bottom, 0, FontMetrics(8, 2, 10), 12, 4.0, 10.0);
      var geometry := BoxGeometry(0.0, 0.0, 0.0, 0.0, 0.0, 0.0, 0.0, 0.0, 0.0, 10.0, 10.0, 10.0, 0.0, LineBaseline(0.0, 0.0));
      var box := LayoutBox(7, style, geometry, [], false, true, false, false, false, false);
      var run := Run(BoxItem(box), InlineRect(0.0, 0.0, 10.0, 10.0), None, 0, false);
      lineBox.LogicalTop() + BottomAlignedTopAsWritten(run, lineBox) == 50.0
      && AlignedVertically(run, lineBox).logicalRect.top == 30.0
  {
  }

  /** `alignContentVertically`. */
  method AlignContentVertically(runList: seq<Run>, lineBox: LineBox) returns (aligned: seq<Run>)
    ensures |aligned| == |runList|
    ensures forall k :: 0 <= k < |runList| ==> aligned[k] == AlignedVertically(runList[k], lineBox)
  {
    aligned := [];
    var i := 0;
    while i < |runList|
      invariant i <= |runList| && |aligned| == i
      invariant forall k :: 0 <= k < i ==> aligned[k] == AlignedVertically(runList[k], lineBox)
    {
      aligned := aligned + [AlignedVertically(runList[i], lineBox)];
      i := i + 1;
    }
  }
}
