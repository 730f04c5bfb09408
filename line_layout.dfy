/**
 * `LayoutIntegration::LineLayout`: the bridge between a block's renderer and the inline
 * formatting context. It decides whether the new inline layout may be used for a block,
 * records the content height after layout, answers baseline and line-count queries, and
 * finds the display runs a renderer generated.
 */
module LayoutIntegration {
  import opened Wrappers
  import opened LayoutStyle
  import opened InlineLineRuns
  import opened LineLayoutTraversal

  // ---------------------------------------------------------------------------------------
  // Eligibility.

  /** `RenderObject::FragmentedFlowState`. */
  datatype FragmentedFlowState = NotInsideFragmentedFlow | InsideInFragmentedFlow

  /**
   * What `canUseFor` asks of a block: the runtime feature flag, the verdict of the older
   * simple line layout (a separate component, taken as given), whether the block contains
   * floats, its `text-transform`, and whether it sits in a fragmented flow.
   */
  datatype BlockFlow = BlockFlow(
    integrationEnabled: bool,
    simpleLineLayoutCanUse: bool,
    containsFloats: bool,
    textTransform: TextTransform,
    fragmentedFlowState: FragmentedFlowState)

  /** `LineLayout::canUseFor`: every one of the five conditions must allow it. */
  function CanUseFor(flow: BlockFlow): (r: bool)
    ensures r <==> (flow.integrationEnabled && flow.simpleLineLayoutCanUse && !flow.containsFloats
      && flow.textTransform != Capitalize && flow.fragmentedFlowState == NotInsideFragmentedFlow)
  {
    if !flow.integrationEnabled then false
    else if !flow.simpleLineLayoutCanUse then false
    else if flow.containsFloats then false
    else if flow.textTransform == Capitalize then false
    else if flow.fragmentedFlowState != NotInsideFragmentedFlow then false
    else true
  }

  // ---------------------------------------------------------------------------------------
  // Heights and baselines.

  /** The vertical extent of the lines: from the first line's top to the last line's bottom. */
  function ContentHeight(lineBoxes: seq<LineBox>): LayoutUnit
    requires |lineBoxes| > 0
  {
    lineBoxes[|lineBoxes| - 1].LogicalBottom() - lineBoxes[0].LogicalTop()
  }

  /** Each line starts where the previous one ends. */
  ghost predicate Stacked(lineBoxes: seq<LineBox>)
  {
    forall i :: 0 < i < |lineBoxes| ==> lineBoxes[i].LogicalTop() == lineBoxes[i - 1].LogicalBottom()
  }

  ghost function SumOfHeights(lineBoxes: seq<LineBox>): LayoutUnit
  {
    if |lineBoxes| == 0 then 0.0
    else SumOfHeights(lineBoxes[..|lineBoxes| - 1]) + lineBoxes[|lineBoxes| - 1].LogicalHeight()
  }

  /** For lines stacked one below the other, the content height is the sum of the line heights. */
  lemma {:induction false} StackedContentHeight(lineBoxes: seq<LineBox>)
    requires |lineBoxes| > 0 && Stacked(lineBoxes)
    ensures ContentHeight(lineBoxes) == SumOfHeights(lineBoxes)
  {
    var n := |lineBoxes|;
    var prefix := lineBoxes[..n - 1];
    if n > 1 {
      assert Stacked(prefix) by {
        forall i | 0 < i < |prefix|
          ensures prefix[i].LogicalTop() == prefix[i - 1].LogicalBottom()
        {
          assert prefix[i] == lineBoxes[i] && prefix[i - 1] == lineBoxes[i - 1];
        }
      }
      StackedContentHeight(prefix);
      assert prefix[n - 2] == lineBoxes[n - 2];
      assert lineBoxes[n - 1].LogicalTop() == lineBoxes[n - 2].LogicalBottom();
    } else {
      assert prefix == [];
    }
  }

  // ---------------------------------------------------------------------------------------
  // Finding the runs of a box.

  /** A half-open range of run indices, `[start, end)`. */
  datatype RunRange = RunRange(start: nat, end: nat)

  /** The first run at or after `from` that `box` generated, or the number of runs. */
  function FirstOwned(runs: seq<DisplayRun>, box: BoxId, from: nat): (i: nat)
    requires from <= |runs|
    ensures from <= i <= |runs|
    ensures forall k :: from <= k < i ==> runs[k].layoutBox != box
    ensures i < |runs| ==> runs[i].layoutBox == box
    decreases |runs| - from
  {
    if from == |runs| || runs[from].layoutBox == box then from
    else FirstOwned(runs, box, from + 1)
  }

  /** The end of the block of consecutive runs of `box` that starts at `from`. */
  function OwnedBlockEnd(runs: seq<DisplayRun>, box: BoxId, from: nat): (e: nat)
    requires from <= |runs|
    ensures from <= e <= |runs|
    ensures forall k :: from <= k < e ==> runs[k].layoutBox == box
    ensures e < |runs| ==> runs[e].layoutBox != box
    decreases |runs| - from
  {
    if from == |runs| || runs[from].layoutBox != box then from
    else OwnedBlockEnd(runs, box, from + 1)
  }

  /** The runs `textBoxesFor` walks: the first maximal block of runs `box` generated. */
  function TextBoxRange(runs: seq<DisplayRun>, box: BoxId): Option<RunRange>
  {
    var first := FirstOwned(runs, box, 0);
    if first == |runs| then None else Some(RunRange(first, OwnedBlockEnd(runs, box, first)))
  }

  /** The run `elementBoxFor` returns: the first run `box` generated. */
  function ElementBoxRange(runs: seq<DisplayRun>, box: BoxId): Option<RunRange>
  {
    var first := FirstOwned(runs, box, 0);
    if first == |runs| then None else Some(RunRange(first, first + 1))
  }

  /**
   * The text box range is empty exactly when no run belongs to the box; otherwise it is
   * non-empty, holds only runs of the box, starts at the box's first run and cannot be
   * extended to the right.
   */
  lemma TextBoxRangeIsFirstMaximalBlock(runs: seq<DisplayRun>, box: BoxId)
    ensures TextBoxRange(runs, box).None? <==> forall k :: 0 <= k < |runs| ==> runs[k].layoutBox != box
    ensures TextBoxRange(runs, box).Some? ==>
      var r := TextBoxRange(runs, box).value;
      && r.start < r.end <= |runs|
      && (forall k :: 0 <= k < r.start ==> runs[k].layoutBox != box)
      && (forall k :: r.start <= k < r.end ==> runs[k].layoutBox == box)
      && (r.end == |runs| || runs[r.end].layoutBox != box)
  {
  }

  /** The element box is the first run of the text box range. */
  lemma ElementBoxStartsTextBoxRange(runs: seq<DisplayRun>, box: BoxId)
    ensures ElementBoxRange(runs, box).None? <==> TextBoxRange(runs, box).None?
    ensures ElementBoxRange(runs, box).Some? ==>
      && ElementBoxRange(runs, box).value.start == TextBoxRange(runs, box).value.start
      && ElementBoxRange(runs, box).value.end <= TextBoxRange(runs, box).value.end
  {
  }

  /** The search loop of `textBoxesFor`: note the first match, extend to the last one of the block. */
  method FindTextBoxRange(runs: seq<DisplayRun>, box: BoxId) returns (r: Option<RunRange>)
    ensures r == TextBoxRange(runs, box)
  {
    var firstIndex: Option<nat> := None;
    var lastIndex: nat := 0;
    var i: nat := 0;
    while i < |runs|
      invariant i <= |runs|
      invariant firstIndex.None? ==> forall k :: 0 <= k < i ==> runs[k].layoutBox != box
      invariant firstIndex.Some? ==>
        && firstIndex.value == FirstOwned(runs, box, 0)
        && firstIndex.value <= lastIndex && lastIndex + 1 == i
        && forall k :: firstIndex.value <= k < i ==> runs[k].layoutBox == box
    {
      if runs[i].layoutBox == box {
        if firstIndex.None? {
          firstIndex := Some(i);
        }
        lastIndex := i;
      } else if firstIndex.Some? {
        break;
      }
      i := i + 1;
    }
    if firstIndex.None? {
      return None;
    }
    r := Some(RunRange(firstIndex.value, lastIndex + 1));
  }

  /** The search loop of `elementBoxFor`: the one-run range at the first match. */
  method FindElementBoxRange(runs: seq<DisplayRun>, box: BoxId) returns (r: Option<RunRange>)
    ensures r == ElementBoxRange(runs, box)
  {
    var i: nat := 0;
    while i < |runs|
      invariant i <= |runs|
      invariant forall k :: 0 <= k < i ==> runs[k].layoutBox != box
    {
      if runs[i].layoutBox == box {
        return Some(RunRange(i, i + 1));
      }
      i := i + 1;
    }
    return None;
  }

  // ---------------------------------------------------------------------------------------
  // The line layout of one block.

  class LineLayout {
    /** `displayInlineContent()`: what the inline formatting context produced, if anything. */
    var inlineContent: Option<InlineContent>
    var contentLogicalHeight: LayoutUnit

    /** Laid-out content always has at least one line. */
    ghost predicate Valid()
      reads this`inlineContent
    {
      inlineContent.Some? ==> |inlineContent.value.lineBoxes| > 0
    }

    constructor ()
      ensures Valid()
      ensures inlineContent.None? && contentLogicalHeight == 0.0
    {
      inlineContent := None;
      contentLogicalHeight := 0.0;
    }

    /**
     * `layout`: the formatting context lays out the block (its result is the parameter) and
     * the content height is taken from the first and last line boxes.
     */
    method Layout(laidOut: InlineContent)
      requires |laidOut.lineBoxes| > 0
      modifies this`inlineContent, this`contentLogicalHeight
      ensures Valid()
      ensures inlineContent == Some(laidOut)
      ensures contentLogicalHeight == ContentHeight(laidOut.lineBoxes)
    {
      inlineContent := Some(laidOut);
      var lineBoxes := laidOut.lineBoxes;
      contentLogicalHeight := lineBoxes[|lineBoxes| - 1].LogicalBottom() - lineBoxes[0].LogicalTop();
    }

    /** `lineCount`: the number of line boxes, none before layout. */
    function LineCount(): (n: nat)
      reads this`inlineContent
      ensures inlineContent.None? ==> n == 0
      ensures inlineContent.Some? ==> n == |inlineContent.value.lineBoxes|
    {
      match inlineContent
      case None => 0
      case Some(content) => |content.lineBoxes|
    }

    /** `firstLineBaseline`: the first line's top plus its baseline offset; 0 before layout. */
    function FirstLineBaseline(): (b: LayoutUnit)
      reads this`inlineContent
      requires Valid()
      ensures inlineContent.None? ==> b == 0.0
      ensures inlineContent.Some? ==>
        b - inlineContent.value.lineBoxes[0].LogicalTop() == inlineContent.value.lineBoxes[0].baselineOffset
    {
      match inlineContent
      case None => 0.0
      case Some(content) => content.lineBoxes[0].LogicalTop() + content.lineBoxes[0].baselineOffset
    }

    /** `lastLineBaseline`: the last line's top plus its baseline offset; 0 before layout. */
    function LastLineBaseline(): (b: LayoutUnit)
      reads this`inlineContent
      requires Valid()
      ensures inlineContent.None? ==> b == 0.0
      ensures inlineContent.Some? ==>
        var last := inlineContent.value.lineBoxes[|inlineContent.value.lineBoxes| - 1];
        b - last.LogicalTop() == last.baselineOffset
    {
      match inlineContent
      case None => 0.0
      case Some(content) =>
        var last := content.lineBoxes[|content.lineBoxes| - 1];
        last.LogicalTop() + last.baselineOffset
    }

    /**
     * `textBoxesFor`: a path over the first block of runs the box generated, or none when
     * there is no content or no such run.
     */
    method TextBoxesFor(box: BoxId) returns (path: Option<DisplayRunPath>)
      ensures path.None? <==> inlineContent.None? || TextBoxRange(inlineContent.value.runs, box).None?
      ensures path.Some? ==>
        && fresh(path.value)
        && path.value.inlineContent == inlineContent.value
        && var range := TextBoxRange(inlineContent.value.runs, box).value;
        && path.value.runIndex == range.start && path.value.endIndex == range.end
        && path.value.Valid() && !path.value.AtEnd()
    {
      if inlineContent.None? {
        return None;
      }
      var content := inlineContent.value;
      var range := FindTextBoxRange(content.runs, box);
      if range.None? {
        return None;
      }
      TextBoxRangeIsFirstMaximalBlock(content.runs, box);
      var p := new DisplayRunPath(content, range.value.start, range.value.end);
      path := Some(p);
    }

    /**
     * `elementBoxFor`: a one-run path at the first run the box generated, or none when there
     * is no content or no such run.
     */
    method ElementBoxFor(box: BoxId) returns (path: Option<DisplayRunPath>)
      ensures path.None? <==> inlineContent.None? || ElementBoxRange(inlineContent.value.runs, box).None?
      ensures path.Some? ==>
        && fresh(path.value)
        && path.value.inlineContent == inlineContent.value
        && var range := ElementBoxRange(inlineContent.value.runs, box).value;
        && path.value.runIndex == range.start && path.value.endIndex == range.end
        && path.value.Valid() && path.value.IsLast()
    {
      if inlineContent.None? {
        return None;
      }
      var content := inlineContent.value;
      var range := FindElementBoxRange(content.runs, box);
      if range.None? {
        return None;
      }
      var p := new DisplayRunPath(content, range.value.start, range.value.end);
      path := Some(p);
    }
  }

  /** With a single line, the first and the last baselines coincide. */
  lemma SingleLineHasOneBaseline(layout: LineLayout)
    requires layout.Valid() && layout.LineCount() == 1
    ensures layout.FirstLineBaseline() == layout.LastLineBaseline()
  {
  }

  /**
   * A baseline offset inside the line box puts the first baseline between the top of the
   * content and its bottom.
   */
  lemma FirstBaselineWithinContent(layout: LineLayout)
    requires layout.Valid() && layout.inlineContent.Some?
    requires var first := layout.inlineContent.value.lineBoxes[0];
      0.0 <= first.baselineOffset <= first.LogicalHeight()
    requires Stacked(layout.inlineContent.value.lineBoxes)
    requires forall i :: 0 <= i < |layout.inlineContent.value.lineBoxes| ==>
      layout.inlineContent.value.lineBoxes[i].LogicalHeight() >= 0.0
    ensures var lineBoxes := layout.inlineContent.value.lineBoxes;
      lineBoxes[0].LogicalTop() <= layout.FirstLineBaseline()
        <= lineBoxes[0].LogicalTop() + ContentHeight(lineBoxes)
  {
    var lineBoxes := layout.inlineContent.value.lineBoxes;
    StackedContentHeight(lineBoxes);
    SumOfHeightsAtLeastFirst(lineBoxes);
  }

  lemma {:induction false} SumOfHeightsAtLeastFirst(lineBoxes: seq<LineBox>)
    requires |lineBoxes| > 0
    requires forall i :: 0 <= i < |lineBoxes| ==> lineBoxes[i].LogicalHeight() >= 0.0
    ensures SumOfHeights(lineBoxes) >= lineBoxes[0].LogicalHeight()
  {
    var n := |lineBoxes|;
    var prefix := lineBoxes[..n - 1];
    if n > 1 {
      assert prefix[0] == lineBoxes[0];
      SumOfHeightsAtLeastFirst(prefix);
    } else {
      assert SumOfHeights(prefix) == 0.0;
    }
  }
}
