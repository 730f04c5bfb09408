/**
 * `LineLayoutTraversal::DisplayRunPath`: the cursor that painting and editing code use to
 * walk a contiguous range of the display runs produced by inline layout.
 */
module LineLayoutTraversal {
  import opened Wrappers
  import opened LayoutStyle
  import opened InlineLineRuns

  // ---------------------------------------------------------------------------------------
  // Display content.

  /** `Display::Run::TextContext` as a reader sees it: the start offset, length and content. */
  datatype DisplayTextContext = DisplayTextContext(start: nat, length: nat, content: Text) {
    /** `TextContext::end`: one past the last offset the run paints. */
    function End(): nat { start + length }
  }

  /**
   * `Display::Run`: the box that generated the run, the line the run sits on, its
   * logical rectangle, whether it is a forced line break, and its text (if any).
   */
  datatype DisplayRun = DisplayRun(
    layoutBox: BoxId,
    lineIndex: nat,
    logicalRect: InlineRect,
    isLineBreak: bool,
    textContext: Option<DisplayTextContext>)

  /**
   * `Display::InlineContent`: the runs and line boxes of a laid-out block. It is shared by
   * reference, so a path compares contents by identity.
   */
  class InlineContent {
    const runs: seq<DisplayRun>
    const lineBoxes: seq<LineBox>

    constructor (runs: seq<DisplayRun>, lineBoxes: seq<LineBox>)
      ensures this.runs == runs && this.lineBoxes == lineBoxes
    {
      this.runs := runs;
      this.lineBoxes := lineBoxes;
    }
  }

  // ---------------------------------------------------------------------------------------
  // Positions.

  /** `roundf`: the nearest integer, halfway cases rounded away from zero. */
  function RoundHalfAwayFromZero(x: real): (r: int)
    ensures x >= 0.0 ==> x - 0.5 < r as real <= x + 0.5
    ensures x < 0.0 ==> x - 0.5 <= r as real < x + 0.5
  {
    if x >= 0.0 then (x + 0.5).Floor else -((-x + 0.5).Floor)
  }

  datatype Point = Point(x: real, y: real)

  /** `linePosition`: the left edge is kept and the top is snapped to a whole pixel. */
  function LinePosition(logicalLeft: real, logicalTop: real): (p: Point)
    ensures p.x == logicalLeft
    ensures p.y == RoundHalfAwayFromZero(logicalTop) as real
    ensures p.y == p.y.Floor as real
    ensures -0.5 <= p.y - logicalTop <= 0.5
  {
    Point(logicalLeft, RoundHalfAwayFromZero(logicalTop) as real)
  }

  // ---------------------------------------------------------------------------------------
  // The cursor.

  class DisplayRunPath {
    const inlineContent: InlineContent
    const endIndex: nat
    var runIndex: nat

    /** The range a path walks lies within the content's runs, and the cursor within it. */
    ghost predicate Valid()
      reads this`runIndex
    {
      runIndex <= endIndex <= |inlineContent.runs|
    }

    /** How many runs are left to visit, counting the current one. */
    ghost function Remaining(): nat
      reads this`runIndex
      requires Valid()
    {
      endIndex - runIndex
    }

    constructor (inlineContent: InlineContent, startIndex: nat, endIndex: nat)
      ensures this.inlineContent == inlineContent
      ensures this.endIndex == endIndex && runIndex == startIndex
    {
      this.inlineContent := inlineContent;
      this.endIndex := endIndex;
      this.runIndex := startIndex;
    }

    /** `atEnd`: every run of the range has been visited. */
    predicate AtEnd()
      reads this`runIndex
      ensures Valid() ==> (AtEnd() <==> Remaining() == 0)
    {
      runIndex == endIndex
    }

    /** `isLast`: the current run is the last one of the range. */
    predicate IsLast()
      reads this`runIndex
      ensures Valid() ==> (IsLast() <==> Remaining() == 1)
    {
      runIndex + 1 == endIndex
    }

    /** `run`: the run under the cursor. */
    function Run(): DisplayRun
      reads this`runIndex
      requires runIndex < |inlineContent.runs|
    {
      inlineContent.runs[runIndex]
    }

    /** `logicalRect` (and `rect`, which returns the same): the run's rectangle, top snapped. */
    function LogicalRect(): (r: InlineRect)
      reads this`runIndex
      requires runIndex < |inlineContent.runs|
      ensures r.left == Run().logicalRect.left
      ensures r.width == Run().logicalRect.width && r.height == Run().logicalRect.height
      ensures -0.5 <= r.top - Run().logicalRect.top <= 0.5
    {
      var rect := Run().logicalRect;
      var position := LinePosition(rect.left, rect.top);
      InlineRect(position.y, position.x, rect.width, rect.height)
    }

    predicate IsLeftToRightDirection() { true }

    predicate DirOverride() { false }

    predicate HasHyphen() { false }

    predicate IsLineBreak()
      reads this`runIndex
      requires runIndex < |inlineContent.runs|
    {
      Run().isLineBreak
    }

    predicate HasText()
      reads this`runIndex
      requires runIndex < |inlineContent.runs|
    {
      Run().textContext.Some?
    }

    /** `text`: the content the current run paints. */
    function Text(): Text
      reads this`runIndex
      requires runIndex < |inlineContent.runs| && HasText()
    {
      Run().textContext.value.content
    }

    function LocalStartOffset(): nat
      reads this`runIndex
      requires runIndex < |inlineContent.runs| && HasText()
    {
      Run().textContext.value.start
    }

    function Length(): nat
      reads this`runIndex
      requires runIndex < |inlineContent.runs| && HasText()
    {
      Run().textContext.value.length
    }

    /** `localEndOffset`: the painted slice ends `length` offsets after it starts. */
    function LocalEndOffset(): (e: nat)
      reads this`runIndex
      requires runIndex < |inlineContent.runs| && HasText()
      ensures e - LocalStartOffset() == Length()
    {
      Run().textContext.value.End()
    }

    /**
     * `isLastOnLine`: the current run is the last of the range, or the next run sits on
     * another line.
     */
    predicate IsLastOnLine()
      reads this`runIndex
      requires runIndex < endIndex <= |inlineContent.runs|
      ensures IsLast() ==> IsLastOnLine()
      ensures !IsLastOnLine() ==> inlineContent.runs[runIndex + 1].lineIndex == Run().lineIndex
    {
      IsLast() || Run().lineIndex != inlineContent.runs[runIndex + 1].lineIndex
    }

    /** `traverseNextTextBoxInVisualOrder`: step to the next run of the range. */
    method TraverseNextTextBoxInVisualOrder()
      requires Valid() && !AtEnd()
      modifies this`runIndex
      ensures runIndex == old(runIndex) + 1
      ensures Valid() && Remaining() == old(Remaining()) - 1
    {
      runIndex := runIndex + 1;
    }

    /** `traverseNextTextBoxInTextOrder`: the same step, since runs are left-to-right. */
    method TraverseNextTextBoxInTextOrder()
      requires Valid() && !AtEnd()
      modifies this`runIndex
      ensures runIndex == old(runIndex) + 1
      ensures Valid() && Remaining() == old(Remaining()) - 1
    {
      TraverseNextTextBoxInVisualOrder();
    }

    /** `operator==`: the same content, by identity, and the same current run. */
    predicate Equals(other: DisplayRunPath)
      reads this`runIndex, other`runIndex
      ensures Equals(other) && runIndex < |inlineContent.runs| ==>
        other.runIndex < |other.inlineContent.runs| && Run() == other.Run()
    {
      inlineContent == other.inlineContent && runIndex == other.runIndex
    }
  }

  // ---------------------------------------------------------------------------------------
  // Properties.

  /** A path never reports a right-to-left run, a direction override or a hyphen. */
  lemma RunsAreLeftToRightWithoutHyphens(p: DisplayRunPath)
    ensures p.IsLeftToRightDirection() && !p.DirOverride() && !p.HasHyphen()
  {
  }

  /** Two equal paths stand on the same run, whatever their end indices. */
  lemma EqualPathsReadTheSameRun(p: DisplayRunPath, q: DisplayRunPath)
    requires p.Equals(q) && p.runIndex < |p.inlineContent.runs|
    ensures q.runIndex < |q.inlineContent.runs| && p.Run() == q.Run()
    ensures p.IsLineBreak() == q.IsLineBreak()
    ensures p.LogicalRect() == q.LogicalRect()
  {
  }

  /** The runs are in line order: a later run never sits on an earlier line. */
  ghost predicate InLineOrder(runs: seq<DisplayRun>)
  {
    forall i, j :: 0 <= i < j < |runs| ==> runs[i].lineIndex <= runs[j].lineIndex
  }

  /**
   * Over runs in line order, the current run is last on its line exactly when no later
   * run of the range shares its line.
   */
  lemma LastOnLineEndsTheLine(p: DisplayRunPath)
    requires p.runIndex < p.endIndex <= |p.inlineContent.runs|
    requires InLineOrder(p.inlineContent.runs)
    ensures p.IsLastOnLine() <==>
      forall k :: p.runIndex < k < p.endIndex ==> p.inlineContent.runs[k].lineIndex != p.Run().lineIndex
  {
    var runs := p.inlineContent.runs;
    if p.IsLastOnLine() && !p.IsLast() {
      forall k | p.runIndex < k < p.endIndex
        ensures runs[k].lineIndex != p.Run().lineIndex
      {
        assert runs[p.runIndex + 1].lineIndex <= runs[k].lineIndex;
      }
    }
  }
}
