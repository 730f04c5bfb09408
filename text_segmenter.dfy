/**
 * The text segmenter (`InlineTextItem::createAndAppendTextItems`): scans a box's text left
 * to right and appends soft line breaks (preserved newlines), maximal whitespace runs and
 * non-whitespace runs that end at the next breakable position.
 */
module TextSegmenter {
  import opened Wrappers
  import opened LayoutStyle
  import opened InlineItems
  import opened Measuring

  /**
   * `isWhitespaceCharacter`: space and tab are whitespace, and a newline is whitespace only
   * when newlines are not preserved. The function takes a `char`, so the code unit it is
   * handed is narrowed to its low byte first.
   */
  predicate IsWhitespaceCharacter(c: CodeUnit, preserveNewline: bool)
    ensures c < 0x100 ==>
      (IsWhitespaceCharacter(c, preserveNewline) <==> c == Space || c == Tab || (c == Newline && !preserveNewline))
    ensures IsWhitespaceCharacter(c, preserveNewline) ==> c % 0x100 == Space || c % 0x100 == Tab || c % 0x100 == Newline
  {
    var narrowed := c % 0x100;
    narrowed == Space || narrowed == Tab || (narrowed == Newline && !preserveNewline)
  }

  /** The length of the maximal run of whitespace characters starting at `start`. */
  function WhitespaceRunLength(text: Text, start: nat, preserveNewline: bool): (n: nat)
    requires start <= |text|
    ensures start + n <= |text|
    ensures forall i :: start <= i < start + n ==> IsWhitespaceCharacter(text[i], preserveNewline)
    ensures start + n == |text| || !IsWhitespaceCharacter(text[start + n], preserveNewline)
    decreases |text| - start
  {
    if start < |text| && IsWhitespaceCharacter(text[start], preserveNewline) then
      1 + WhitespaceRunLength(text, start + 1, preserveNewline)
    else
      0
  }

  /** `moveToNextNonWhitespacePosition`: counts the whitespace characters from `startPosition` on. */
  method MoveToNextNonWhitespacePosition(text: Text, startPosition: nat, preserveNewline: bool) returns (length: nat)
    requires startPosition <= |text|
    ensures length == WhitespaceRunLength(text, startPosition, preserveNewline)
  {
    var next := startPosition;
    while next < |text| && IsWhitespaceCharacter(text[next], preserveNewline)
      invariant startPosition <= next <= |text|
      invariant WhitespaceRunLength(text, startPosition, preserveNewline)
        == (next - startPosition) + WhitespaceRunLength(text, next, preserveNewline)
    {
      next := next + 1;
    }
    length := next - startPosition;
  }

  /**
   * The iterator entry point the style selects: keep-all keeps CJK words together, and
   * non-breaking spaces break only when the text wraps and nbsp-mode is `space`.
   */
  function BreakIteratorFor(style: Style, iteratorModeIsDefault: bool): (f: BreakIteratorFunction)
    ensures (f == KeepingAllWords || f == KeepingAllWordsIgnoringNBSP) <==> style.wordBreak == KeepAll
    ensures (f == KeepingAllWords || f == DefaultBreaking || f == WithoutShortcut)
        <==> (style.AutoWrap() && style.nbspMode == NBSPSpace)
  {
    var keepAllWordsForCJK := style.wordBreak == KeepAll;
    var breakNBSP := style.AutoWrap() && style.nbspMode == NBSPSpace;
    if keepAllWordsForCJK then
      (if breakNBSP then KeepingAllWords else KeepingAllWordsIgnoringNBSP)
    else if iteratorModeIsDefault then
      (if breakNBSP then DefaultBreaking else IgnoringNBSP)
    else
      (if breakNBSP then WithoutShortcut else IgnoringNBSPWithoutShortcut)
  }

  /**
   * The distance from `start` to the next breakable position, probing from `probe` on:
   * an answer equal to `start` itself is skipped, and past the end the rest of the text is taken.
   */
  function BreakableLength(m: TextMeasurer, f: BreakIteratorFunction, text: Text, start: nat, probe: nat): (n: nat)
    requires ValidBreakIterator(m)
    requires start <= probe && start < |text|
    ensures 0 < n && start + n <= |text|
    decreases |text| - probe
  {
    if probe < |text| then
      var next := m.nextBreakablePosition(f, text, probe);
      if next != start then next - start else BreakableLength(m, f, text, start, probe + 1)
    else
      |text| - start
  }

  /**
   * Because the oracle never answers before the position it is asked about, at most two
   * probes are made: an answer at `start` is skipped once, and a last character is taken whole.
   */
  lemma {:induction false} BreakableLengthProbes(m: TextMeasurer, f: BreakIteratorFunction, text: Text, start: nat)
    requires ValidBreakIterator(m) && start < |text|
    ensures var first := m.nextBreakablePosition(f, text, start);
      BreakableLength(m, f, text, start, start) ==
        if first != start then first - start
        else if start + 1 < |text| then m.nextBreakablePosition(f, text, start + 1) - start
        else |text| - start
  {
    var first := m.nextBreakablePosition(f, text, start);
    if first == start && start + 1 < |text| {
      var second := m.nextBreakablePosition(f, text, start + 1);
      assert start + 1 <= second;
      assert BreakableLength(m, f, text, start, start + 1) == second - start;
    }
  }

  /** `moveToNextBreakablePosition`: probes the iterator until it answers past `startPosition`. */
  method MoveToNextBreakablePosition(m: TextMeasurer, f: BreakIteratorFunction, text: Text, startPosition: nat)
    returns (length: nat)
    requires ValidBreakIterator(m) && startPosition < |text|
    ensures length == BreakableLength(m, f, text, startPosition, startPosition)
  {
    var probe := startPosition;
    while probe < |text|
      invariant startPosition <= probe <= |text|
      invariant BreakableLength(m, f, text, startPosition, startPosition)
        == BreakableLength(m, f, text, startPosition, probe)
    {
      var next := m.nextBreakablePosition(f, text, probe);
      if next != startPosition {
        return next - startPosition;
      }
      probe := probe + 1;
    }
    length := |text| - startPosition;
  }

  /** The cached width of a text item: measured only when simplified measuring is allowed. */
  function InlineItemWidth(m: TextMeasurer, box: LayoutBox, start: nat, length: nat): (w: Option<LayoutUnit>)
    ensures w.Some? <==> box.canUseSimplifiedContentMeasuring
    ensures w.Some? ==> w.value == m.width(box, start, start + length)
  {
    if !box.canUseSimplifiedContentMeasuring then None else Some(m.width(box, start, start + length))
  }

  /** A single space, or whitespace that collapses, measures as the font's space width. */
  function WhitespaceItemWidth(m: TextMeasurer, box: LayoutBox, start: nat, length: nat): (w: Option<LayoutUnit>)
    ensures w.Some? <==> box.canUseSimplifiedContentMeasuring
    ensures box.canUseSimplifiedContentMeasuring && (length == 1 || box.style.CollapseWhiteSpace())
      ==> w == Some(box.style.spaceWidth)
    ensures box.canUseSimplifiedContentMeasuring && length != 1 && !box.style.CollapseWhiteSpace()
      ==> w == Some(m.width(box, start, start + length))
  {
    var simpleSingleWhitespaceContent :=
      box.canUseSimplifiedContentMeasuring && (length == 1 || box.style.CollapseWhiteSpace());
    if simpleSingleWhitespaceContent then Some(box.style.spaceWidth) else InlineItemWidth(m, box, start, length)
  }

  /** The line-break iterator is created over the text with its default mode. */
  const IteratorModeIsDefault: bool := true

  /** The item the segmenter emits at `position`, which is inside the text. */
  function NextTextItem(m: TextMeasurer, box: LayoutBox, position: nat): (item: InlineItem)
    requires ValidBreakIterator(m) && position < |box.text|
    ensures position == SpanStart(item) < SpanEnd(item) <= |box.text|
  {
    var text := box.text;
    var preserveNewline := box.style.PreserveNewline();
    if text[position] == Newline && preserveNewline then
      SoftLineBreak(box, position)
    else if IsWhitespaceCharacter(text[position], preserveNewline) then
      var length := WhitespaceRunLength(text, position, preserveNewline);
      TextItem(box, position, length, WhitespaceItemWidth(m, box, position, length), Whitespace)
    else
      var length := BreakableLength(m, BreakIteratorFor(box.style, IteratorModeIsDefault), text, position, position);
      TextItem(box, position, length, InlineItemWidth(m, box, position, length), NonWhitespace)
  }

  /**
   * The narrowing in `isWhitespaceCharacter` makes any code unit whose low byte is a space
   * whitespace: in "a†b" the dagger U+2020 becomes a one-unit whitespace item.
   */
  lemma DaggerIsWhitespaceItem(m: TextMeasurer, box: LayoutBox)
    requires ValidBreakIterator(m) && box.text == [0x61, 0x2020, 0x62]
    ensures NextTextItem(m, box, 1).TextItem?
    ensures NextTextItem(m, box, 1).textItemType == Whitespace && NextTextItem(m, box, 1).length == 1
  {
    assert WhitespaceRunLength(box.text, 2, box.style.PreserveNewline()) == 0;
  }

  /** A non-whitespace item never swallows a newline: the iterator stops at one. */
  lemma BreakableLengthStopsAtNewline(m: TextMeasurer, f: BreakIteratorFunction, text: Text, start: nat)
    requires ValidBreakIterator(m) && start < |text| && text[start] != Newline
    ensures forall q :: start <= q < start + BreakableLength(m, f, text, start, start) ==> text[q] != Newline
  {
    BreakableLengthProbes(m, f, text, start);
    var first := m.nextBreakablePosition(f, text, start);
    if first != start {
      forall q | start <= q < first
        ensures text[q] != Newline
      {
        assert q < |text| && m.nextBreakablePosition(f, text, start) == first;
      }
    } else if start + 1 < |text| {
      var second := m.nextBreakablePosition(f, text, start + 1);
      forall q | start + 1 <= q < second
        ensures text[q] != Newline
      {
        assert q < |text| && m.nextBreakablePosition(f, text, start + 1) == second;
      }
    }
  }

  /** Every preserved newline at or after `position` is emitted as a soft line break of its own. */
  lemma {:induction false} PreservedNewlineIsSoftBreak(m: TextMeasurer, box: LayoutBox, position: nat, i: nat)
    requires ValidBreakIterator(m) && position <= i < |box.text|
    requires box.style.PreserveNewline() && box.text[i] == Newline
    ensures SoftLineBreak(box, i) in TextItemsFrom(m, box, position)
    decreases |box.text| - position
  {
    var item := NextTextItem(m, box, position);
    assert TextItemsFrom(m, box, position) == [item] + TextItemsFrom(m, box, SpanEnd(item));
    if position != i {
      if item.TextItem? && item.textItemType == NonWhitespace {
        BreakableLengthStopsAtNewline(m, BreakIteratorFor(box.style, IteratorModeIsDefault), box.text, position);
      }
      assert SpanEnd(item) <= i;
      PreservedNewlineIsSoftBreak(m, box, SpanEnd(item), i);
    }
  }

  /** The items the segmenter emits for the text from `position` to the end. */
  function TextItemsFrom(m: TextMeasurer, box: LayoutBox, position: nat): seq<InlineItem>
    requires ValidBreakIterator(m) && position <= |box.text|
    decreases |box.text| - position
  {
    if position == |box.text| then
      []
    else
      var item := NextTextItem(m, box, position);
      [item] + TextItemsFrom(m, box, SpanEnd(item))
  }

  /** All the items of a box's text; empty text still yields one (empty) item. */
  function TextItems(m: TextMeasurer, box: LayoutBox): seq<InlineItem>
    requires ValidBreakIterator(m)
  {
    if |box.text| == 0 then [CreateEmptyItem(box)] else TextItemsFrom(m, box, 0)
  }

  /** `createAndAppendTextItems`: appends the box's text items to the paragraph's item list. */
  method CreateAndAppendTextItems(m: TextMeasurer, inlineContent: InlineItemList, box: LayoutBox)
    requires ValidBreakIterator(m)
    modifies inlineContent
    ensures inlineContent.items == old(inlineContent.items) + TextItems(m, box)
  {
    var text := box.text;
    if |text| == 0 {
      inlineContent.items := inlineContent.items + [CreateEmptyItem(box)];
      return;
    }
    var style := box.style;
    var preserveNewline := style.PreserveNewline();
    var breakIterator := BreakIteratorFor(style, IteratorModeIsDefault);
    var items := inlineContent.items;
    var currentPosition := 0;
    while currentPosition < |text|
      invariant currentPosition <= |text|
      invariant items + TextItemsFrom(m, box, currentPosition) == old(inlineContent.items) + TextItemsFrom(m, box, 0)
      decreases |text| - currentPosition
    {
      var item;
      if text[currentPosition] == Newline && preserveNewline {
        // Segment breaks with a preserve-newline style become forced (soft) line breaks.
        item := SoftLineBreak(box, currentPosition);
      } else if IsWhitespaceCharacter(text[currentPosition], preserveNewline) {
        var length := MoveToNextNonWhitespacePosition(text, currentPosition, preserveNewline);
        item := TextItem(box, currentPosition, length, WhitespaceItemWidth(m, box, currentPosition, length), Whitespace);
      } else {
        var length := MoveToNextBreakablePosition(m, breakIterator, text, currentPosition);
        item := TextItem(box, currentPosition, length, InlineItemWidth(m, box, currentPosition, length), NonWhitespace);
      }
      assert item == NextTextItem(m, box, currentPosition);
      AppendShift(items, item, TextItemsFrom(m, box, SpanEnd(item)));
      items := items + [item];
      currentPosition := SpanEnd(item);
    }
    inlineContent.items := items;
  }

  lemma AppendShift(done: seq<InlineItem>, item: InlineItem, rest: seq<InlineItem>)
    ensures done + ([item] + rest) == (done + [item]) + rest
  {
  }

  // ---------------------------------------------------------------------------------------
  // What the emitted items promise.

  /** The [start, end) slice of the text an item stands for. */
  function SpanStart(item: InlineItem): nat {
    match item
    case TextItem(_, start, _, _, _) => start
    case SoftLineBreak(_, position) => position
    case _ => 0
  }

  function SpanEnd(item: InlineItem): nat {
    match item
    case TextItem(_, start, length, _, _) => start + length
    case SoftLineBreak(_, position) => position + 1
    case _ => 0
  }

  /** The items tile [from, to): each starts where the previous one ended and none is empty. */
  ghost predicate Tiles(items: seq<InlineItem>, from: nat, to: nat)
    decreases |items|
  {
    if items == [] then from == to
    else SpanStart(items[0]) == from && from < SpanEnd(items[0]) && Tiles(items[1..], SpanEnd(items[0]), to)
  }

  /**
   * What each emitted item is: a soft line break sits on a preserved newline; a whitespace
   * item is a maximal whitespace run with the whitespace width rule; a non-whitespace item
   * starts on a character that is neither whitespace nor a preserved newline.
   */
  ghost predicate WellFormedItem(m: TextMeasurer, box: LayoutBox, item: InlineItem) {
    var text := box.text;
    var preserveNewline := box.style.PreserveNewline();
    item.layoutBox == box &&
    match item
    case SoftLineBreak(_, position) =>
      preserveNewline && position < |text| && text[position] == Newline
    case TextItem(_, start, length, width, textItemType) =>
      start + length <= |text| && 0 < length &&
      (textItemType == Whitespace ==>
        (forall i :: start <= i < start + length ==> IsWhitespaceCharacter(text[i], preserveNewline)) &&
        (start + length == |text| || !IsWhitespaceCharacter(text[start + length], preserveNewline)) &&
        width == WhitespaceItemWidth(m, box, start, length)) &&
      (textItemType == NonWhitespace ==>
        !IsWhitespaceCharacter(text[start], preserveNewline) &&
        !(preserveNewline && text[start] == Newline) &&
        width == InlineItemWidth(m, box, start, length)) &&
      textItemType != Undefined
    case _ => false
  }

  /** The items from `position` tile the rest of the text and each is well formed. */
  lemma {:induction false} TextItemsFromTile(m: TextMeasurer, box: LayoutBox, position: nat)
    requires ValidBreakIterator(m) && position <= |box.text|
    ensures Tiles(TextItemsFrom(m, box, position), position, |box.text|)
    ensures forall i :: 0 <= i < |TextItemsFrom(m, box, position)| ==> WellFormedItem(m, box, TextItemsFrom(m, box, position)[i])
    decreases |box.text| - position
  {
    var items := TextItemsFrom(m, box, position);
    if position < |box.text| {
      var next := SpanEnd(items[0]);
      assert items[1..] == TextItemsFrom(m, box, next);
      TextItemsFromTile(m, box, next);
      forall i | 0 <= i < |items|
        ensures WellFormedItem(m, box, items[i])
      {
        if i > 0 {
          assert items[i] == items[1..][i - 1];
        }
      }
    }
  }

  /** The segmenter covers all of a non-empty text with well-formed items, in order and without gaps. */
  lemma TextItemsTile(m: TextMeasurer, box: LayoutBox)
    requires ValidBreakIterator(m) && |box.text| > 0
    ensures Tiles(TextItems(m, box), 0, |box.text|)
    ensures forall i :: 0 <= i < |TextItems(m, box)| ==> WellFormedItem(m, box, TextItems(m, box)[i])
  {
    TextItemsFromTile(m, box, 0);
  }

  /** Tiled items are never empty, so a single empty item appears exactly when the text is empty. */
  lemma TextItemsEmptyItemIffEmptyText(m: TextMeasurer, box: LayoutBox)
    requires ValidBreakIterator(m)
    ensures (exists i :: 0 <= i < |TextItems(m, box)| && TextItems(m, box)[i].TextItem? && TextItems(m, box)[i].length == 0)
        <==> |box.text| == 0
    ensures |box.text| == 0 ==> TextItems(m, box) == [CreateEmptyItem(box)]
  {
    var items := TextItems(m, box);
    if |box.text| > 0 {
      TextItemsTile(m, box);
      forall i | 0 <= i < |items| && items[i].TextItem?
        ensures items[i].length > 0
      {
        assert WellFormedItem(m, box, items[i]);
      }
    } else {
      assert items[0].TextItem? && items[0].length == 0;
    }
  }

  /**
   * The segmenter emits a soft line break at position `i` exactly when the box preserves
   * newlines and the text has a newline there.
   */
  lemma SoftBreaksAreThePreservedNewlines(m: TextMeasurer, box: LayoutBox, i: nat)
    requires ValidBreakIterator(m)
    ensures SoftLineBreak(box, i) in TextItems(m, box)
        <==> box.style.PreserveNewline() && i < |box.text| && box.text[i] == Newline
  {
    if box.style.PreserveNewline() && i < |box.text| && box.text[i] == Newline {
      PreservedNewlineIsSoftBreak(m, box, 0, i);
    }
    if SoftLineBreak(box, i) in TextItems(m, box) && |box.text| > 0 {
      TextItemsTile(m, box);
      var k :| 0 <= k < |TextItems(m, box)| && TextItems(m, box)[k] == SoftLineBreak(box, i);
      assert WellFormedItem(m, box, TextItems(m, box)[k]);
    }
  }

  /** Tiling with non-empty items means the items are in strictly increasing text order. */
  lemma {:induction false} TilesOrdered(items: seq<InlineItem>, from: nat, to: nat, i: nat, j: nat)
    requires Tiles(items, from, to) && i < j < |items|
    ensures SpanEnd(items[i]) <= SpanStart(items[j])
    ensures from <= SpanStart(items[i]) && SpanEnd(items[j]) <= to
    decreases |items|
  {
    if i == 0 {
      TilesBounds(items[1..], SpanEnd(items[0]), to, j - 1);
    } else {
      TilesOrdered(items[1..], SpanEnd(items[0]), to, i - 1, j - 1);
    }
  }

  lemma {:induction false} TilesBounds(items: seq<InlineItem>, from: nat, to: nat, k: nat)
    requires Tiles(items, from, to) && k < |items|
    ensures from <= SpanStart(items[k]) < SpanEnd(items[k]) <= to
    decreases |items|
  {
    if k > 0 {
      TilesBounds(items[1..], SpanEnd(items[0]), to, k - 1);
    } else if |items| > 1 {
      TilesBounds(items[1..], SpanEnd(items[0]), to, 0);
    } else {
      assert Tiles(items[1..], SpanEnd(items[0]), to);
    }
  }
}
