/**
 * Inline items: the atomic pieces of a paragraph's inline content. Text items refer to a
 * [start, start + length) slice of their box's text; a soft line break records the position
 * of the preserved newline it stands for.
 */
module InlineItems {
  import opened Wrappers
  import opened LayoutStyle

  /** An empty text item has no type; segmented text is whitespace or not. */
  datatype TextItemType = Undefined | Whitespace | NonWhitespace

  datatype InlineItem =
    | TextItem(layoutBox: LayoutBox, start: nat, length: nat, width: Option<LayoutUnit>, textItemType: TextItemType)
    | BoxItem(layoutBox: LayoutBox)
    | FloatItem(layoutBox: LayoutBox)
    | ContainerStart(layoutBox: LayoutBox)
    | ContainerEnd(layoutBox: LayoutBox)
    | HardLineBreak(layoutBox: LayoutBox)
    | SoftLineBreak(layoutBox: LayoutBox, position: nat)
  {
    predicate IsText() { TextItem? }
    predicate IsBox() { BoxItem? }
    predicate IsFloat() { FloatItem? }
    predicate IsContainerStart() { ContainerStart? }
    predicate IsContainerEnd() { ContainerEnd? }
    predicate IsLineBreak() { HardLineBreak? || SoftLineBreak? }

    /** True for container start and end markers, which carry no content of their own. */
    predicate IsContainerMarker() { ContainerStart? || ContainerEnd? }

    predicate IsWhitespace() { TextItem? && textItemType == Whitespace }

    /** Whitespace whose style collapses it (`InlineTextItem::isCollapsible`). */
    predicate IsCollapsible() { IsWhitespace() && layoutBox.style.CollapseWhiteSpace() }

    function Style(): Style { layoutBox.style }

    function End(): nat
      requires TextItem?
    {
      start + length
    }
  }

  /** The single item produced for a box without text. */
  function CreateEmptyItem(box: LayoutBox): (r: InlineItem)
    ensures r.TextItem? && r.layoutBox == box && r.start == 0
    ensures r.TextItem? && r.length == 0 && r.textItemType == Undefined && r.width.None?
  {
    TextItem(box, 0, 0, None, Undefined)
  }

  /** A copy of the first `length` characters of a text item; the cached width is dropped. */
  function Left(item: InlineItem, length: nat): (r: InlineItem)
    requires item.TextItem? && length <= item.length
    ensures r.TextItem? && r.layoutBox == item.layoutBox && r.textItemType == item.textItemType
    ensures r.start == item.start && r.End() == item.start + length && r.End() <= item.End()
    ensures r.width.None?
  {
    TextItem(item.layoutBox, item.start, length, None, item.textItemType)
  }

  /** A copy of the last `length` characters of a text item; the cached width is dropped. */
  function Right(item: InlineItem, length: nat): (r: InlineItem)
    requires item.TextItem? && length <= item.length
    ensures r.TextItem? && r.layoutBox == item.layoutBox && r.textItemType == item.textItemType
    ensures r.End() == item.End() && r.length == length && item.start <= r.start
    ensures r.width.None?
  {
    TextItem(item.layoutBox, item.End() - length, length, None, item.textItemType)
  }

  /** The growable vector of a paragraph's inline items (`InlineItems`). */
  class InlineItemList {
    var items: seq<InlineItem>

    constructor ()
      ensures items == []
    {
      items := [];
    }
  }
}
