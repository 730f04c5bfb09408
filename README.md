# Inline line layout, modelled in Dafny

This project models the core of WebKit's inline line layout: the part of the layout
formatting context that turns a paragraph's text and inline boxes into lines of
positioned runs. It covers five pieces.

- **Text segmenter** (`InlineTextItem::createAndAppendTextItems`). Module `TextSegmenter`,
  file `text_segmenter.dfy`. It cuts a box's text into whitespace items, non-whitespace
  items that end at soft wrap opportunities, and soft line breaks on preserved newlines.
- **Line breaker** (`LineBreaker`). Module `LineBreaker`, file `line_breaker.dfy`. It
  decides whether a run of continuous candidate content is kept on the line, pushed to the
  next line or split, and where a text run is split, with or without a hyphen. It also
  models the candidate-content container `LineBreaker::Content`.
- **Line builder** (`LineBuilder`). Modules `InlineLineRuns` (`line_runs.dfy`) and
  `InlineLineBuilder` (`line_builder.dfy`). Items are appended to the line. Trailing
  whitespace and letter-spacing are tracked and trimmed. On close, runs are merged into
  continuous text, the line height and baseline are grown run by run (including
  half-leading), and runs are aligned vertically and then horizontally (start, end,
  center, justify).
- **Run cursor** (`LineLayoutTraversal::DisplayRunPath`). Module `LineLayoutTraversal`,
  file `display_run_path.dfy`. It is a bounded index cursor over the display runs of one
  box.
- **Integration layer** (`LayoutIntegration::LineLayout`). Module `LayoutIntegration`,
  file `line_layout.dfy`. It decides whether a block may use this layout, records the
  content height, answers line-count and baseline queries, and finds the runs a renderer
  generated.

Shared modules:

- `Wrappers`: `Option`.
- `LayoutStyle`: computed style, box geometry and layout boxes. Boxes are values with an
  integer identity.
- `InlineItems`: the inline items.
- `Measuring`: the text-measuring oracles.

### How the model is built

- Layout units are `real`, so widths and justification are computed exactly. Font
  metrics and line heights are `int`, so the half-leading `floorf`/`ceilf` steps are exact
  integer halvings.
- Text measurement, splitting, hyphenation and the line-break iterator belong to other
  components. They are fields of `Measuring.TextMeasurer`. The predicates `ValidSplit`,
  `ValidHyphenation` and `ValidBreakIterator` state the little that the layout code relies
  on. For the iterator: its answer is never before the position asked about nor past the
  text, and never past a newline, which is a breakable space.
- Code that changes state step by step stays imperative:
  - `LineBuilder`, `LineBreaker::Content`, `ContinousContent`, `DisplayRunPath` and
    `LineLayout` are classes whose methods update their fields.
  - Every loop of the source is a method with a `while` loop, proved equal to a
    specification function. The specification function's own properties are proved as
    lemmas.
- `LineBuilder::InlineItemRun` and `LineBuilder::Run` are datatypes: they are vector
  elements, updated by whole-value replacement.

### Source behaviour modelled as written

- `LineBreaker::Content::trim` (`Source/WebCore/layout/inlineformatting/InlineLineBreaker.cpp:307-312`)
  subtracts the widths of all runs before shrinking, not only of the removed ones. The
  model does the same: `Content.Trim` states the resulting width.
- Hyphenation limits are 16-bit style values read into an `unsigned`. A negative limit
  other than `auto` wraps around, and `HyphenationLimit` models that explicitly.
- Box text is a sequence of UTF-16 code units (`LayoutStyle.Text`), as `String` is
  indexed. `isWhitespaceCharacter` takes a `char`, so each code unit is narrowed to its low
  byte before it is classified. `IsWhitespaceCharacter` does the same, and U+2020 (†)
  therefore counts as a space (`DaggerIsWhitespaceItem`).
- Expansion behaviours are the flag values of `ExpansionBehaviorFlags` (TextFlags.h): a
  2-bit trailing policy in the low bits and a 2-bit leading policy above it, where forbid
  is 0 and allow is 1. `DefaultExpansion` allows trailing and forbids leading expansion.
  `ExpansionBehavior` is this 4-bit value, and `|` is the bitwise OR.
- Everywhere else the model follows the code, except at the five sites listed under
  "## Findings". There the main path (`LineBuilder.AppendInlineContainerEnd`,
  `LineBuilder.TrimTrailingRun` through `TrailingTextRunIndex`, `RunLogicalTop`,
  `TryBreakingTextRun` and `ForbidTrailingExpansionOf`) models the evidently intended
  behaviour. The code as written is
  kept beside it in the `*AsWritten` members, each with a lemma on a concrete input.

## Model

| member | source | states |
|---|---|---|
| InlineItems.CreateEmptyItem | Source/WebCore/layout/inlineformatting/InlineTextItem.cpp:141-144 | the empty item is a text item of the given box, starting at 0, of length 0, with no type and no cached width |
| InlineItems.Left | Source/WebCore/layout/inlineformatting/InlineTextItem.cpp:160-165 | the left part keeps box, type and start, ends `length` later within the original, and drops the cached width |
| InlineItems.Right | Source/WebCore/layout/inlineformatting/InlineTextItem.cpp:167-172 | the right part keeps box and type, has the given length, ends where the original ends, and drops the cached width |
| TextSegmenter.IsWhitespaceCharacter | Source/WebCore/layout/inlineformatting/InlineTextItem.cpp:38-41 | on code units below 256, exactly space, tab, and a newline that is not preserved; on any code unit, whitespace only when its low byte is one of these |
| TextSegmenter.WhitespaceRunLength | Source/WebCore/layout/inlineformatting/InlineTextItem.cpp:38-49 | the result is the length of the maximal run of code units classified as whitespace (after narrowing to the low byte) starting at the position: every unit in it is whitespace; the next one is not, or the text ends |
| TextSegmenter.DaggerIsWhitespaceItem | Source/WebCore/layout/inlineformatting/InlineTextItem.cpp:38-41 | in "a†b" the narrowing makes the dagger U+2020 a one-unit whitespace item |
| TextSegmenter.MoveToNextNonWhitespacePosition | Source/WebCore/layout/inlineformatting/InlineTextItem.cpp:43-49 | the scanning loop returns exactly that maximal whitespace length, with the same narrowed classification |
| TextSegmenter.BreakIteratorFor | Source/WebCore/layout/inlineformatting/InlineTextItem.cpp:53-72 | a keep-all entry point is chosen exactly when word-break is keep-all; an NBSP-breaking entry point exactly when the text wraps and nbsp-mode is space |
| TextSegmenter.BreakableLength | Source/WebCore/layout/inlineformatting/InlineTextItem.cpp:74-83 | the distance to the next breakable position is positive and stays within the text |
| TextSegmenter.BreakableLengthProbes | Source/WebCore/layout/inlineformatting/InlineTextItem.cpp:74-83 | with a well-behaved iterator the answer is the first probe when it moves, otherwise the second probe, or the rest of the text at the last character |
| TextSegmenter.MoveToNextBreakablePosition | Source/WebCore/layout/inlineformatting/InlineTextItem.cpp:51-84 | the probing loop returns exactly that breakable length |
| TextSegmenter.InlineItemWidth | Source/WebCore/layout/inlineformatting/InlineTextItem.cpp:98-102 | a width is cached exactly when simplified measuring is allowed, and it is then the measured width of the item's slice |
| TextSegmenter.WhitespaceItemWidth | Source/WebCore/layout/inlineformatting/InlineTextItem.cpp:118-119 | a width is cached exactly when simplified measuring is allowed; a single or collapsible whitespace run measures as the space width, and any other run as the measured width of its slice |
| TextSegmenter.NextTextItem | Source/WebCore/layout/inlineformatting/InlineTextItem.cpp:104-128 | each step emits a non-empty item that starts at the current position and stays within the text (its kind is pinned by `TextItemsFromTile` and `DaggerIsWhitespaceItem`) |
| TextSegmenter.CreateAndAppendTextItems | Source/WebCore/layout/inlineformatting/InlineTextItem.cpp:86-129 | the item list grows by exactly the box's text items, in order |
| TextSegmenter.TextItemsFromTile | Source/WebCore/layout/inlineformatting/InlineTextItem.cpp:104-128 | from any position, the emitted items tile the rest of the text without gaps or overlaps, and each is well formed (soft break on a preserved newline, maximal whitespace run, or non-whitespace start) |
| TextSegmenter.TextItemsTile | Source/WebCore/layout/inlineformatting/InlineTextItem.cpp:86-129 | the items of a non-empty text tile all of it and each is well formed |
| TextSegmenter.TextItemsEmptyItemIffEmptyText | Source/WebCore/layout/inlineformatting/InlineTextItem.cpp:90-91 | an empty item appears exactly when the text is empty, and then it is the only item |
| TextSegmenter.TilesOrdered | Source/WebCore/layout/inlineformatting/InlineTextItem.cpp:104-128 | tiled items are in strictly increasing text order |
| TextSegmenter.BreakableLengthStopsAtNewline | Source/WebCore/layout/inlineformatting/InlineTextItem.cpp:74-83 | a non-whitespace item starting on a non-newline never reaches a newline |
| TextSegmenter.PreservedNewlineIsSoftBreak | Source/WebCore/layout/inlineformatting/InlineTextItem.cpp:104-128 | every preserved newline from a position on is emitted as a soft line break of its own |
| TextSegmenter.SoftBreaksAreThePreservedNewlines | Source/WebCore/layout/inlineformatting/InlineTextItem.cpp:104-128 | the items hold a soft line break at a position exactly when the box preserves newlines and the text has a newline there |
| LineBreaker.FirstContentIndex | Source/WebCore/layout/inlineformatting/InlineLineBreaker.cpp:314-337 | the first run that is not a container marker; every run before it is a marker |
| LineBreaker.LastContentIndex | Source/WebCore/layout/inlineformatting/InlineLineBreaker.cpp:208-221 | the last run before `k` that is not a container marker; every run after it is a marker |
| LineBreaker.HasNonContentRunsOnlyMeaning | Source/WebCore/layout/inlineformatting/InlineLineBreaker.cpp:327-337 | the candidate has non-content runs only exactly when every run is a container marker |
| LineBreaker.HasTextContentOnlyMeaning | Source/WebCore/layout/inlineformatting/InlineLineBreaker.cpp:314-325 | the candidate is text-only exactly when some text run is preceded by container markers only |
| LineBreaker.HyphenationLimit | Source/WebCore/layout/inlineformatting/InlineLineBreaker.cpp:156-157 | `auto` means 0, non-negative limits are kept, and other negative limits wrap to 32-bit unsigned |
| LineBreaker.Substring | Source/WebCore/layout/inlineformatting/InlineLineBreaker.cpp:178 | the substring is clamped to the text |
| LineBreaker.IsContentWrappingAllowed | Source/WebCore/layout/inlineformatting/InlineLineBreaker.cpp:40-50 | a run may be wrapped exactly when it is text whose style wraps automatically (neither `pre` nor `nowrap`) |
| LineBreaker.IsTrailingWhitespaceWithPreWrap | Source/WebCore/layout/inlineformatting/InlineLineBreaker.cpp:52-57 | only whitespace qualifies, and whitespace qualifies exactly under `pre-wrap`, which wraps and preserves trailing whitespace |
| LineBreaker.HyphenationLocation | Source/WebCore/layout/inlineformatting/InlineLineBreaker.cpp:152-180 | a hyphen position exists only with auto hyphens, hyphenation enabled, a hyphenating locale and room beyond the hyphen width; it is positive, honours both limits and lies within the fitting prefix; runs too short for the limits get none; and the location is exactly the oracle's last hyphen location (searched before the end of the fitting prefix, at most `limitAfter` units before the run's end) whenever every gate passes and that answer is non-zero and honours the limit-before, and none otherwise |
| LineBreaker.TryBreakingTextRun | Source/WebCore/layout/inlineformatting/InlineLineBreaker.cpp:136-182 | keep-all never splits; break-all always splits without a hyphen; any other split is hyphenated and honours the limit-before; the left side is a prefix of the run measured from the run's start; break-all keeps exactly the fitting prefix; otherwise a split exists exactly when a hyphenation location exists, and it is at that location |
| LineBreaker.TryBreakingTextRunAsWritten | Source/WebCore/layout/inlineformatting/InlineLineBreaker.cpp:181 | as written, the hyphenated left side is measured from the run's start to a run-relative end offset |
| LineBreaker.HyphenatedWidthAsWrittenCounterexample | Source/WebCore/layout/inlineformatting/InlineLineBreaker.cpp:181 | for a run at offset 2 hyphenated after 3 characters, the as-written width is 1 and the corrected width is 3 |
| LineBreaker.OverflowIndex | Source/WebCore/layout/inlineformatting/InlineLineBreaker.cpp:105-122 | the first wrappable run whose end passes the available width; no earlier run is both overflowing and wrappable |
| LineBreaker.LastWrappableBefore | Source/WebCore/layout/inlineformatting/InlineLineBreaker.cpp:125-133 | the last wrappable run before the index, taken whole without a hyphen; none exactly when no earlier run is wrappable |
| LineBreaker.WordBreakingNamesWrappableRun | Source/WebCore/layout/inlineformatting/InlineLineBreaker.cpp:101-134 | a split always names a wrappable run; content without wrappable runs is never split; no split means no wrappable run before the overflow |
| LineBreaker.WordBreakingLeftSideIsMeasuredPrefix | Source/WebCore/layout/inlineformatting/InlineLineBreaker.cpp:101-134 | a split's left side is a prefix of a text run, and a partial or hyphenated left side has the measured width of that prefix |
| LineBreaker.WordBreakingBehavior | Source/WebCore/layout/inlineformatting/InlineLineBreaker.cpp:101-134 | the two scanning loops compute exactly the specified split |
| LineBreaker.FindOverflowingRun | Source/WebCore/layout/inlineformatting/InlineLineBreaker.cpp:105-122 | the forward loop stops at the overflow index with the width of the runs before it |
| LineBreaker.FindLastWrappableRun | Source/WebCore/layout/inlineformatting/InlineLineBreaker.cpp:125-133 | the backward loop finds the last wrappable run before the index |
| LineBreaker.BreakingContextForInlineContent | Source/WebCore/layout/inlineformatting/InlineLineBreaker.cpp:59-94 | content that fits (`FitsOnLine`: it fits, it fits after trimming, it is fully trimmable after a trimmable line end, or it is markers that fit after trimming the line) is kept; otherwise text-only content is split exactly where word breaking finds a split point; text that cannot be split is pushed exactly when the line is non-empty, its first run may wrap and it does not end in pre-wrap whitespace, and is kept otherwise; other content is pushed exactly when the line is non-empty; a split point is given exactly for Split |
| LineBreaker.PushOnlyFromNonEmptyLine | Source/WebCore/layout/inlineformatting/InlineLineBreaker.cpp:59-94 | content is pushed only off a non-empty line that it overflows; a split names a text run of the candidate |
| LineBreaker.ShouldWrapFloatBox | Source/WebCore/layout/inlineformatting/InlineLineBreaker.cpp:96-99 | a float wraps exactly when the line is non-empty and the float is wider than the available width |
| LineBreaker.IsAtContentBoundary | Source/WebCore/layout/inlineformatting/InlineLineBreaker.cpp:184-273 | empty content is never at a boundary; incoming whitespace always is; content right after a container start never is |
| LineBreaker.TextAfterTextBoundary | Source/WebCore/layout/inlineformatting/InlineLineBreaker.cpp:198-236 | non-whitespace text after text (looking through container ends) commits exactly when the earlier text is whitespace or belongs to the same box |
| LineBreaker.IsAtContentBoundaryScan | Source/WebCore/layout/inlineformatting/InlineLineBreaker.cpp:184-273 | the backward scan computes exactly the specified boundary decision |
| LineBreaker.TrailingOfLastContent | Source/WebCore/layout/inlineformatting/InlineLineBreaker.cpp:275-298 | the trailing state is fully trimmable exactly when the last content run is fully trimmable whitespace; it is cleared after a box or a line break; otherwise it is the letter spacing |
| LineBreaker.Content.constructor | Source/WebCore/layout/inlineformatting/InlineLineBreaker.cpp:300-305 | a new candidate is empty and consistent |
| LineBreaker.Content.Append | Source/WebCore/layout/inlineformatting/InlineLineBreaker.cpp:275-298 | in any state, the run is appended, the width grows by its width, and the trailing trimmable state follows the item kind (reset by boxes, line breaks and text without letter spacing; accumulated by fully trimmable whitespace; the letter spacing for other text; kept by container markers); a consistent candidate stays consistent |
| LineBreaker.Content.Reset | Source/WebCore/layout/inlineformatting/InlineLineBreaker.cpp:300-305 | the candidate is emptied, with zero width and no trailing trimmable content |
| LineBreaker.Content.Trim | Source/WebCore/layout/inlineformatting/InlineLineBreaker.cpp:307-312 | the runs are shrunk to the new size and the width loses the total of all the old runs' widths (0 when it was consistent) |
| LineBreaker.Content.HasTextContentOnlyScan | Source/WebCore/layout/inlineformatting/InlineLineBreaker.cpp:314-325 | the loop decides exactly text-only content |
| LineBreaker.Content.HasNonContentRunsOnlyScan | Source/WebCore/layout/inlineformatting/InlineLineBreaker.cpp:327-337 | the loop decides exactly marker-only content |
| InlineLineRuns.InlineItemRun.TrailingLetterSpacing | Source/WebCore/layout/inlineformatting/InlineLineBuilder.cpp:815-820 | positive exactly when the run has trailing letter spacing, 0 otherwise |
| InlineLineRuns.InlineItemRun.CollapseToZeroAdvanceWidth | Source/WebCore/layout/inlineformatting/InlineLineBuilder.cpp:822-826 | the run becomes zero wide and loses its expansion opportunity; nothing else changes |
| InlineLineRuns.InlineItemRun.RemoveTrailingLetterSpacing | Source/WebCore/layout/inlineformatting/InlineLineBuilder.cpp:828-833 | the width loses exactly the trailing letter spacing; nothing else changes |
| InlineLineRuns.InlineItemRun.MoveHorizontally | Source/WebCore/layout/inlineformatting/InlineLineBuilder.h:177 | the left edge moves by exactly the offset and nothing else changes |
| InlineLineRuns.Run.MoveHorizontally | Source/WebCore/layout/inlineformatting/InlineLineBuilder.h:97 | the rectangle's left edge moves by the offset; its width and top, and the rest of the run, are kept |
| InlineLineRuns.RunOf | Source/WebCore/layout/inlineformatting/InlineLineBuilder.cpp:108-120 | a run of its own keeps the item, rectangle and text slice, and has one expansion opportunity exactly when it is uncollapsed whitespace; that run gets `DefaultExpansion`, which forbids leading and allows trailing expansion, with no expansion yet |
| InlineLineRuns.MergeEnd | Source/WebCore/layout/inlineformatting/InlineLineBuilder.cpp:66-86 | the merged group extends as far as each previous run can expand and each next run can merge, and no further |
| InlineLineRuns.ContinousContent.constructor | Source/WebCore/layout/inlineformatting/InlineLineBuilder.cpp:59-64 | the content holds just the initial run |
| InlineLineRuns.ContinousContent.Append | Source/WebCore/layout/inlineformatting/InlineLineBuilder.cpp:66-86 | a run is accepted exactly when the previous run can expand and the run can merge, and the accumulated length, width and opportunities follow |
| InlineLineRuns.ContinousContent.Close | Source/WebCore/layout/inlineformatting/InlineLineBuilder.cpp:88-106 | the closed run is exactly the merged run of the group |
| InlineLineRuns.MergeRuns | Source/WebCore/layout/inlineformatting/InlineLineBuilder.cpp:205-215 | the merging loop of `close` produces exactly the merged run list |
| InlineLineRuns.MergeFrom | Source/WebCore/layout/inlineformatting/InlineLineBuilder.cpp:209-214 | one merge step returns the merged run of the group and the index after it |
| InlineLineRuns.NoExpandedLengthMeansSingleRun | Source/WebCore/layout/inlineformatting/InlineLineBuilder.cpp:90-91 | a group without merged text length is a single run |
| InlineLineRuns.MergedRunSums | Source/WebCore/layout/inlineformatting/InlineLineBuilder.cpp:88-106 | a merged run is as wide and as long as its group, and starts where its first run starts |
| InlineLineRuns.MergedFromSums | Source/WebCore/layout/inlineformatting/InlineLineBuilder.cpp:205-215 | merging keeps the total width and text length, and never adds runs |
| InlineLineRuns.MergedGroupsShareBox | Source/WebCore/layout/inlineformatting/InlineLineBuilder.cpp:66-86 | every run merged into a group is uncollapsed text of the same box, after an expandable run |
| InlineLineRuns.JustifiedRun | Source/WebCore/layout/inlineformatting/InlineLineBuilder.cpp:310-321 | a run moves by the accumulated expansion and widens by its share |
| InlineLineRuns.ForbidTrailingExpansionOf | Source/WebCore/layout/inlineformatting/InlineLineBuilder.cpp:297-299 | corrected: the last run keeps its geometry, opportunities, text slice, leading policy and expansion, and its trailing policy becomes forbid |
| InlineLineRuns.ForbidTrailingExpansionAsWritten | Source/WebCore/layout/inlineformatting/InlineLineBuilder.cpp:297-299 | as written: ORing the zero flag keeps the geometry and opportunities (and, by the counterexample, everything else) |
| InlineLineRuns.ForbidTrailingExpansionAsWrittenCounterexample | Source/WebCore/layout/inlineformatting/InlineLineBuilder.cpp:299 | for a run with `DefaultExpansion`, the as-written adjustment changes nothing and trailing expansion stays allowed; the corrected one forbids it |
| InlineLineRuns.TrailingExpansionForbidden | Source/WebCore/layout/inlineformatting/InlineLineBuilder.cpp:296-299 | only the last run changes, and only its expansion behaviour |
| InlineLineRuns.JustifyRuns | Source/WebCore/layout/inlineformatting/InlineLineBuilder.cpp:292-322 | the justification loops compute exactly the specified justified line |
| InlineLineRuns.JustifyWithExpansion | Source/WebCore/layout/inlineformatting/InlineLineBuilder.cpp:309-321 | the distribution loop computes exactly the specified expansion |
| InlineLineRuns.TotalExpansionIsShare | Source/WebCore/layout/inlineformatting/InlineLineBuilder.cpp:308-321 | the expansions add up to the share times the number of opportunities |
| InlineLineRuns.JustifiedFromKeepsContiguity | Source/WebCore/layout/inlineformatting/InlineLineBuilder.cpp:310-321 | runs that touched before justification still touch after it |
| InlineLineRuns.JustifiedFromLastRight | Source/WebCore/layout/inlineformatting/InlineLineBuilder.cpp:310-321 | the last run's right edge moves by the total expansion |
| InlineLineRuns.JustifiedFillsLine | Source/WebCore/layout/inlineformatting/InlineLineBuilder.cpp:292-322 | justified contiguous runs stay contiguous and end exactly the available width further right, so they fill the line |
| InlineLineRuns.ExpansionShare | Source/WebCore/layout/inlineformatting/InlineLineBuilder.cpp:308 | the shares of all opportunities add up to the available width |
| InlineLineRuns.JustifiedWithoutOpportunities | Source/WebCore/layout/inlineformatting/InlineLineBuilder.cpp:304-306 | without opportunities no run moves or widens |
| InlineLineRuns.AlignmentOffset | Source/WebCore/layout/inlineformatting/InlineLineBuilder.cpp:337-356 | left, start and justify give no offset; right and end give the available width; center gives half of it |
| InlineLineRuns.MoveRuns | Source/WebCore/layout/inlineformatting/InlineLineBuilder.cpp:362-363 | every run moves by the offset |
| InlineLineRuns.AlignedHorizontally | Source/WebCore/layout/inlineformatting/InlineLineBuilder.cpp:324-364 | empty lines, full lines, start alignment and the last justified line are left alone; otherwise every run moves by the alignment offset |
| InlineLineRuns.AlignContentHorizontally | Source/WebCore/layout/inlineformatting/InlineLineBuilder.cpp:324-364 | the method computes exactly the specified horizontal alignment |
| InlineLineRuns.HalfLeadingMetrics | Source/WebCore/layout/inlineformatting/InlineLineBuilder.cpp:680-690 | ascent and descent are never negative; each is the font's ascent or descent plus half the leading, rounded down for the ascent and up for the descent |
| InlineLineRuns.HalfLeadingFillsLineHeight | Source/WebCore/layout/inlineformatting/InlineLineBuilder.cpp:680-690 | when neither half is clamped, ascent plus descent is exactly the line height |
| InlineLineRuns.AdjustedLineMetrics | Source/WebCore/layout/inlineformatting/InlineLineBuilder.cpp:540-625 | the line only grows (height, ascent, descent, baseline offset); its position, width and emptiness are kept; the strut is spent once, by the first text or line break, and the line then covers it; a baseline-aligned container start raises the ascent and descent to its positive half-leading parts and the height to ascent plus descent, any other container start raises the height to its font height, and a container end changes nothing; a baseline-aligned inline-block raises ascent, descent and baseline offset to its last line's and the height to its margin box; another baseline-aligned box raises the ascent to its margin box and the height to that plus the descent; a line whose baseline lies at least its ascent below its top keeps that, so the strut, a positive half-leading ascent, an inline-block's ascent and a baseline-aligned box's margin box all push the baseline offset down to at least their height; top-aligned boxes never move the baseline; a bottom-aligned box taller than the line moves it down by the difference |
| InlineLineRuns.RunContentHeight | Source/WebCore/layout/inlineformatting/InlineLineBuilder.cpp:627-644 | text, line breaks and containers are as tall as the font; replaced and floating boxes as their content box; other boxes as their margin box |
| InlineLineRuns.AlignedVertically | Source/WebCore/layout/inlineformatting/InlineLineBuilder.cpp:237-290 | a run is placed at its line-relative top and moved into formatting-root coordinates; its size is kept |
| InlineLineRuns.VerticalAlignmentEdges | Source/WebCore/layout/inlineformatting/InlineLineBuilder.cpp:272-280 | top-aligned runs sit on the line's top and bottom-aligned runs end on its bottom |
| InlineLineRuns.BottomAlignmentAsWrittenCounterexample | Source/WebCore/layout/inlineformatting/InlineLineBuilder.cpp:279 | on a line at top 20 and 20 tall, a 10-tall bottom-aligned run lands at 50 as written and at 30 when corrected |
| InlineLineRuns.AlignContentVertically | Source/WebCore/layout/inlineformatting/InlineLineBuilder.cpp:237-290 | the loop places every run as specified |
| InlineLineBuilder.TrimmableWidth | Source/WebCore/layout/inlineformatting/InlineLineBuilder.cpp:707-725 | what a run adds to the trimmable width is never negative, and is the whitespace width for trimmable whitespace |
| InlineLineBuilder.TrimmableContent.Append | Source/WebCore/layout/inlineformatting/InlineLineBuilder.cpp:707-725 | the window's first run is set once; the width grows by the run's trimmable width; the trailing run is fully trimmable exactly when it is trimmable whitespace |
| InlineLineBuilder.TrimmableContent.IsTrailingRunPartiallyTrimmable | Source/WebCore/layout/inlineformatting/InlineLineBuilder.h:216 | a window is open and its last run is not fully trimmable |
| InlineLineBuilder.PartiallyTrimmableMeaning | Source/WebCore/layout/inlineformatting/InlineLineBuilder.h:214-216 | in a window that agrees with the runs, the trailing run is partially trimmable exactly when letter-spaced text opened the window and no text follows it |
| InlineLineBuilder.NoTrimmableContentIsReset | Source/WebCore/layout/inlineformatting/InlineLineBuilder.h:237-242 | the reset window is empty, zero wide, neither fully nor partially trimmable, and agrees with any runs |
| InlineLineBuilder.TextAppendKeepsWindow | Source/WebCore/layout/inlineformatting/InlineLineBuilder.cpp:496-510 | appending text keeps the trailing window consistent with the runs (start, width and fully-trimmable flag) |
| InlineLineBuilder.TextOpensWindow | Source/WebCore/layout/inlineformatting/InlineLineBuilder.cpp:496-510 | trimmable text opens a window consistent with the runs |
| InlineLineBuilder.WhitespaceExtendsWindow | Source/WebCore/layout/inlineformatting/InlineLineBuilder.cpp:496-510 | trimmable whitespace extends an open window consistently |
| InlineLineBuilder.MarkerAppendKeepsWindow | Source/WebCore/layout/inlineformatting/InlineLineBuilder.cpp:428-452 | container markers and line breaks leave a consistent window consistent |
| InlineLineBuilder.TrimmedRun | Source/WebCore/layout/inlineformatting/InlineLineBuilder.cpp:727-762 | a trimmed run moves left by what was trimmed before it; whitespace collapses to zero width; other text loses its letter spacing |
| InlineLineBuilder.TrimmedRuns | Source/WebCore/layout/inlineformatting/InlineLineBuilder.cpp:727-762 | runs before the window are unchanged; each run in it is trimmed and moved left by the width trimmed before it |
| InlineLineBuilder.TrimmedWidthIsTracked | Source/WebCore/layout/inlineformatting/InlineLineBuilder.cpp:727-762 | trimming takes off exactly the tracked trailing width when no whitespace in the window is negatively wide |
| InlineLineBuilder.TrimmedRunsStayHidden | Source/WebCore/layout/inlineformatting/InlineLineBuilder.cpp:384-386 | trimming never makes a visually empty line visible |
| InlineLineBuilder.TrailingTextRunIndexIsLastText | Source/WebCore/layout/inlineformatting/InlineLineBuilder.cpp:764-793 | the corrected backward search finds the last text run at or after the window's start |
| InlineLineBuilder.PartiallyTrimmableRunIsFirst | Source/WebCore/layout/inlineformatting/InlineLineBuilder.cpp:764-793 | for a partially trimmable window the corrected search finds the window's first run |
| InlineLineBuilder.PartiallyTrimmableHasNoTextAfter | Source/WebCore/layout/inlineformatting/InlineLineBuilder.cpp:764-793 | a partially trimmable window has no text after its first run |
| InlineLineBuilder.TrailingRunAsWrittenCounterexample | Source/WebCore/layout/inlineformatting/InlineLineBuilder.cpp:768 | for a letter-spaced text run followed by a container start, the as-written loop finds nothing and the corrected one finds the text run |
| InlineLineBuilder.ContainerEndAsWrittenCounterexample | Source/WebCore/layout/inlineformatting/InlineLineBuilder.cpp:451 | on a line 10 in with 5 of content, the end marker lands at 25 as written and at 15 (the content's end) when corrected |
| InlineLineBuilder.CollapsibleAfterCollapsible | Source/WebCore/layout/inlineformatting/InlineLineBuilder.cpp:463-481 | collapsible whitespace after collapsible whitespace (across markers) collapses completely |
| InlineLineBuilder.BoxStopsCollapsing | Source/WebCore/layout/inlineformatting/InlineLineBuilder.cpp:463-481 | whitespace after an atomic box does not collapse completely |
| InlineLineBuilder.LeadingWhitespaceCollapses | Source/WebCore/layout/inlineformatting/InlineLineBuilder.cpp:463-481 | collapsible whitespace at the start of a line collapses completely |
| InlineLineBuilder.TextRun | Source/WebCore/layout/inlineformatting/InlineLineBuilder.cpp:454-495 | a text run collapses to zero width exactly when it collapses completely; collapsed whitespace keeps one character; otherwise the run keeps the item's length |
| InlineLineBuilder.IsVisuallyNonEmpty | Source/WebCore/layout/inlineformatting/InlineLineBuilder.cpp:646-678 | line breaks are always visible; a zero-width run is visible only as uncollapsed text, a line break or a box without its own formatting context; a container start or end without border and padding on its side is never visible |
| InlineLineBuilder.NoVisuallyNonEmptyRunSnoc | Source/WebCore/layout/inlineformatting/InlineLineBuilder.cpp:646-678 | a line with one more run is visually empty exactly when it was before and the new run is not visible |
| InlineLineBuilder.MetricsOfGrows | Source/WebCore/layout/inlineformatting/InlineLineBuilder.cpp:217-221 | over the whole run list the line only grows and keeps its position and emptiness |
| InlineLineBuilder.MetricsOfSpendsStrut | Source/WebCore/layout/inlineformatting/InlineLineBuilder.cpp:217-221 | a line with any text or line break spends its strut and covers it |
| InlineLineBuilder.EdgeAlignedBoxFitsLine | Source/WebCore/layout/inlineformatting/InlineLineBuilder.cpp:605-616 | once every run has stretched the line, it is at least as tall as any top- or bottom-aligned box's content height that lies within its margin box |
| InlineLineBuilder.EmptyLineCollapsed | Source/WebCore/layout/inlineformatting/InlineLineBuilder.cpp:222-225 | a visually empty line gets zero height and baseline; a non-empty line is unchanged |
| InlineLineBuilder.DescentCollapsed | Source/WebCore/layout/inlineformatting/InlineLineBuilder.cpp:227-230 | the descent is removed from the line's height and set to 0 |
| InlineLineBuilder.ClosedLineWithoutAlignment | Source/WebCore/layout/inlineformatting/InlineLineBuilder.cpp:199-235 | when alignment is skipped, closing only merges: the line box is unchanged and the runs keep their total width and text length |
| InlineLineBuilder.ClosedLineBox | Source/WebCore/layout/inlineformatting/InlineLineBuilder.cpp:199-235 | a closed line keeps its position, width and emptiness; an empty line has zero height; a collapsed descent is 0; otherwise the line never gets shorter |
| InlineLineBuilder.AlignedLineRunHeights | Source/WebCore/layout/inlineformatting/InlineLineBuilder.cpp:217-232 | every run gets its content height; top- and bottom-aligned runs sit on the closed line's top and bottom |
| InlineLineBuilder.MetricsOfKeepsBaselineClear | Source/WebCore/layout/inlineformatting/InlineLineBuilder.cpp:217-221 | over the whole run list, a baseline that lies at least the ascent below the line's top keeps doing so |
| InlineLineBuilder.BaselineBoxBelowLineTop | Source/WebCore/layout/inlineformatting/InlineLineBuilder.cpp:597-602 | once every run has stretched the line, a box sitting on the baseline (content height within its margin box) has the baseline at least its height below the line's top, so its top is not above the line |
| InlineLineBuilder.BaselineBoxInsideClosedLine | Source/WebCore/layout/inlineformatting/InlineLineBuilder.cpp:199-290 | on a visible line without the descent quirk, a box sitting on the baseline (content height within its margin box) starts at or below the closed line's top and ends on its baseline |
| InlineLineBuilder.EdgeAlignedBoxInsideClosedLine | Source/WebCore/layout/inlineformatting/InlineLineBuilder.cpp:199-290 | on a visible line without the descent quirk, a top- or bottom-aligned box (content height within its margin box) lies between the closed line's top and bottom |
| InlineLineBuilder.AlignedHorizontallyKeepsVertical | Source/WebCore/layout/inlineformatting/InlineLineBuilder.cpp:324-364 | horizontal alignment never moves a run vertically or resizes it |
| InlineLineBuilder.LineBuilder.AvailableWidth | Source/WebCore/layout/inlineformatting/InlineLineBuilder.h:65 | the available and content widths add up to the line's width |
| InlineLineBuilder.LineBuilder.constructor | Source/WebCore/layout/inlineformatting/InlineLineBuilder.cpp:155-161 | a new builder has no runs, no trimmable content and no strut, and keeps its alignment settings |
| InlineLineBuilder.LineBuilder.Initialize | Source/WebCore/layout/inlineformatting/InlineLineBuilder.cpp:167-189 | the line starts empty at the constraint's position, with the given height, baseline and strut, and with the whole width available |
| InlineLineBuilder.LineBuilder.MoveLogicalLeft | Source/WebCore/layout/inlineformatting/InlineLineBuilder.cpp:390-397 | the line's left edge moves right and its right edge stays; the available width shrinks by the delta |
| InlineLineBuilder.LineBuilder.MoveLogicalRight | Source/WebCore/layout/inlineformatting/InlineLineBuilder.cpp:399-403 | the line's right edge moves left; the available width shrinks by the delta |
| InlineLineBuilder.LineBuilder.Append | Source/WebCore/layout/inlineformatting/InlineLineBuilder.cpp:405-426 | one run is appended for the item and, except for a container end (which may trim letter spacing first), the earlier runs are unchanged. The new run starts at the old content width (after the start margin for an inline box), and the content width grows by the run's width and the box's margins; a line break is zero wide. A container end trims a partially trimmable window first and sits at the trimmed content's end. Per kind, text updates the trimmable window as `AfterTextAppended`, markers and line breaks keep it, and boxes close it. Only the line box's width and emptiness change, and the line becomes non-empty exactly when the new run is visible |
| InlineLineBuilder.LineBuilder.AppendNonBreakableSpace | Source/WebCore/layout/inlineformatting/InlineLineBuilder.cpp:428-432 | the run is appended at the given left and the line widens by its width |
| InlineLineBuilder.LineBuilder.AppendInlineContainerStart | Source/WebCore/layout/inlineformatting/InlineLineBuilder.cpp:434-438 | the marker is placed at the content's end and widens the content |
| InlineLineBuilder.LineBuilder.AppendInlineContainerEnd | Source/WebCore/layout/inlineformatting/InlineLineBuilder.cpp:440-452 | trailing letter spacing is trimmed first, then the marker is placed at the content's end (corrected placement) |
| InlineLineBuilder.LineBuilder.AppendTextContent | Source/WebCore/layout/inlineformatting/InlineLineBuilder.cpp:454-511 | the text run is appended at the content's end, the line widens by its width, the trimmable window is updated, and the line's visibility is recorded when a window opens |
| InlineLineBuilder.LineBuilder.WillCollapseCompletely | Source/WebCore/layout/inlineformatting/InlineLineBuilder.cpp:463-481 | the backward loop decides exactly whether the whitespace collapses completely |
| InlineLineBuilder.LineBuilder.AppendNonReplacedInlineBox | Source/WebCore/layout/inlineformatting/InlineLineBuilder.cpp:513-521 | the box is placed after its start margin, the line widens by its margin box, and the trimmable window is reset |
| InlineLineBuilder.LineBuilder.AppendReplacedInlineBox | Source/WebCore/layout/inlineformatting/InlineLineBuilder.cpp:523-528 | the same placement as a non-replaced box |
| InlineLineBuilder.LineBuilder.AppendLineBreak | Source/WebCore/layout/inlineformatting/InlineLineBuilder.cpp:530-538 | a zero-width run is appended at the content's end, with a one-character text context for a soft break |
| InlineLineBuilder.LineBuilder.Trim | Source/WebCore/layout/inlineformatting/InlineLineBuilder.cpp:727-762 | the window's runs are trimmed and the trimmed width is returned; the window is reset |
| InlineLineBuilder.LineBuilder.TrimTrailingRun | Source/WebCore/layout/inlineformatting/InlineLineBuilder.cpp:764-793 | the window's letter-spaced run loses its trailing letter spacing, which is the tracked width and is returned; the window is reset |
| InlineLineBuilder.LineBuilder.RemoveTrailingTrimmableContent | Source/WebCore/layout/inlineformatting/InlineLineBuilder.cpp:366-388 | the trailing window is trimmed and the line narrows by the trimmed width; the line may turn empty but never visible; nothing changes without a window |
| InlineLineBuilder.LineBuilder.HasNoVisuallyNonEmptyRun | Source/WebCore/layout/inlineformatting/InlineLineBuilder.cpp:377-383 | the loop decides exactly whether no run is visible |
| InlineLineBuilder.LineBuilder.Close | Source/WebCore/layout/inlineformatting/InlineLineBuilder.cpp:199-235 | closing trims the trailing content, then returns the merged and aligned runs and the final line box, as specified |
| InlineLineBuilder.CloseRuns | Source/WebCore/layout/inlineformatting/InlineLineBuilder.cpp:205-233 | merging, sizing and aligning compute exactly the specified closed line |
| InlineLineBuilder.AlignLine | Source/WebCore/layout/inlineformatting/InlineLineBuilder.cpp:217-233 | the aligning half of `close` computes exactly the specified line |
| InlineLineBuilder.TrimWindow | Source/WebCore/layout/inlineformatting/InlineLineBuilder.cpp:727-762 | the trimming loop trims each run of the window and returns the total trimmed |
| InlineLineBuilder.SizeRuns | Source/WebCore/layout/inlineformatting/InlineLineBuilder.cpp:217-221 | the sizing loop folds the line metrics over the runs and gives each run its content height |
| LineLayoutTraversal.RoundHalfAwayFromZero | Source/WebCore/rendering/line/LineLayoutTraversalDisplayRunPath.h:36-39 | the nearest integer, with halfway cases rounded away from zero |
| LineLayoutTraversal.LinePosition | Source/WebCore/rendering/line/LineLayoutTraversalDisplayRunPath.h:36-39 | the left edge is kept; the top is `roundf` of the logical top, a whole number at most half a pixel away |
| LineLayoutTraversal.DisplayRunPath.constructor | Source/WebCore/rendering/line/LineLayoutTraversalDisplayRunPath.h:43-47 | the path starts at the start index, with the given content and end |
| LineLayoutTraversal.DisplayRunPath.AtEnd | Source/WebCore/rendering/line/LineLayoutTraversalDisplayRunPath.h:91 | a path is at its end exactly when no run is left to visit |
| LineLayoutTraversal.DisplayRunPath.IsLast | Source/WebCore/rendering/line/LineLayoutTraversalDisplayRunPath.h:78-81 | the current run is the last exactly when one run is left to visit |
| LineLayoutTraversal.DisplayRunPath.LogicalRect | Source/WebCore/rendering/line/LineLayoutTraversalDisplayRunPath.h:53-59 | the run's rectangle, with the same left and size and the top snapped by at most half a pixel |
| LineLayoutTraversal.DisplayRunPath.LocalEndOffset | Source/WebCore/rendering/line/LineLayoutTraversalDisplayRunPath.h:67-69 | the painted slice ends `length` offsets after it starts |
| LineLayoutTraversal.DisplayRunPath.IsLastOnLine | Source/WebCore/rendering/line/LineLayoutTraversalDisplayRunPath.h:71-77 | the last run of the range is always last on its line; a run that is not last on its line shares its line with the next run |
| LineLayoutTraversal.DisplayRunPath.Equals | Source/WebCore/rendering/line/LineLayoutTraversalDisplayRunPath.h:90 | equal paths stand on the same run |
| LineLayoutTraversal.DisplayRunPath.TraverseNextTextBoxInVisualOrder | Source/WebCore/rendering/line/LineLayoutTraversalDisplayRunPath.h:83-87 | only before the end; the cursor advances by exactly one run |
| LineLayoutTraversal.DisplayRunPath.TraverseNextTextBoxInTextOrder | Source/WebCore/rendering/line/LineLayoutTraversalDisplayRunPath.h:88 | the same step as in visual order |
| LineLayoutTraversal.RunsAreLeftToRightWithoutHyphens | Source/WebCore/rendering/line/LineLayoutTraversalDisplayRunPath.h:61-65 | a path always reports left-to-right, no override and no hyphen |
| LineLayoutTraversal.EqualPathsReadTheSameRun | Source/WebCore/rendering/line/LineLayoutTraversalDisplayRunPath.h:90 | equal paths (same content, same index, whatever their ends) read the same run, rectangle and line-break flag |
| LineLayoutTraversal.LastOnLineEndsTheLine | Source/WebCore/rendering/line/LineLayoutTraversalDisplayRunPath.h:71-77 | over runs in line order, the current run is last on its line exactly when no later run of the range shares its line |
| LayoutIntegration.CanUseFor | Source/WebCore/layout/integration/LayoutIntegrationLineLayout.cpp:58-77 | usable exactly when the feature is on, simple line layout accepts the block, and the block has no floats, no capitalize transform and no fragmented flow |
| LayoutIntegration.StackedContentHeight | Source/WebCore/layout/integration/LayoutIntegrationLineLayout.cpp:91-92 | for stacked lines the content height (last bottom minus first top) is the sum of the line heights |
| LayoutIntegration.FirstOwned | Source/WebCore/layout/integration/LayoutIntegrationLineLayout.cpp:180-188 | the first run at or after a position that the box generated |
| LayoutIntegration.OwnedBlockEnd | Source/WebCore/layout/integration/LayoutIntegrationLineLayout.cpp:180-188 | the end of the block of consecutive runs of the box |
| LayoutIntegration.TextBoxRangeIsFirstMaximalBlock | Source/WebCore/layout/integration/LayoutIntegrationLineLayout.cpp:178-192 | the range is empty exactly when no run belongs to the box; otherwise it is the first maximal block of the box's runs |
| LayoutIntegration.ElementBoxStartsTextBoxRange | Source/WebCore/layout/integration/LayoutIntegrationLineLayout.cpp:195-210 | the element box is the first run of the text box range |
| LayoutIntegration.FindTextBoxRange | Source/WebCore/layout/integration/LayoutIntegrationLineLayout.cpp:178-192 | the search loop finds exactly the text box range |
| LayoutIntegration.FindElementBoxRange | Source/WebCore/layout/integration/LayoutIntegrationLineLayout.cpp:203-209 | the search loop finds exactly the first run of the box |
| LayoutIntegration.LineLayout.constructor | Source/WebCore/layout/integration/LayoutIntegrationLineLayout.cpp:50-54 | before layout there is no content and the content height is 0 |
| LayoutIntegration.LineLayout.Layout | Source/WebCore/layout/integration/LayoutIntegrationLineLayout.cpp:79-93 | after layout the content is the formatting context's, and the content height is the last line's bottom minus the first line's top |
| LayoutIntegration.LineLayout.LineCount | Source/WebCore/layout/integration/LayoutIntegrationLineLayout.cpp:105-109 | 0 without content, otherwise the number of line boxes |
| LayoutIntegration.LineLayout.FirstLineBaseline | Source/WebCore/layout/integration/LayoutIntegrationLineLayout.cpp:111-121 | 0 without content; otherwise the baseline offset below the first line's top |
| LayoutIntegration.LineLayout.LastLineBaseline | Source/WebCore/layout/integration/LayoutIntegrationLineLayout.cpp:123-133 | 0 without content; otherwise the baseline offset below the last line's top |
| LayoutIntegration.LineLayout.TextBoxesFor | Source/WebCore/layout/integration/LayoutIntegrationLineLayout.cpp:170-193 | no path without content or without runs of the box; otherwise a fresh path over the text box range, valid and not at its end |
| LayoutIntegration.LineLayout.ElementBoxFor | Source/WebCore/layout/integration/LayoutIntegrationLineLayout.cpp:195-210 | no path without content or without runs of the box; otherwise a fresh one-run path at the box's first run |
| LayoutIntegration.SingleLineHasOneBaseline | Source/WebCore/layout/integration/LayoutIntegrationLineLayout.cpp:111-133 | with one line, the first and last baselines coincide |
| LayoutIntegration.FirstBaselineWithinContent | Source/WebCore/layout/integration/LayoutIntegrationLineLayout.cpp:111-121 | for stacked lines with the baseline inside the first line, the first baseline lies within the content height |

## Left out

- Measuring, splitting, hyphenation and the line-break iterator (`TextUtil`, `FontCascade`, `lastHyphenLocation`, `LazyLineBreakIterator`) belong to other components. They are oracle fields of `Measuring.TextMeasurer`, constrained only by `ValidSplit`, `ValidHyphenation` and `ValidBreakIterator`.
- `RenderStyle`, `TextUtil`, `Display::LineBox`, `InlineTextItem.h`, `InlineLineBreaker.h` and `TextFlags.h` are not part of this model. Their accessors are given their usual meaning in `LayoutStyle`, `InlineItems` and `InlineLineRuns`. The expansion flags take the values written out under "Source behaviour modelled as written". `Display::LineBox::setAscentIfGreater` is read as WebKit defines it: a greater ascent also raises the baseline offset to at least that ascent (`AscentAtLeast`).
- Floating point: every `float` is an exact `real`, so justification's division is exact. `roundf` is rounding of the exact value.
- LayoutIntegration.LineLayout.FirstLineBaseline: the conversion to the 1/64-pixel fixed-point `LayoutUnit` (`toLayoutUnit`) is not modelled. The same holds for `LastLineBaseline` and the content height.
- LayoutIntegration.LineLayout.Layout: the formatting context's own layout (`layoutWithPreparedRootGeometry`) is a parameter, not modelled. So are the creation of the layout state and `prepareRootGeometryForLayout`.
- Painting and overflow are not modelled: `LineLayout::paint`, `collectOverflow`, `computeVisualOverflow` and `debugTextShadow`.
- `LayoutIntegration.CanUseFor`: `SimpleLineLayout::canUseFor` and the runtime feature flag belong to other components and are inputs.
- LayoutIntegration.LineLayout.TextBoxesFor: the renderer-to-box lookup (`layoutBoxForRenderer`) is a box identity parameter. The returned iterator is represented by its `DisplayRunPath`.
- `DisplayRunPath`'s copy and move operators are not modelled; a path is a single object.
- InlineLineBuilder.LineBuilder.Close: the quirk `lineDescentNeedsCollapsing` belongs to the formatting context's quirks and is a parameter.
- InlineLineBuilder.LineBuilder.TrimTrailingRun: requires a partially trimmable trailing run, which is the condition under which the only caller (`appendInlineContainerEnd`) invokes it.
- InlineLineBuilder.TrimmedWidthIsTracked: holds only when no whitespace in the window has a negative width. `TrimmableContent::append` counts a negative word-spacing as 0, but `trim` subtracts the real width.
- LineBreaker.WordBreakingNamesWrappableRun: proves "no split implies no wrappable run before the overflowing run", not "no split iff no wrappable run". The converse is false: an unbreakable overflowing run with no wrappable run before it gives no split, even when wrappable runs follow it.
- InlineLineBuilder.EdgeAlignedBoxFitsLine: holds only when the box's content height lies within its margin box. A replaced box with negative vertical margins can be taller than the height it stretches the line by.
- InlineLineBuilder.BaselineBoxBelowLineTop and InlineLineBuilder.BaselineBoxInsideClosedLine: hold for lines whose initial baseline offset is at least their ascent, which is every line `initialize` sets up, and only when the box's content height lies within its margin box.
- InlineLineBuilder.EdgeAlignedBoxInsideClosedLine: excludes lines that are visually empty and lines under the descent-collapsing quirk. Both shrink the line after it has been stretched, so the box may stick out.
- Debug assertions (`ASSERT`, `ASSERT_NOT_REACHED`) are preconditions only where the model needs them to be defined. Branches that the source marks as not implemented yield the source's fallback values.
- Inline-block baselines: a box's last-line baseline and its offset are geometry inputs (`BoxGeometry.lastLineBaseline`, `lastLineBaselineOffset`). The nested formatting state they come from is not modelled.

## Findings

| source | as written | input that shows it | evidently intended | confidence | as-written member | corrected member |
|---|---|---|---|---|---|---|
| Source/WebCore/layout/inlineformatting/InlineLineBuilder.cpp:768 | the backward search in `trimTrailingRun` continues only while `*m_firstRunIndex >= index`, so it stops at once unless the window's first run is the last run | a letter-spaced text run followed by an inline container start (`<span style="letter-spacing: 2px">ab<span></span></span>`): the search finds nothing and trims 0 | search down to the window's first run (`index >= *m_firstRunIndex`) and trim the last text run found | medium, not executed | InlineLineBuilder.TrailingRunAsWrittenCounterexample | InlineLineBuilder.PartiallyTrimmableRunIsFirst |
| Source/WebCore/layout/inlineformatting/InlineLineBreaker.cpp:181 | the hyphenated left side is measured with `TextUtil::width(box, start, hyphenLocation)`, and `hyphenLocation` is relative to the run | a run starting at offset 2, hyphenated after 3 characters, in a 1-unit-per-character font: width 1 instead of 3 | measure to `start + hyphenLocation` | high, not executed | LineBreaker.HyphenatedWidthAsWrittenCounterexample | LineBreaker.TryBreakingTextRun |
| Source/WebCore/layout/inlineformatting/InlineLineBuilder.cpp:279 | a bottom-aligned run's line-relative top is computed from the line's absolute `logicalBottom()`, and the line's top is added again later | a line at top 20 and 20 tall with a 10-tall bottom-aligned box: top 50, below the line, instead of 30 | use the line's height: `logicalHeight() - run height` | high, not executed | InlineLineRuns.BottomAlignmentAsWrittenCounterexample | InlineLineRuns.VerticalAlignmentEdges |
| Source/WebCore/layout/inlineformatting/InlineLineBuilder.cpp:451 | the container end marker is placed at the absolute `contentLogicalRight()`, while every other run gets the line-relative `contentLogicalWidth()` | a line starting 10 in with 5 of content: the marker lands at 25 once the line is placed, not at the content's end at 15 | place it at `contentLogicalWidth()` | high, not executed | InlineLineBuilder.ContainerEndAsWrittenCounterexample | InlineLineBuilder.LineBuilder.AppendInlineContainerEnd |
| Source/WebCore/layout/inlineformatting/InlineLineBuilder.cpp:299 | the last run's behaviour is ORed with `ForbidTrailingExpansion`, whose flag value is 0, so the trailing policy stays what it was (allow, for every run the line builder creates) | any justified line ending in uncollapsed whitespace: its last run keeps `DefaultExpansion` and may still expand at its trailing edge | replace the trailing policy: clear `TrailingExpansionMask`, then OR `ForbidTrailingExpansion` | high, not executed | InlineLineRuns.ForbidTrailingExpansionAsWrittenCounterexample | InlineLineRuns.ForbidTrailingExpansionOf |
