/**
 * The lyric item of the runtime window: identity flags fixed at
 * construction, and a height recomputed from measured rows on every call.
 */
module WindowItem {
  import opened Wrappers
  import opened LyricModels
  import opened Slots
  import opened TextLayout

  /** What `Draw` puts on screen: nothing, the placeholder text, or the text rows of a line. */
  datatype Drawn = Nothing | Placeholder | Lines(rows: seq<Row>)

  class LyricLineItem {
    const line: Option<LyricLine>
    const isWaiting: bool
    /** Set once from the line: an item is empty without a line or with an original text of "". */
    const isEmpty: bool := line.None? || line.value.originalLyric == Some("")
    var height: real
    var contentWidth: real
    var originalHeight: real
    var translationHeight: real
    var romajiHeight: real

    constructor (line: Option<LyricLine>, isWaiting: bool)
      ensures this.line == line && this.isWaiting == isWaiting && height == 0.0
    {
      this.line := line;
      this.isWaiting := isWaiting;
      height, contentWidth := 0.0, 0.0;
      originalHeight, translationHeight, romajiHeight := 0.0, 0.0, 0.0;
    }

    function Slot(): Slots.Slot {
      Slots.Slot(line, isWaiting)
    }

    /** The measurements `Draw` lays the rows out with: those of the last height update. */
    function Stored(): Measured
      reads this
    {
      Measured(originalHeight, translationHeight, romajiHeight)
    }

    static method Create(l: LyricLine) returns (item: LyricLineItem)
      ensures fresh(item) && item.Slot() == Slots.Slot(Some(l), false)
      ensures item.isEmpty <==> l.originalLyric == Some("")
    {
      item := new LyricLineItem(Some(l), false);
    }

    static method CreateEmpty() returns (item: LyricLineItem)
      ensures fresh(item) && item.Slot() == Blank && item.isEmpty && !item.isWaiting
    {
      item := new LyricLineItem(None, false);
    }

    /** The placeholder has no line, so it is empty as well as waiting. */
    static method CreateWaiting() returns (item: LyricLineItem)
      ensures fresh(item) && item.Slot() == Waiting && item.isEmpty && item.isWaiting
    {
      item := new LyricLineItem(None, true);
    }

    lemma EmptyMatchesSlot()
      ensures isEmpty == Slot().IsEmpty()
    {
    }

    /**
     * `UpdateHeight(width, showTranslation, showRomaji)`: 0 for an empty
     * item; otherwise the content width is the width less the horizontal
     * padding and the height is composed from the measured rows, with a
     * hidden or absent row measured as 0.
     */
    method UpdateHeight(width: real, showTranslation: bool, showRomaji: bool, m: Measured)
      modifies this
      ensures isEmpty ==> height == 0.0 && Stored() == old(Stored()) && contentWidth == old(contentWidth)
      ensures !isEmpty ==> contentWidth == width - PaddingHorizontal * 2.0
      ensures !isEmpty && isWaiting ==> height == m.original + PaddingVertical * 2.0 && Stored() == old(Stored())
      ensures !isEmpty && !isWaiting ==>
        var hasT := HasTranslation(line.value, showTranslation);
        var hasR := HasRomaji(line.value, showRomaji);
        Stored() == Measured(m.original, if hasT then m.translation else 0.0, if hasR then m.romaji else 0.0)
        && height == ComposedHeight(m, hasT, hasR)
        && height == ComposedHeight(Stored(), hasT, hasR)
    {
      if isEmpty {
        height := 0.0;
        return;
      }
      contentWidth := width - PaddingHorizontal * 2.0;
      if isWaiting {
        // Only reachable for a waiting item with a line, which no factory builds;
        // `m.original` stands for the measured placeholder text.
        height := m.original + PaddingVertical * 2.0;
        return;
      }
      var hasTranslation := HasTranslation(line.value, showTranslation);
      var hasRomaji := HasRomaji(line.value, showRomaji);
      originalHeight := m.original;
      translationHeight := if hasTranslation then m.translation else 0.0;
      romajiHeight := if hasRomaji then m.romaji else 0.0;
      height := originalHeight;
      if hasTranslation {
        height := height + translationHeight + LineSpacing;
      }
      if hasRomaji {
        height := height + romajiHeight + LineSpacing;
      }
      height := height + PaddingVertical * 2.0;
    }

    /**
     * `Draw(rect, isCurrent, ...)`: nothing at all for an empty item, so the
     * placeholder is never drawn and nothing is updated; the current item
     * first recomputes its height; a text line is drawn as stacked rows from
     * the stored measurements. For the current item the rows fill exactly
     * the height it now reports.
     */
    method Draw(top: real, width: real, isCurrent: bool, showTranslation: bool, showRomaji: bool,
                hideWaiting: bool, m: Measured) returns (d: Drawn)
      modifies this
      ensures isEmpty ==> d == Nothing && unchanged(this)
      ensures !isEmpty && !isCurrent ==> unchanged(this)
      ensures !isEmpty && isCurrent ==> contentWidth == width - PaddingHorizontal * 2.0
      ensures !isEmpty && isCurrent && isWaiting ==> height == m.original + PaddingVertical * 2.0 && Stored() == old(Stored())
      ensures !isEmpty && isCurrent && !isWaiting ==>
        var hasT := HasTranslation(line.value, showTranslation);
        var hasR := HasRomaji(line.value, showRomaji);
        Stored() == Measured(m.original, if hasT then m.translation else 0.0, if hasR then m.romaji else 0.0)
        && height == ComposedHeight(m, hasT, hasR)
      ensures !isEmpty && isWaiting ==> d == (if hideWaiting then Nothing else Placeholder)
      ensures !isEmpty && !isWaiting ==>
        d == Lines(Rows(top, Stored(), HasTranslation(line.value, showTranslation), HasRomaji(line.value, showRomaji)))
      ensures !isEmpty && !isWaiting && isCurrent ==>
        var rows := d.rows;
        |rows| >= 1 && rows[0].y == top + PaddingVertical
        && rows[|rows| - 1].y + rows[|rows| - 1].height + PaddingVertical == top + height
    {
      if isEmpty {
        return Nothing;
      }
      if isCurrent {
        UpdateHeight(width, showTranslation, showRomaji, m);
      }
      if isWaiting {
        return if hideWaiting then Nothing else Placeholder;
      }
      var hasT := HasTranslation(line.value, showTranslation);
      var hasR := HasRomaji(line.value, showRomaji);
      HeightFitsRows(top, Stored(), hasT, hasR);
      d := Lines(Rows(top, Stored(), hasT, hasR));
    }
  }
}
