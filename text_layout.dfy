/**
 * The height rule both lyric item classes use: the original text, then the
 * translation and the romanisation when each is present and shown, each
 * after a 2-pixel gap, inside 6 pixels of padding above and below. Text
 * measurements (`CalcHeight`, `CalcSize`) come from the editor's text engine
 * and are inputs here.
 */
module TextLayout {
  import opened Wrappers
  import opened LyricModels

  const LineSpacing: real := 2.0
  const PaddingVertical: real := 6.0
  const PaddingHorizontal: real := 6.0

  /** The three measured text heights at the current content width. */
  datatype Measured = Measured(original: real, translation: real, romaji: real)

  predicate NonNegative(m: Measured) {
    m.original >= 0.0 && m.translation >= 0.0 && m.romaji >= 0.0
  }

  /** Whether the translation row is drawn: the line has a non-empty translation and translations are shown. */
  function HasTranslation(line: LyricLine, showTranslation: bool): bool {
    !IsNullOrEmpty(line.translatedLyric) && showTranslation
  }

  function HasRomaji(line: LyricLine, showRomaji: bool): bool {
    !IsNullOrEmpty(line.romanLyric) && showRomaji
  }

  /** `_cachedHeight` of a text line. */
  function ComposedHeight(m: Measured, hasTranslation: bool, hasRomaji: bool): real {
    m.original
    + (if hasTranslation then m.translation + LineSpacing else 0.0)
    + (if hasRomaji then m.romaji + LineSpacing else 0.0)
    + PaddingVertical * 2.0
  }

  /** A text row as `Draw` places it: its top and its height. */
  datatype Row = Row(y: real, height: real)

  /**
   * The rows `Draw` stacks from the top `y` of its rectangle: the original
   * below the top padding, then each shown extra row after a gap.
   */
  function Rows(top: real, m: Measured, hasTranslation: bool, hasRomaji: bool): seq<Row> {
    var first := Row(top + PaddingVertical, m.original);
    var afterFirst := top + PaddingVertical + m.original;
    var second := if hasTranslation then [Row(afterFirst + LineSpacing, m.translation)] else [];
    var afterSecond := afterFirst + (if hasTranslation then LineSpacing + m.translation else 0.0);
    var third := if hasRomaji then [Row(afterSecond + LineSpacing, m.romaji)] else [];
    [first] + second + third
  }

  /**
   * The height `UpdateHeight` caches is exactly the room `Draw` uses: the
   * rows follow one another with a 2-pixel gap, and the last one ends one
   * bottom padding above `top + height`.
   */
  lemma HeightFitsRows(top: real, m: Measured, hasTranslation: bool, hasRomaji: bool)
    ensures var rows := Rows(top, m, hasTranslation, hasRomaji);
      var last := rows[|rows| - 1];
      |rows| == 1 + (if hasTranslation then 1 else 0) + (if hasRomaji then 1 else 0)
      && rows[0].y == top + PaddingVertical
      && (forall i :: 0 <= i < |rows| - 1 ==> rows[i + 1].y == rows[i].y + rows[i].height + LineSpacing)
      && last.y + last.height + PaddingVertical == top + ComposedHeight(m, hasTranslation, hasRomaji)
  {
  }

  /** With non-negative measurements, showing an extra row never makes a line shorter. */
  lemma ShowingMoreNeverShrinks(m: Measured, t1: bool, r1: bool, t2: bool, r2: bool)
    requires NonNegative(m)
    requires (t1 ==> t2) && (r1 ==> r2)
    ensures PaddingVertical * 2.0 + m.original <= ComposedHeight(m, t1, r1) <= ComposedHeight(m, t2, r2)
  {
  }
}
