/**
 * The lyric item of the shared renderer: identity flags fixed at
 * construction, cached sizes, and the word-by-word highlight of a dynamic
 * lyric line.
 */
module RenderingItem {
  import opened Wrappers
  import opened LyricModels
  import opened Slots
  import opened TextLayout

  /** `Mathf.Epsilon`, the smallest positive single-precision value. */
  const FloatEpsilon: real := 0.000000000000000000000000000000000000000000001401298

  /** `Mathf.Approximately`: equal up to a relative tolerance of one in a million. */
  predicate Approximately(a: real, b: real) {
    var d := if b - a >= 0.0 then b - a else a - b;
    var absA := if a >= 0.0 then a else -a;
    var absB := if b >= 0.0 then b else -b;
    var scale := if absA >= absB then absA else absB;
    var tol := if 0.000001 * scale >= FloatEpsilon * 8.0 then 0.000001 * scale else FloatEpsilon * 8.0;
    d < tol
  }

  class LyricLineItem {
    const line: Option<LyricLine>
    const isWaiting: bool
    /** Set once from the line: an item is empty without a line or with an original text of "". */
    const isEmpty: bool := line.None? || line.value.originalLyric == Some("")
    var height: real
    var contentWidth: real
    var originalHeight: real
    var translationHeight: real
    var romajiHeight: real
    var originalTextWidth: real
    var translationWidth: real
    var romajiWidth: real

    constructor (line: Option<LyricLine>, isWaiting: bool)
      ensures this.line == line && this.isWaiting == isWaiting
      ensures height == 0.0 && contentWidth == 0.0
    {
      this.line := line;
      this.isWaiting := isWaiting;
      height, contentWidth := 0.0, 0.0;
      originalHeight, translationHeight, romajiHeight := 0.0, 0.0, 0.0;
      originalTextWidth, translationWidth, romajiWidth := 0.0, 0.0, 0.0;
    }

    /** What the current-line search reads of this item. */
    function Slot(): Slots.Slot {
      Slots.Slot(line, isWaiting)
    }

    /** `Create(line)`: not waiting, and empty exactly when the original text is "". */
    static method Create(l: LyricLine) returns (item: LyricLineItem)
      ensures fresh(item) && item.Slot() == Slots.Slot(Some(l), false)
      ensures item.isEmpty <==> l.originalLyric == Some("")
    {
      item := new LyricLineItem(Some(l), false);
    }

    /** `CreateEmpty()`: a padding item. */
    static method CreateEmpty() returns (item: LyricLineItem)
      ensures fresh(item) && item.Slot() == Blank && item.isEmpty && !item.isWaiting
    {
      item := new LyricLineItem(None, false);
    }

    /** `CreateWaiting()`: the placeholder, which has no line and so is empty as well as waiting. */
    static method CreateWaiting() returns (item: LyricLineItem)
      ensures fresh(item) && item.Slot() == Waiting && item.isEmpty && item.isWaiting
    {
      item := new LyricLineItem(None, true);
    }

    /** The flag the item carries is the emptiness of its slot. */
    lemma EmptyMatchesSlot()
      ensures isEmpty == Slot().IsEmpty()
    {
    }

    /**
     * `UpdateHeight(width)`: an empty item (the placeholder included) gets
     * height 0; an unchanged content width keeps the cached height;
     * otherwise the height is composed from the measured rows.
     */
    method UpdateHeight(width: real, m: Measured, showTranslation: bool, showRomaji: bool)
      modifies this
      ensures isEmpty ==> height == 0.0 && contentWidth == old(contentWidth)
      ensures !isEmpty && Approximately(old(contentWidth), width - PaddingHorizontal * 2.0) ==>
        height == old(height) && contentWidth == old(contentWidth)
      ensures !isEmpty && !Approximately(old(contentWidth), width - PaddingHorizontal * 2.0) ==>
        contentWidth == width - PaddingHorizontal * 2.0
        && height == if isWaiting then m.original + PaddingVertical * 2.0
                     else ComposedHeight(m, HasTranslation(line.value, showTranslation), HasRomaji(line.value, showRomaji))
      ensures originalTextWidth == old(originalTextWidth) && translationWidth == old(translationWidth)
      ensures romajiWidth == old(romajiWidth)
    {
      if isEmpty {
        height := 0.0;
        return;
      }
      if Approximately(contentWidth, width - PaddingHorizontal * 2.0) {
        return;
      }
      contentWidth := width - PaddingHorizontal * 2.0;
      if isWaiting {
        // Only reachable for a waiting item with a line, which no factory builds;
        // `m.original` stands for the measured placeholder text.
        height := m.original + PaddingVertical * 2.0;
        return;
      }
      var hasTranslation := HasTranslation(line.value, showTranslation);
      var hasRomaji := HasRomaji(line.value, showRomaji);
      originalHeight := m.original;
      translationHeight := if hasTranslation then m.translation else 0.0;
      romajiHeight := if hasRomaji then m.romaji else 0.0;
      height := originalHeight;
      if hasTranslation {
        height := height + translationHeight + LineSpacing;
      }
      if hasRomaji {
        height := height + romajiHeight + LineSpacing;
      }
      height := height + PaddingVertical * 2.0;
    }

    /**
     * `CalculateTextWidths`: all three widths are 0 for an empty item;
     * otherwise the original's measured width, and each extra row's
     * measured width when it is present and shown, else 0.
     */
    method CalculateTextWidths(widths: Measured, showTranslation: bool, showRomaji: bool)
      modifies this
      ensures isEmpty ==> originalTextWidth == 0.0 && translationWidth == 0.0 && romajiWidth == 0.0
      ensures !isEmpty && isWaiting ==>
        originalTextWidth == widths.original && translationWidth == 0.0 && romajiWidth == 0.0
      ensures !isEmpty && !isWaiting ==>
        originalTextWidth == widths.original
        && translationWidth == (if HasTranslation(line.value, showTranslation) then widths.translation else 0.0)
        && romajiWidth == (if HasRomaji(line.value, showRomaji) then widths.romaji else 0.0)
      ensures height == old(height) && contentWidth == old(contentWidth)
    {
      if isEmpty {
        originalTextWidth, translationWidth, romajiWidth := 0.0, 0.0, 0.0;
        return;
      }
      if isWaiting {
        originalTextWidth, translationWidth, romajiWidth := widths.original, 0.0, 0.0;
        return;
      }
      originalTextWidth := widths.original;
      translationWidth := if HasTranslation(line.value, showTranslation) then widths.translation else 0.0;
      romajiWidth := if HasRomaji(line.value, showRomaji) then widths.romaji else 0.0;
    }

    /**
     * `Draw`: nothing at all for an empty item, so the placeholder is never
     * drawn; a line with timed words is drawn word by word with the
     * highlight of each word at `clock`; any other line as plain text.
     */
    method Draw(clock: int, playing: bool, hideWaiting: bool) returns (d: Drawing)
      ensures isEmpty ==> d == Nothing
      ensures !isEmpty && isWaiting ==> d == (if hideWaiting then Nothing else Placeholder)
      ensures !isEmpty && !isWaiting ==> d != Nothing && d != Placeholder
      ensures !isEmpty && !isWaiting ==>
        (d.Words? <==> line.value.dynamicLyric.Some? && |line.value.dynamicLyric.value| > 0)
      ensures d.Words? ==>
        line.Some? && line.value.dynamicLyric.Some? && |d.alphas| == |line.value.dynamicLyric.value|
        && forall i :: 0 <= i < |d.alphas| ==> d.alphas[i] == WordAlpha(line.value.dynamicLyric.value, clock, playing, i)
    {
      if isEmpty {
        return Nothing;
      }
      if isWaiting {
        return if hideWaiting then Nothing else Placeholder;
      }
      var l := line.value;
      if l.dynamicLyric.Some? && |l.dynamicLyric.value| > 0 {
        var words := l.dynamicLyric.value;
        var current := FindCurrentWord(words, clock);
        var alphas := [];
        var i := 0;
        while i < |words|
          invariant 0 <= i <= |words| && |alphas| == i
          invariant forall j :: 0 <= j < i ==> alphas[j] == WordAlpha(words, clock, playing, j)
        {
          alphas := alphas + [Alpha(words, clock, playing, current, i)];
          i := i + 1;
        }
        return Words(alphas);
      }
      return Text;
    }
  }

  /** What `Draw` puts on screen, as far as this model follows it. */
  datatype Drawing = Nothing | Placeholder | Text | Words(alphas: seq<real>)

  /** The last word that has started at `clock`, or -1 when none has. */
  function CurrentWord(words: seq<DynamicLyricWord>, clock: int): (r: int)
    ensures -1 <= r < |words|
    ensures r >= 0 ==> words[r].time <= clock && forall j :: r < j < |words| ==> words[j].time > clock
    ensures r == -1 ==> forall j :: 0 <= j < |words| ==> words[j].time > clock
  {
    if words == [] then -1
    else if words[|words| - 1].time <= clock then |words| - 1
    else CurrentWord(words[..|words| - 1], clock)
  }

  /** The backward search of `DrawDynamicLyric`: scan from the last word to the first that has started. */
  method FindCurrentWord(words: seq<DynamicLyricWord>, clock: int) returns (r: int)
    ensures r == CurrentWord(words, clock)
  {
    var i := |words| - 1;
    while i >= 0
      invariant -1 <= i < |words|
      invariant CurrentWord(words, clock) == CurrentWord(words[..i + 1], clock)
    {
      if clock >= words[i].time {
        return i;
      }
      assert words[..i + 1][..i] == words[..i];
      i := i - 1;
    }
    return -1;
  }

  /**
   * The highlight of word i: full for the words before the current one; the
   * current one's share of its duration (full once it has ended); a glow of
   * up to 0.3 on the next word during the last 50 ms before it starts, only
   * while playing; none for the rest.
   */
  function Alpha(words: seq<DynamicLyricWord>, clock: int, playing: bool, current: int, i: int): real
    requires 0 <= i < |words| && current == CurrentWord(words, clock)
  {
    if i < current then 1.0
    else if i == current then
      var w := words[current];
      if clock >= w.time + w.duration then 1.0
      else (clock - w.time) as real / w.duration as real
    else if i == current + 1 && current >= 0 && playing then
      var timeToNext := words[i].time - clock;
      if timeToNext < 50 then 0.3 * (1.0 - timeToNext as real / 50.0) else 0.0
    else 0.0
  }

  function WordAlpha(words: seq<DynamicLyricWord>, clock: int, playing: bool, i: int): (a: real)
    requires 0 <= i < |words|
    ensures 0.0 <= a <= 1.0
    ensures i < CurrentWord(words, clock) ==> a == 1.0
    ensures i > CurrentWord(words, clock) + 1 || CurrentWord(words, clock) == -1 ==> a == 0.0
    ensures i == CurrentWord(words, clock) + 1 && CurrentWord(words, clock) >= 0 ==> a < 0.3
    ensures i == CurrentWord(words, clock) && clock >= words[i].time + words[i].duration ==> a == 1.0
    ensures i == CurrentWord(words, clock) + 1 && !playing ==> a == 0.0
  {
    Alpha(words, clock, playing, CurrentWord(words, clock), i)
  }

  /** A later clock never moves the current word backwards. */
  lemma CurrentWordMonotone(words: seq<DynamicLyricWord>, c1: int, c2: int)
    requires c1 <= c2
    ensures CurrentWord(words, c1) <= CurrentWord(words, c2)
  {
  }

  /**
   * Once a word has started, its highlight only grows as the clock
   * advances: words fill from left to right and never dim again.
   */
  lemma HighlightNeverDims(words: seq<DynamicLyricWord>, c1: int, c2: int, playing: bool, i: int)
    requires 0 <= i < |words| && c1 <= c2 && words[i].time <= c1
    ensures WordAlpha(words, c1, playing, i) <= WordAlpha(words, c2, playing, i)
  {
    var r1, r2 := CurrentWord(words, c1), CurrentWord(words, c2);
    CurrentWordMonotone(words, c1, c2);
    assert i <= r1;
    if i == r1 && r1 == r2 && c2 < words[i].time + words[i].duration {
      var t, d := words[i].time, words[i].duration;
      assert d > 0;
      assert (c1 - t) as real <= (c2 - t) as real;
      DivideMonotone((c1 - t) as real, (c2 - t) as real, d as real);
    }
  }

  lemma DivideMonotone(x: real, y: real, d: real)
    requires x <= y && d > 0.0
    ensures x / d <= y / d
  {
    assert y / d - x / d == (y - x) / d;
  }

  /**
   * Before a word starts it glows with up to 0.3, but at the instant it
   * becomes current its highlight restarts from 0: the highlight of a
   * word is not monotone across its own start.
   */
  lemma GlowThenRestart()
    ensures var words := [DynamicLyricWord(0, 100, 0, None), DynamicLyricWord(100, 100, 0, None)];
      WordAlpha(words, 99, true, 1) > 0.29 && WordAlpha(words, 100, true, 1) == 0.0
  {
    var words := [DynamicLyricWord(0, 100, 0, None), DynamicLyricWord(100, 100, 0, None)];
    assert CurrentWord(words, 99) == 0;
    assert CurrentWord(words, 100) == 1;
  }
}
