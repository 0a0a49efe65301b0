/**
 * The padded list of lyric items both display layers build, seen through
 * the three things the current-line search reads of an item: its line, its
 * waiting flag, and the emptiness that follows from the line.
 */
module Slots {
  import opened Wrappers
  import opened LyricModels
  import opened Readouts

  /** `PADDING_GROUPS`: empty items above and below the lines. */
  const Padding: nat := 5

  /** What an item is: its line (absent for padding and the waiting placeholder) and its waiting flag. */
  datatype Slot = Slot(line: Option<LyricLine>, isWaiting: bool) {
    /** `IsEmpty`: no line, or a line whose original text is "". */
    predicate IsEmpty() {
      line.None? || line.value.originalLyric == Some("")
    }
  }

  const Blank: Slot := Slot(None, false)
  const Waiting: Slot := Slot(None, true)

  /** The waiting placeholder is itself empty, since it carries no line. */
  lemma WaitingIsEmpty()
    ensures Waiting.IsEmpty() && Waiting.isWaiting && Blank.IsEmpty() && !Blank.isWaiting
  {
  }

  /** A waiting placeholder goes first when the first line starts after time 0. */
  predicate HasWaiting(lines: seq<LyricLine>) {
    |lines| > 0 && lines[0].time > 0
  }

  function WaitingCount(lines: seq<LyricLine>): nat {
    if HasWaiting(lines) then 1 else 0
  }

  function LineSlots(lines: seq<LyricLine>): (s: seq<Slot>)
    ensures |s| == |lines|
    ensures forall k :: 0 <= k < |lines| ==> s[k] == Slot(Some(lines[k]), false)
  {
    seq(|lines|, k requires 0 <= k < |lines| => Slot(Some(lines[k]), false))
  }

  /** The list `OnLyricReceived` builds: padding, the optional placeholder, one item per line, padding. */
  function Padded(lines: seq<LyricLine>): (s: seq<Slot>)
    ensures |s| == 2 * Padding + WaitingCount(lines) + |lines| && WellFormed(s)
  {
    seq(Padding, _ => Blank) + (if HasWaiting(lines) then [Waiting] else []) + LineSlots(lines) + seq(Padding, _ => Blank)
  }

  /** Where each line of the lyric sits in the padded list, and what surrounds it. */
  lemma PaddedLayout(lines: seq<LyricLine>)
    ensures var s := Padded(lines); var w := WaitingCount(lines);
      |s| == 2 * Padding + w + |lines|
      && (forall j :: 0 <= j < Padding ==> s[j] == Blank)
      && (w == 1 ==> s[Padding] == Waiting)
      && (forall k :: 0 <= k < |lines| ==> s[Padding + w + k] == Slot(Some(lines[k]), false))
      && (forall j :: Padding + w + |lines| <= j < |s| ==> s[j] == Blank)
  {
  }

  lemma PaddedLineAt(lines: seq<LyricLine>, k: nat)
    requires k < |lines|
    ensures Padded(lines)[Padding + WaitingCount(lines) + k] == Slot(Some(lines[k]), false)
  {
    PaddedLayout(lines);
  }

  lemma PaddedBlankAt(lines: seq<LyricLine>, j: nat)
    requires j < Padding || Padding + WaitingCount(lines) + |lines| <= j < 2 * Padding + WaitingCount(lines) + |lines|
    ensures j < |Padded(lines)| && Padded(lines)[j] == Blank
  {
    PaddedLayout(lines);
  }

  lemma PaddedWaitingAt(lines: seq<LyricLine>)
    requires HasWaiting(lines)
    ensures Padding < |Padded(lines)| && Padded(lines)[Padding] == Waiting
  {
    PaddedLayout(lines);
  }

  /** Every slot strictly inside the search range, past the first one, carries a line. */
  predicate WellFormed(s: seq<Slot>) {
    forall j :: Padding < j < |s| - Padding ==> s[j].line.Some?
  }

  /**
   * Slot i is current at `clock`: it is a text line (neither empty nor
   * waiting) that has started, and it is the last searched slot or the next
   * slot's line has not started.
   */
  predicate IsCurrentAt(s: seq<Slot>, i: int, clock: int)
    requires WellFormed(s) && Padding <= i < |s| - Padding
  {
    !s[i].IsEmpty() && !s[i].isWaiting && s[i].line.value.time <= clock
    && (i == |s| - Padding - 1 || s[i + 1].line.value.time > clock)
  }

  /** The first current slot at index i or later, below `Count - 5`, or -1. */
  function SearchFrom(s: seq<Slot>, clock: int, i: nat): (r: int)
    requires WellFormed(s) && Padding <= i
    ensures r == -1 ==> forall j :: i <= j < |s| - Padding ==> !IsCurrentAt(s, j, clock)
    ensures r != -1 ==>
      i <= r < |s| - Padding && IsCurrentAt(s, r, clock)
      && forall j :: i <= j < r ==> !IsCurrentAt(s, j, clock)
    decreases |s| - i
  {
    if i >= |s| - Padding then -1
    else if IsCurrentAt(s, i, clock) then i
    else SearchFrom(s, clock, i + 1)
  }

  /**
   * `GetCurrentLineIndex` of a display layer: -1 without progress; the
   * placeholder's index when the clock reads 0 and slot 5 is the
   * placeholder; else the first current slot.
   */
  function CurrentSlot(s: seq<Slot>, hasProgress: bool, clock: int): int
    requires WellFormed(s)
  {
    if !hasProgress then -1
    else if clock == 0 && |s| > Padding && s[Padding].isWaiting then Padding
    else SearchFrom(s, clock, Padding)
  }

  /**
   * On a padded list the answer is -1, the placeholder, or a slot inside the
   * searched range that holds a line with text: padding and lines whose
   * original text is "" are never current.
   */
  lemma CurrentSlotInRange(lines: seq<LyricLine>, hasProgress: bool, clock: int)
    ensures var s := Padded(lines); var r := CurrentSlot(s, hasProgress, clock);
      r == -1
      || (Padding <= r < |s| - Padding
          && ((r == Padding && s[r] == Waiting && clock == 0)
              || (s[r].line.Some? && s[r].line.value.originalLyric != Some("") && !s[r].isWaiting)))
  {
    PaddedLayout(lines);
  }

  predicate NoBlankLines(lines: seq<LyricLine>) {
    forall k :: 0 <= k < |lines| ==> lines[k].originalLyric != Some("")
  }

  /** Slot position of a line-search answer. */
  function Shift(r: int, w: nat): int {
    if r == -1 then -1 else r + Padding + w
  }

  lemma {:induction false} SearchMatchesLines(lines: seq<LyricLine>, clock: int, k: nat)
    requires NoBlankLines(lines) && k <= |lines|
    ensures
      SearchFrom(Padded(lines), clock, Padding + WaitingCount(lines) + k)
      == Shift(LineSearchFrom(lines, clock, k), WaitingCount(lines))
    decreases |lines| - k
  {
    var s := Padded(lines);
    var w := WaitingCount(lines);
    var i := Padding + w + k;
    if k < |lines| {
      PaddedLineAt(lines, k);
      if k + 1 < |lines| {
        PaddedLineAt(lines, k + 1);
      }
      assert IsCurrentAt(s, i, clock) <==> IsWindowAt(lines, k, clock);
      if !IsWindowAt(lines, k, clock) {
        SearchMatchesLines(lines, clock, k + 1);
      }
    }
  }

  /**
   * When no line is blank, a display layer and a manager agree on the
   * current line up to the padding offset, given the same time: the display
   * answers slot 5 + w + k where the manager answers line k (w is 1 when
   * there is a placeholder), except that at time 0 the placeholder wins.
   */
  lemma DisplayAgreesWithManager(lines: seq<LyricLine>, clock: int)
    requires NoBlankLines(lines)
    ensures
      CurrentSlot(Padded(lines), true, clock)
      == if clock == 0 && HasWaiting(lines) then Padding
         else Shift(LineSearchFrom(lines, clock, 0), WaitingCount(lines))
  {
    PaddedLayout(lines);
    var s := Padded(lines);
    if HasWaiting(lines) {
      assert !IsCurrentAt(s, Padding, clock);
      assert SearchFrom(s, clock, Padding) == SearchFrom(s, clock, Padding + 1);
    }
    SearchMatchesLines(lines, clock, 0);
  }

  /** A blank line between two timed lines: the display skips it, the manager reports it. */
  lemma BlankLineDisagreement()
    ensures var lines := [LyricLine(0, 0, Some("a"), None, None, None, None),
                          LyricLine(10, 0, Some(""), None, None, None, None)];
      LineSearchFrom(lines, 20, 0) == 1 && CurrentSlot(Padded(lines), true, 20) == -1
  {
    var lines := [LyricLine(0, 0, Some("a"), None, None, None, None),
                  LyricLine(10, 0, Some(""), None, None, None, None)];
    PaddedLayout(lines);
    var s := Padded(lines);
    assert !IsCurrentAt(s, 5, 20);
    assert !IsCurrentAt(s, 6, 20);
  }
}
