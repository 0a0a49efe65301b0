/**
 * The shared lyric renderer: the padded item list it rebuilds on every
 * lyric, the list clearing on a song change, and the current-line search
 * over that list, which runs on the dead-reckoned clock.
 */
module Renderer {
  import opened Wrappers
  import opened LyricModels
  import opened SongModels
  import opened Slots
  import opened RenderingItem

  /** What the current-line search sees of a list of items. */
  function SlotsOf(items: seq<LyricLineItem>): (s: seq<Slot>)
    ensures |s| == |items| && forall k :: 0 <= k < |items| ==> s[k] == items[k].Slot()
  {
    seq(|items|, k requires 0 <= k < |items| => items[k].Slot())
  }

  lemma SlotsOfAppend(items: seq<LyricLineItem>, item: LyricLineItem)
    ensures SlotsOf(items + [item]) == SlotsOf(items) + [item.Slot()]
  {
  }

  class LyricRenderer {
    var items: seq<LyricLineItem>
    var albumUrl: Option<string>

    /** The list is empty or a padded list built from a lyric, so the search never reads a missing line. */
    predicate Valid()
      reads this
    {
      WellFormed(SlotsOf(items))
    }

    constructor ()
      ensures Valid() && items == [] && albumUrl == None
    {
      items := [];
      albumUrl := None;
    }

    /**
     * `OnSongChanged`: the item list is emptied, and the album URL becomes
     * the new song's cover URL, or none.
     */
    method OnSongChanged(song: Option<SongInfo>)
      modifies this
      ensures Valid() && items == []
      ensures albumUrl == (if song.Some? then CoverUrl(song.value) else None)
    {
      items := [];
      albumUrl := if song.Some? then CoverUrl(song.value) else None;
    }

    /**
     * `OnLyricReceived`: the list is rebuilt as 5 empty items, a waiting
     * item when the first line starts after 0, one item per line in order,
     * and 5 empty items.
     */
    method OnLyricReceived(lyric: LyricData)
      modifies this
      ensures Valid() && SlotsOf(items) == Padded(lyric.lines)
      ensures |items| == 2 * Padding + WaitingCount(lyric.lines) + |lyric.lines|
      ensures albumUrl == old(albumUrl)
    {
      var lines := lyric.lines;
      ghost var target := Padded(lines);
      ghost var w := WaitingCount(lines);
      assert |target| == 2 * Padding + w + |lines|;
      items := [];
      forall j | 0 <= j < Padding
        ensures target[j] == Blank
      {
        PaddedBlankAt(lines, j);
      }
      AppendBlanks(Padding, target);
      if HasWaiting(lines) {
        var item := LyricLineItem.CreateWaiting();
        PaddedWaitingAt(lines);
        Extend(item, target);
      }
      assert |items| == Padding + w;
      forall k | 0 <= k < |lines|
        ensures target[|items| + k] == Slot(Some(lines[k]), false)
      {
        PaddedLineAt(lines, k);
      }
      AppendLines(lines, target);
      assert |items| == Padding + w + |lines|;
      forall j | |items| <= j < |items| + Padding
        ensures target[j] == Blank
      {
        PaddedBlankAt(lines, j);
      }
      AppendBlanks(Padding, target);
      assert target[..|items|] == target;
    }

    /** Appends `n` empty items, the slots `target` expects next. */
    method AppendBlanks(n: nat, ghost target: seq<Slot>)
      requires |items| + n <= |target| && SlotsOf(items) == target[..|items|]
      requires forall j :: |items| <= j < |items| + n ==> target[j] == Blank
      modifies this
      ensures |items| == old(|items|) + n && SlotsOf(items) == target[..|items|]
      ensures items[..old(|items|)] == old(items)
      ensures albumUrl == old(albumUrl)
    {
      ghost var start := |items|;
      var i := 0;
      while i < n
        invariant 0 <= i <= n && |items| == start + i
        invariant SlotsOf(items) == target[..|items|]
        invariant items[..start] == old(items)
        invariant albumUrl == old(albumUrl)
      {
        var item := LyricLineItem.CreateEmpty();
        Extend(item, target);
        i := i + 1;
      }
    }

    /** Appends one item per line, in order, the slots `target` expects next. */
    method AppendLines(lines: seq<LyricLine>, ghost target: seq<Slot>)
      requires |items| + |lines| <= |target| && SlotsOf(items) == target[..|items|]
      requires forall k :: 0 <= k < |lines| ==> target[|items| + k] == Slot(Some(lines[k]), false)
      modifies this
      ensures |items| == old(|items|) + |lines| && SlotsOf(items) == target[..|items|]
      ensures items[..old(|items|)] == old(items)
      ensures albumUrl == old(albumUrl)
    {
      ghost var start := |items|;
      var k := 0;
      while k < |lines|
        invariant 0 <= k <= |lines| && |items| == start + k
        invariant SlotsOf(items) == target[..|items|]
        invariant items[..start] == old(items)
        invariant albumUrl == old(albumUrl)
      {
        var item := LyricLineItem.Create(lines[k]);
        Extend(item, target);
        k := k + 1;
      }
    }

    /** Appends one item that matches the next slot of `target`. */
    method Extend(item: LyricLineItem, ghost target: seq<Slot>)
      requires |items| < |target| && SlotsOf(items) == target[..|items|]
      requires item.Slot() == target[|items|]
      modifies this
      ensures items == old(items) + [item] && SlotsOf(items) == target[..|items|]
      ensures albumUrl == old(albumUrl)
    {
      SlotsOfAppend(items, item);
      assert target[..|items| + 1] == target[..|items|] + [target[|items|]];
      items := items + [item];
    }

    /**
     * `GetCurrentLineIndex`, with the presence of progress and the clock
     * (`LyricService.GetCurrentTime()`) as inputs.
     */
    method GetCurrentLineIndex(hasProgress: bool, clock: int) returns (r: int)
      requires Valid()
      ensures r == CurrentSlot(SlotsOf(items), hasProgress, clock)
    {
      ghost var s := SlotsOf(items);
      if !hasProgress {
        return -1;
      }
      if clock == 0 && |items| > Padding && items[Padding].isWaiting {
        return Padding;
      }
      var i := Padding;
      while i < |items| - Padding
        invariant Padding <= i
        invariant SearchFrom(s, clock, i) == SearchFrom(s, clock, Padding)
        decreases |items| - i
      {
        var item := items[i];
        if !item.isEmpty && !item.isWaiting && item.line.value.time <= clock
          && (i == |items| - Padding - 1 || items[i + 1].line.value.time > clock)
        {
          assert IsCurrentAt(s, i, clock);
          return i;
        }
        i := i + 1;
      }
      return -1;
    }

    /** `GetCurrentItem`: the item at the current index when there is one, otherwise null. */
    method GetCurrentItem(hasProgress: bool, clock: int) returns (item: LyricLineItem?)
      requires Valid()
      ensures var r := CurrentSlot(SlotsOf(items), hasProgress, clock);
        if 0 <= r < |items| then item == items[r] else item == null
    {
      var r := GetCurrentLineIndex(hasProgress, clock);
      if 0 <= r < |items| {
        return items[r];
      }
      return null;
    }
  }

  /**
   * After a lyric arrives, the renderer's current item is never a padding
   * item and never a line whose text is "": it is the waiting item (only at
   * clock 0) or a line with text.
   */
  lemma RendererCurrentItem(lines: seq<LyricLine>, hasProgress: bool, clock: int, items: seq<LyricLineItem>)
    requires SlotsOf(items) == Padded(lines)
    ensures var r := CurrentSlot(SlotsOf(items), hasProgress, clock);
      r == -1
      || (Padding <= r < |items| - Padding
          && ((items[r].isWaiting && clock == 0) || (!items[r].isEmpty && !items[r].isWaiting)))
  {
    CurrentSlotInRange(lines, hasProgress, clock);
    var r := CurrentSlot(SlotsOf(items), hasProgress, clock);
    if r != -1 {
      items[r].EmptyMatchesSlot();
    }
  }
}
