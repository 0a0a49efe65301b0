/**
 * The runtime lyric window: it owns a runtime-side manager, rebuilds its
 * own padded item list from the manager's events, keeps album covers in a
 * cache with a set of pending downloads, and accepts port edits typed as
 * text. Its current-line search runs on the manager's last pushed time.
 */
module Window {
  import opened Wrappers
  import opened SongModels
  import opened LyricModels
  import opened Playback
  import opened Decimal
  import opened Slots
  import opened WindowItem
  import ClientManager

  /** A downloaded cover image, known only by identity. */
  datatype Texture = Texture(id: nat)

  /** How a pending download stands when the window polls it. */
  datatype DownloadState = InFlight | Succeeded(texture: Texture) | Failed

  /** A download is finished when the poll reports success or failure; an unreported one is still in flight. */
  predicate Finished(status: map<string, DownloadState>, url: string) {
    url in status && !status[url].InFlight?
  }

  /** The covers a poll adds to the cache: one per pending URL whose download succeeded. */
  function Downloaded(pending: set<string>, status: map<string, DownloadState>): (m: map<string, Texture>)
    ensures m.Keys <= pending
    ensures forall u :: u in m <==> u in pending && u in status && status[u].Succeeded?
  {
    map u | u in pending && u in status && status[u].Succeeded? :: status[u].texture
  }

  /** The URLs among `urls` whose download has finished. */
  function FinishedAmong(urls: set<string>, status: map<string, DownloadState>): (f: set<string>)
    ensures forall u :: u in f <==> u in urls && Finished(status, u)
  {
    set u | u in urls && Finished(status, u)
  }

  lemma FinishedStep(seen: set<string>, url: string, status: map<string, DownloadState>)
    ensures FinishedAmong(seen + {url}, status)
      == FinishedAmong(seen, status) + (if Finished(status, url) then {url} else {})
  {
  }

  lemma UnionUpdate(a: map<string, Texture>, b: map<string, Texture>, k: string, v: Texture)
    ensures (a + b)[k := v] == a + b[k := v]
  {
  }

  /** A cover cache and a pending set that are apart stay apart after a poll. */
  lemma PollKeepsApart(pending: set<string>, covers: map<string, Texture>, status: map<string, DownloadState>)
    requires pending !! covers.Keys
    ensures (pending - FinishedAmong(pending, status)) !! (covers + Downloaded(pending, status)).Keys
  {
  }

  /** Polling one more URL adds its texture exactly when its download succeeded. */
  lemma DownloadedStep(seen: set<string>, url: string, status: map<string, DownloadState>)
    ensures Downloaded(seen + {url}, status)
      == if url in status && status[url].Succeeded? then Downloaded(seen, status)[url := status[url].texture]
         else Downloaded(seen, status)
  {
  }

  function SlotsOf(items: seq<LyricLineItem>): (s: seq<Slot>)
    ensures |s| == |items| && forall k :: 0 <= k < |items| ==> s[k] == items[k].Slot()
  {
    seq(|items|, k requires 0 <= k < |items| => items[k].Slot())
  }

  lemma SlotsOfAppend(items: seq<LyricLineItem>, item: LyricLineItem)
    ensures SlotsOf(items + [item]) == SlotsOf(items) + [item.Slot()]
  {
  }

  /**
   * The port-text rule of the toolbar: the text must parse as a 32-bit
   * integer and be at most 5 characters long; nothing else is checked.
   */
  function AcceptPortText(text: string): (r: Option<int>)
    ensures r.Some? <==> TryParseInt32(text).Some? && |text| <= 5
    ensures r.Some? ==> r == TryParseInt32(text)
  {
    var parsed := TryParseInt32(text);
    if parsed.Some? && |text| <= 5 then parsed else None
  }

  /** An accepted port lies in [-9999, 99999]: the length bound is the only range check. */
  lemma AcceptedPortRange(text: string)
    requires AcceptPortText(text).Some?
    ensures -9999 <= AcceptPortText(text).value <= 99999
  {
    ParsedValueBound(text, 5);
  }

  /** Every value in [-9999, 99999] is accepted when typed in its usual decimal form. */
  lemma AcceptsShownPorts(p: int)
    requires -9999 <= p <= 99999
    ensures AcceptPortText(ShowInt(p)) == Some(p)
  {
    ParseShowInt(p);
    ShownLength(p);
  }

  lemma ShownLength(p: int)
    requires -9999 <= p <= 99999
    ensures |ShowInt(p)| <= 5
  {
    var n: nat := if p < 0 then -p else p;
    var k := if p < 0 then 4 else 5;
    assert Pow10(5) == 10 * Pow10(4) && Pow10(4) == 10 * Pow10(3) && Pow10(3) == 10 * Pow10(2);
    assert Pow10(2) == 10 * Pow10(1) && Pow10(1) == 10 * Pow10(0);
    assert n < Pow10(k);
    ShowNatLength(n, k);
  }

  lemma {:induction false} ShowNatLength(n: nat, k: nat)
    requires 1 <= k && n < Pow10(k)
    ensures |ShowNat(n)| <= k
    decreases k
  {
    if n >= 10 {
      assert k >= 2;
      ShowNatLength(n / 10, k - 1);
    }
  }

  /** Texts the rule accepts that are not TCP ports: a negative number and one above 65535. */
  lemma AcceptsInvalidPorts()
    ensures AcceptPortText("-1") == Some(-1) && AcceptPortText("99999") == Some(99999)
  {
    AcceptsShownPorts(-1);
    AcceptsShownPorts(99999);
    assert ShowInt(-1) == "-1";
    NinesShown();
  }

  lemma NinesShown()
    ensures ShowInt(99999) == "99999"
  {
    assert 99999 / 10 == 9999 && 9999 / 10 == 999 && 999 / 10 == 99 && 99 / 10 == 9;
    assert ShowNat(9) == "9";
    assert ShowNat(99) == "99";
    assert ShowNat(999) == "999";
    assert ShowNat(9999) == "9999";
    assert ShowNat(99999) == "99999";
  }

  class LyricWindow {
    var items: seq<LyricLineItem>
    var port: int
    var showTranslation: bool
    var showRomaji: bool
    var manager: ClientManager.LyricManager?
    var albumCovers: map<string, Texture>
    var pending: set<string>

    /** The manager, when there is one, is consistent, and no URL is both cached and pending. */
    ghost predicate Valid()
      reads this, manager, if manager != null then {manager.client} else {}
    {
      WellFormed(SlotsOf(items))
      && (manager != null ==> manager.Valid())
      && pending !! albumCovers.Keys
    }

    /** `OnEnable` up to creating the manager: the configuration read from storage is an input. */
    constructor (port: int, showTranslation: bool, showRomaji: bool)
      ensures Valid() && items == [] && manager == null && albumCovers == map[] && pending == {}
      ensures this.port == port && this.showTranslation == showTranslation && this.showRomaji == showRomaji
    {
      items := [];
      this.port := port;
      this.showTranslation := showTranslation;
      this.showRomaji := showRomaji;
      manager := null;
      albumCovers := map[];
      pending := {};
    }

    /**
     * `InitializeManager`: dispose the old manager, create a new one and
     * initialise it on the window's port.
     */
    method InitializeManager(createError: Option<string>, bindError: Option<string>)
      returns (fired: seq<ManagerEvent>)
      requires Valid()
      modifies this, manager, if manager != null then {manager.client} else {}
      ensures Valid() && fresh(manager) && manager.port == port && manager.Now() == Playback.Nothing
      ensures manager.isInitialized <==> createError.None?
      ensures fired == (if createError.Some? then [Error(createError)] else [])
      ensures old(manager) != null ==> !old(manager).isInitialized && old(manager).Now() == Playback.Nothing
      ensures port == old(port) && items == old(items) && albumCovers == old(albumCovers) && pending == old(pending)
      ensures showTranslation == old(showTranslation) && showRomaji == old(showRomaji)
    {
      if manager != null {
        manager.Dispose();
      }
      var m := new ClientManager.LyricManager();
      fired := m.Initialize(port, createError, bindError);
      manager := m;
    }

    /** `LoadAlbumCover`: a download starts only for a URL neither cached nor already pending. */
    method LoadAlbumCover(url: string) returns (requested: bool)
      requires Valid()
      modifies this
      ensures Valid()
      ensures requested <==> url !in old(albumCovers) && url !in old(pending)
      ensures pending == old(pending) + (if requested then {url} else {})
      ensures albumCovers == old(albumCovers) && items == old(items) && manager == old(manager)
      ensures port == old(port) && showTranslation == old(showTranslation) && showRomaji == old(showRomaji)
    {
      if url in albumCovers {
        return false;
      }
      if url in pending {
        return false;
      }
      pending := pending + {url};
      return true;
    }

    /**
     * `UpdateAlbumCoverRequests`: every finished download leaves the
     * pending set; a successful one is cached; unfinished ones stay.
     */
    method UpdateAlbumCoverRequests(status: map<string, DownloadState>)
      requires Valid()
      modifies this
      ensures Valid()
      ensures pending == old(pending) - FinishedAmong(old(pending), status)
      ensures albumCovers == old(albumCovers) + Downloaded(old(pending), status)
      ensures items == old(items) && manager == old(manager)
      ensures port == old(port) && showTranslation == old(showTranslation) && showRomaji == old(showRomaji)
    {
      if pending == {} {
        return;
      }
      ghost var covers0 := albumCovers;
      var todo := pending;
      var completed: set<string> := {};
      while todo != {}
        invariant todo <= pending
        invariant completed == FinishedAmong(pending - todo, status)
        invariant albumCovers == covers0 + Downloaded(pending - todo, status)
        invariant pending == old(pending) && items == old(items) && manager == old(manager)
        invariant port == old(port) && showTranslation == old(showTranslation) && showRomaji == old(showRomaji)
        decreases todo
      {
        var url :| url in todo;
        ghost var seen := pending - todo;
        assert pending - (todo - {url}) == seen + {url};
        DownloadedStep(seen, url, status);
        FinishedStep(seen, url, status);
        if url in status && !status[url].InFlight? {
          if status[url].Succeeded? {
            UnionUpdate(covers0, Downloaded(seen, status), url, status[url].texture);
            albumCovers := albumCovers[url := status[url].texture];
          }
          completed := completed + {url};
        }
        todo := todo - {url};
      }
      assert pending - todo == pending;
      PollKeepsApart(pending, covers0, status);
      pending := pending - completed;
    }

    /**
     * `OnDisable`: the manager is disposed, unfinished downloads are
     * aborted, and both the pending set and the cache end up empty.
     */
    method OnDisable(status: map<string, DownloadState>) returns (aborted: set<string>)
      requires Valid()
      modifies this, manager, if manager != null then {manager.client} else {}
      ensures Valid() && pending == {} && albumCovers == map[] && manager == old(manager)
      ensures aborted == set u | u in old(pending) && !Finished(status, u)
      ensures manager != null ==> !manager.isInitialized && manager.Now() == Playback.Nothing
      ensures items == old(items) && port == old(port)
      ensures showTranslation == old(showTranslation) && showRomaji == old(showRomaji)
    {
      if manager != null {
        manager.Dispose();
      }
      aborted := set u | u in pending && !Finished(status, u);
      pending := {};
      albumCovers := map[];
    }

    /** `OnSongChanged`: the item list is emptied and the new song's cover, if it has one, is requested. */
    method OnSongChanged(song: SongInfo) returns (requested: bool)
      requires Valid()
      modifies this
      ensures Valid() && items == [] && albumCovers == old(albumCovers) && manager == old(manager)
      ensures CoverUrl(song).None? ==> !requested && pending == old(pending)
      ensures CoverUrl(song).Some? ==>
        (requested <==> CoverUrl(song).value !in old(albumCovers) && CoverUrl(song).value !in old(pending))
        && pending == old(pending) + (if requested then {CoverUrl(song).value} else {})
      ensures port == old(port) && showTranslation == old(showTranslation) && showRomaji == old(showRomaji)
    {
      items := [];
      requested := false;
      var url := CoverUrl(song);
      if url.Some? {
        requested := LoadAlbumCover(url.value);
      }
    }

    /**
     * `OnLyricReceived`: the list is rebuilt as 5 empty items, a waiting
     * item when the first line starts after 0, one item per line in order,
     * and 5 empty items.
     */
    method OnLyricReceived(lyric: LyricData)
      requires Valid()
      modifies this
      ensures Valid() && SlotsOf(items) == Padded(lyric.lines)
      ensures |items| == 2 * Padding + WaitingCount(lyric.lines) + |lyric.lines|
      ensures albumCovers == old(albumCovers) && pending == old(pending) && manager == old(manager)
      ensures port == old(port) && showTranslation == old(showTranslation) && showRomaji == old(showRomaji)
    {
      var lines := lyric.lines;
      ghost var target := Padded(lines);
      ghost var w := WaitingCount(lines);
      assert |target| == 2 * Padding + w + |lines|;
      items := [];
      forall j | 0 <= j < Padding
        ensures target[j] == Blank
      {
        PaddedBlankAt(lines, j);
      }
      AppendBlanks(Padding, target);
      if HasWaiting(lines) {
        var item := LyricLineItem.CreateWaiting();
        PaddedWaitingAt(lines);
        Extend(item, target);
      }
      assert |items| == Padding + w;
      forall k | 0 <= k < |lines|
        ensures target[|items| + k] == Slot(Some(lines[k]), false)
      {
        PaddedLineAt(lines, k);
      }
      AppendLines(lines, target);
      assert |items| == Padding + w + |lines|;
      forall j | |items| <= j < |items| + Padding
        ensures target[j] == Blank
      {
        PaddedBlankAt(lines, j);
      }
      AppendBlanks(Padding, target);
      assert target[..|items|] == target;
    }

    /** Appends `n` empty items, the slots `target` expects next. */
    method AppendBlanks(n: nat, ghost target: seq<Slot>)
      requires |items| + n <= |target| && SlotsOf(items) == target[..|items|]
      requires forall j :: |items| <= j < |items| + n ==> target[j] == Blank
      modifies this
      ensures |items| == old(|items|) + n && SlotsOf(items) == target[..|items|]
      ensures items[..old(|items|)] == old(items)
      ensures albumCovers == old(albumCovers) && pending == old(pending) && manager == old(manager) && port == old(port)
      ensures showTranslation == old(showTranslation) && showRomaji == old(showRomaji)
    {
      ghost var start := |items|;
      var i := 0;
      while i < n
        invariant 0 <= i <= n && |items| == start + i
        invariant SlotsOf(items) == target[..|items|]
        invariant items[..start] == old(items)
        invariant albumCovers == old(albumCovers) && pending == old(pending) && manager == old(manager) && port == old(port)
        invariant showTranslation == old(showTranslation) && showRomaji == old(showRomaji)
      {
        var item := LyricLineItem.CreateEmpty();
        Extend(item, target);
        i := i + 1;
      }
    }

    /** Appends one item per line, in order, the slots `target` expects next. */
    method AppendLines(lines: seq<LyricLine>, ghost target: seq<Slot>)
      requires |items| + |lines| <= |target| && SlotsOf(items) == target[..|items|]
      requires forall k :: 0 <= k < |lines| ==> target[|items| + k] == Slot(Some(lines[k]), false)
      modifies this
      ensures |items| == old(|items|) + |lines| && SlotsOf(items) == target[..|items|]
      ensures items[..old(|items|)] == old(items)
      ensures albumCovers == old(albumCovers) && pending == old(pending) && manager == old(manager) && port == old(port)
      ensures showTranslation == old(showTranslation) && showRomaji == old(showRomaji)
    {
      ghost var start := |items|;
      var k := 0;
      while k < |lines|
        invariant 0 <= k <= |lines| && |items| == start + k
        invariant SlotsOf(items) == target[..|items|]
        invariant items[..start] == old(items)
        invariant albumCovers == old(albumCovers) && pending == old(pending) && manager == old(manager) && port == old(port)
        invariant showTranslation == old(showTranslation) && showRomaji == old(showRomaji)
      {
        var item := LyricLineItem.Create(lines[k]);
        Extend(item, target);
        k := k + 1;
      }
    }

    /** Appends one item that matches the next slot of `target`. */
    method Extend(item: LyricLineItem, ghost target: seq<Slot>)
      requires |items| < |target| && SlotsOf(items) == target[..|items|]
      requires item.Slot() == target[|items|]
      modifies this
      ensures items == old(items) + [item] && SlotsOf(items) == target[..|items|]
      ensures albumCovers == old(albumCovers) && pending == old(pending) && manager == old(manager)
      ensures port == old(port) && showTranslation == old(showTranslation) && showRomaji == old(showRomaji)
    {
      SlotsOfAppend(items, item);
      assert target[..|items| + 1] == target[..|items|] + [target[|items|]];
      items := items + [item];
    }

    /**
     * The manager events the window subscribes to: a song change and a
     * lyric rebuild the list; the rest only log or repaint.
     */
    method OnManagerEvent(e: ManagerEvent)
      requires Valid()
      modifies this
      ensures Valid() && manager == old(manager) && albumCovers == old(albumCovers)
      ensures e.SongChanged? ==> items == []
      ensures e.SongChanged? && CoverUrl(e.song).None? ==> pending == old(pending)
      ensures e.SongChanged? && CoverUrl(e.song).Some? ==>
        pending == old(pending) + (if CoverUrl(e.song).value in old(albumCovers) then {} else {CoverUrl(e.song).value})
      ensures e.LyricReceived? ==> SlotsOf(items) == Padded(e.lyric.lines) && pending == old(pending)
      ensures port == old(port) && showTranslation == old(showTranslation) && showRomaji == old(showRomaji)
      ensures !e.SongChanged? && !e.LyricReceived? ==> items == old(items) && pending == old(pending)
    {
      match e {
        case SongChanged(song) =>
          var requested := OnSongChanged(song);
        case LyricReceived(lyric) =>
          OnLyricReceived(lyric);
        case _ =>
      }
    }

    /** The pushed progress of the manager, if there is a manager and it holds one. */
    function PushedProgress(): Option<ProgressData>
      reads this, manager
    {
      if manager == null then None else manager.currentProgress
    }

    /**
     * `GetCurrentLineIndex`: the padded-list search of the display layers,
     * run on the manager's last pushed progress time rather than on a clock.
     */
    method GetCurrentLineIndex() returns (r: int)
      requires Valid()
      ensures var p := PushedProgress();
        r == CurrentSlot(SlotsOf(items), p.Some?, if p.Some? then p.value.time else 0)
    {
      ghost var s := SlotsOf(items);
      if manager == null || manager.currentProgress.None? {
        return -1;
      }
      var t := manager.currentProgress.value.time;
      if t == 0 && |items| > Padding && items[Padding].isWaiting {
        return Padding;
      }
      var i := Padding;
      while i < |items| - Padding
        invariant Padding <= i
        invariant SearchFrom(s, t, i) == SearchFrom(s, t, Padding)
        decreases |items| - i
      {
        var item := items[i];
        if !item.isEmpty && !item.isWaiting && item.line.value.time <= t
          && (i == |items| - Padding - 1 || items[i + 1].line.value.time > t)
        {
          assert IsCurrentAt(s, i, t);
          return i;
        }
        i := i + 1;
      }
      return -1;
    }

    /**
     * A port edit in the toolbar: an accepted text becomes the port and is
     * forwarded to the manager, which re-initialises on a new port; a
     * rejected text changes nothing.
     */
    method EditPort(text: string, createError: Option<string>, bindError: Option<string>)
      requires Valid()
      modifies this, manager, if manager != null then {manager.client} else {}
      ensures Valid() && manager == old(manager) && items == old(items)
      ensures albumCovers == old(albumCovers) && pending == old(pending)
      ensures showTranslation == old(showTranslation) && showRomaji == old(showRomaji)
      ensures AcceptPortText(text).None? ==> port == old(port)
      ensures AcceptPortText(text).Some? ==> port == AcceptPortText(text).value
      ensures AcceptPortText(text).Some? && manager != null && port != old(manager.port) ==>
        manager.port == port && manager.Now() == Playback.Nothing
        && (manager.isInitialized <==> createError.None?)
      ensures AcceptPortText(text).None? || (manager != null && port == old(manager.port)) ==>
        (manager != null ==> unchanged(manager) && (manager.client != null ==> unchanged(manager.client)))
    {
      var accepted := AcceptPortText(text);
      if accepted.Some? {
        port := accepted.value;
        if manager != null {
          var fired := manager.UpdatePort(port, createError, bindError);
        }
      }
    }
  }
}
