/**
 * The editor-wide lyric service: one instance holding a server-side
 * manager, the reconnection flags driven by the editor's update tick, and
 * the shared renderer, to which it replays the current state when the
 * renderer is created. Times are seconds since the editor started and are
 * inputs.
 */
module Service {
  import opened Wrappers
  import opened SongModels
  import opened LyricModels
  import opened Playback
  import opened Readouts
  import opened Slots
  import ServerManager
  import Renderer

  /** `RECONNECT_INTERVAL`, in seconds. */
  const ReconnectInterval: real := 5.0

  /** The state a manager holds, as the endpoint events that would have produced it: song, lyric, progress, play state. */
  function ReplayedSources(np: NowPlaying): seq<SourceEvent> {
    SongSource(np) + LyricSource(np) + ProgressSource(np) + StateSource(np)
  }

  function SongSource(np: NowPlaying): seq<SourceEvent> {
    if np.song.Some? then [SongPushed(np.song.value)] else []
  }

  function LyricSource(np: NowPlaying): seq<SourceEvent> {
    if np.lyric.Some? then [LyricPushed(np.lyric.value)] else []
  }

  function ProgressSource(np: NowPlaying): seq<SourceEvent> {
    if np.progress.Some? then [ProgressPushed(np.progress.value)] else []
  }

  function StateSource(np: NowPlaying): seq<SourceEvent> {
    if np.playState.Some? then [StatePushed(np.playState.value)] else []
  }

  /** What is replayed to a new renderer: the current fields in that order, skipping absent ones. */
  function Replay(np: NowPlaying): (r: seq<ManagerEvent>)
    ensures |r| <= 4
    ensures np.song.Some? ==> |r| > 0 && r[0] == SongChanged(np.song.value)
    ensures forall k :: 0 < k < |r| ==> !r[k].SongChanged?
  {
    (if np.song.Some? then [SongChanged(np.song.value)] else [])
    + (if np.lyric.Some? then [LyricReceived(np.lyric.value)] else [])
    + (if np.progress.Some? then [ProgressUpdated(np.progress.value)] else [])
    + (if np.playState.Some? then [PlayStateChanged(np.playState.value)] else [])
  }

  lemma {:induction false} AbsorbAllAppend(np: NowPlaying, a: seq<SourceEvent>, b: seq<SourceEvent>)
    ensures AbsorbAll(np, a + b) == AbsorbAll(AbsorbAll(np, a), b)
    decreases |b|
  {
    if b == [] {
      assert a + b == a;
    } else {
      assert (a + b)[..|a + b| - 1] == a + b[..|b| - 1];
      AbsorbAllAppend(np, a, b[..|b| - 1]);
    }
  }

  lemma ForwardFour(a: seq<SourceEvent>, b: seq<SourceEvent>, c: seq<SourceEvent>, d: seq<SourceEvent>)
    ensures ForwardAll(a + b + c + d) == ForwardAll(a) + ForwardAll(b) + ForwardAll(c) + ForwardAll(d)
  {
    ForwardAllAppend(a + b + c, d);
    ForwardAllAppend(a + b, c);
    ForwardAllAppend(a, b);
  }

  lemma SongPiece(np: NowPlaying)
    ensures ForwardAll(SongSource(np)) == if np.song.Some? then [SongChanged(np.song.value)] else []
  {
    if np.song.Some? { ForwardSingle(SongPushed(np.song.value)); }
  }

  lemma LyricPiece(np: NowPlaying)
    ensures ForwardAll(LyricSource(np)) == if np.lyric.Some? then [LyricReceived(np.lyric.value)] else []
  {
    if np.lyric.Some? { ForwardSingle(LyricPushed(np.lyric.value)); }
  }

  lemma ProgressPiece(np: NowPlaying)
    ensures ForwardAll(ProgressSource(np)) == if np.progress.Some? then [ProgressUpdated(np.progress.value)] else []
  {
    if np.progress.Some? { ForwardSingle(ProgressPushed(np.progress.value)); }
  }

  lemma StatePiece(np: NowPlaying)
    ensures ForwardAll(StateSource(np)) == if np.playState.Some? then [PlayStateChanged(np.playState.value)] else []
  {
    if np.playState.Some? { ForwardSingle(StatePushed(np.playState.value)); }
  }

  /** The replay is exactly the manager events for the present fields, in order. */
  lemma ReplayIsForwarded(np: NowPlaying)
    ensures Replay(np) == ForwardAll(ReplayedSources(np))
  {
    SongPiece(np);
    LyricPiece(np);
    ProgressPiece(np);
    StatePiece(np);
    ForwardFour(SongSource(np), LyricSource(np), ProgressSource(np), StateSource(np));
  }

  /**
   * The replay is complete: a receiver that starts from nothing and
   * absorbs it ends up holding the same four fields. This holds because
   * the song, which clears the other fields, comes first.
   */
  lemma ReplayRestores(np: NowPlaying)
    ensures AbsorbAll(Nothing, ReplayedSources(np)) == np
  {
    AbsorbFour(Nothing, SongSource(np), LyricSource(np), ProgressSource(np), StateSource(np));
    SongRestored(np);
    LyricRestored(np, NowPlaying(np.song, None, None, None));
    ProgressRestored(np, NowPlaying(np.song, np.lyric, None, None));
    StateRestored(np, NowPlaying(np.song, np.lyric, np.progress, None));
  }

  lemma AbsorbFour(np: NowPlaying, a: seq<SourceEvent>, b: seq<SourceEvent>, c: seq<SourceEvent>, d: seq<SourceEvent>)
    ensures AbsorbAll(np, a + b + c + d) == AbsorbAll(AbsorbAll(AbsorbAll(AbsorbAll(np, a), b), c), d)
  {
    AbsorbAllAppend(np, a + b + c, d);
    AbsorbAllAppend(np, a + b, c);
    AbsorbAllAppend(np, a, b);
  }

  lemma AbsorbSingle(np: NowPlaying, e: SourceEvent)
    ensures AbsorbAll(np, [e]) == Absorb(np, e)
  {
    assert [e][..0] == [];
  }

  lemma SongRestored(np: NowPlaying)
    ensures AbsorbAll(Nothing, SongSource(np)) == NowPlaying(np.song, None, None, None)
  {
    if np.song.Some? { AbsorbSingle(Nothing, SongPushed(np.song.value)); }
  }

  lemma LyricRestored(np: NowPlaying, x: NowPlaying)
    requires x.lyric.None?
    ensures AbsorbAll(x, LyricSource(np)) == x.(lyric := np.lyric)
  {
    if np.lyric.Some? { AbsorbSingle(x, LyricPushed(np.lyric.value)); }
  }

  lemma ProgressRestored(np: NowPlaying, x: NowPlaying)
    requires x.progress.None?
    ensures AbsorbAll(x, ProgressSource(np)) == x.(progress := np.progress)
  {
    if np.progress.Some? { AbsorbSingle(x, ProgressPushed(np.progress.value)); }
  }

  lemma StateRestored(np: NowPlaying, x: NowPlaying)
    requires x.playState.None?
    ensures AbsorbAll(x, StateSource(np)) == x.(playState := np.playState)
  {
    if np.playState.Some? { AbsorbSingle(x, StatePushed(np.playState.value)); }
  }

  class LyricService {
    var manager: ServerManager.LyricManager?
    var isReconnecting: bool
    var lastReconnectTime: real
    var isInitialized: bool
    var lastUpdateTime: real
    var renderer: Renderer.LyricRenderer?
    /** `LyricConfig.Instance.Port`, the stored port. */
    var configPort: int
    /** Whether anything is subscribed to `OnUpdateTick`. */
    var hasTickHandlers: bool

    /**
     * A manager exists exactly while the service is initialised, and the
     * service reconnects only while initialised.
     */
    ghost predicate Valid()
      reads this, manager, renderer
    {
      (isInitialized <==> manager != null)
      && (isReconnecting ==> isInitialized)
      && (manager != null ==> manager.Valid())
      && (renderer != null ==> renderer.Valid())
    }

    /** What the service reports as the manager's state: nothing without a manager. */
    function Now(): NowPlaying
      reads this, manager
    {
      if manager == null then Nothing else manager.Now()
    }

    /** `Port`: the manager's port, or the stored one without a manager. */
    function Port(): (p: int)
      reads this, manager
      ensures manager == null ==> p == configPort
      ensures manager != null ==> p == manager.port
    {
      if manager == null then configPort else manager.port
    }

    /**
     * The static constructor: start from a clean state and initialise.
     * `createError` and `startRaised` are what creating and starting the
     * event source throws and raises.
     */
    constructor (configPort: int, createError: Option<string>, startRaised: seq<SourceEvent>)
      ensures Valid() && isInitialized && fresh(manager) && manager.port == configPort
      ensures manager.isInitialized <==> createError.None?
      ensures !isReconnecting && renderer == null && Now() == Nothing
      ensures this.configPort == configPort && lastUpdateTime == 0.0 && lastReconnectTime == 0.0 && !hasTickHandlers
    {
      manager := null;
      isReconnecting := false;
      lastReconnectTime := 0.0;
      isInitialized := false;
      lastUpdateTime := 0.0;
      renderer := null;
      this.configPort := configPort;
      hasTickHandlers := false;
      new;
      var raised := Initialize(createError, startRaised);
    }

    /**
     * `Initialize`: a no-op while initialised; otherwise create a manager,
     * initialise it on the stored port and mark the service initialised.
     * The service is initialised even when the manager's own start failed:
     * that failure is only reported as an error.
     */
    method Initialize(createError: Option<string>, startRaised: seq<SourceEvent>)
      returns (raised: seq<ManagerEvent>)
      requires Valid()
      modifies this
      ensures Valid() && renderer == old(renderer) && configPort == old(configPort)
      ensures lastUpdateTime == old(lastUpdateTime) && lastReconnectTime == old(lastReconnectTime)
      ensures hasTickHandlers == old(hasTickHandlers)
      ensures old(isInitialized) ==> unchanged(this) && raised == []
      ensures !old(isInitialized) ==>
        isInitialized && fresh(manager) && manager.port == configPort && manager.Now() == Nothing
        && (manager.isInitialized <==> createError.None?)
        && raised == (if createError.Some? then [Error(createError)] else [])
        && isReconnecting == old(isReconnecting)
    {
      if isInitialized {
        return [];
      }
      var m := new ServerManager.LyricManager();
      manager := m;
      raised := m.Initialize(configPort, createError, startRaised);
      isInitialized := true;
    }

    /** `TryReconnect`: enter reconnecting and stamp the time, unless already reconnecting. */
    method TryReconnect(now: real)
      requires Valid() && isInitialized
      modifies this
      ensures Valid() && isReconnecting
      ensures lastReconnectTime == if old(isReconnecting) then old(lastReconnectTime) else now
      ensures manager == old(manager) && renderer == old(renderer) && isInitialized == old(isInitialized)
      ensures lastUpdateTime == old(lastUpdateTime) && configPort == old(configPort)
      ensures hasTickHandlers == old(hasTickHandlers)
    {
      if !isReconnecting {
        isReconnecting := true;
        lastReconnectTime := now;
      }
    }

    /**
     * The handlers registered on the manager: every event is raised again;
     * a connection clears the reconnecting flag, a disconnection starts a
     * reconnection, and a song or lyric goes on to the renderer.
     */
    method OnManagerEvent(e: ManagerEvent, now: real) returns (raised: seq<ManagerEvent>)
      requires Valid() && isInitialized
      modifies this, renderer
      ensures Valid() && raised == [e]
      ensures manager == old(manager) && renderer == old(renderer) && isInitialized == old(isInitialized)
      ensures configPort == old(configPort) && lastUpdateTime == old(lastUpdateTime)
      ensures hasTickHandlers == old(hasTickHandlers)
      ensures e.Connected? ==> !isReconnecting
      ensures e.Disconnected? ==>
        isReconnecting && lastReconnectTime == if old(isReconnecting) then old(lastReconnectTime) else now
      ensures !e.Connected? && !e.Disconnected? ==>
        isReconnecting == old(isReconnecting) && lastReconnectTime == old(lastReconnectTime)
      ensures renderer != null && e.SongChanged? ==> renderer.items == [] && renderer.albumUrl == CoverUrl(e.song)
      ensures renderer != null && e.LyricReceived? ==>
        Renderer.SlotsOf(renderer.items) == Padded(e.lyric.lines) && renderer.albumUrl == old(renderer.albumUrl)
      ensures renderer != null && !e.SongChanged? && !e.LyricReceived? ==> unchanged(renderer)
    {
      raised := [e];
      match e {
        case Connected =>
          isReconnecting := false;
        case Disconnected =>
          TryReconnect(now);
        case SongChanged(song) =>
          if renderer != null {
            renderer.OnSongChanged(Some(song));
          }
        case LyricReceived(lyric) =>
          if renderer != null {
            renderer.OnLyricReceived(lyric);
          }
        case _ =>
      }
    }

    /**
     * An event of the manager's source goes through the manager, then the
     * at most one event the manager raises goes through the service's
     * handlers.
     */
    method Receive(e: SourceEvent, now: real) returns (raised: seq<ManagerEvent>)
      requires Valid()
      modifies this, manager, renderer
      ensures Valid() && manager == old(manager) && renderer == old(renderer) && isInitialized == old(isInitialized)
      ensures manager == null || !old(manager.isInitialized) ==>
        raised == [] && unchanged(this) && (manager != null ==> unchanged(manager))
        && (renderer != null ==> unchanged(renderer))
      ensures manager != null && old(manager.isInitialized) ==>
        manager.Now() == Absorb(old(manager.Now()), e) && raised == [Forwarded(e)]
        && manager.currentTime == ServerManager.Resync(old(manager.currentTime), e)
        && configPort == old(configPort) && lastUpdateTime == old(lastUpdateTime)
        && hasTickHandlers == old(hasTickHandlers)
        && (e == Started ==> !isReconnecting)
        && (e == Stopped ==>
              isReconnecting && lastReconnectTime == if old(isReconnecting) then old(lastReconnectTime) else now)
        && (e != Started && e != Stopped ==>
              isReconnecting == old(isReconnecting) && lastReconnectTime == old(lastReconnectTime))
        && (renderer != null && e.SongPushed? ==> renderer.items == [] && renderer.albumUrl == CoverUrl(e.song))
        && (renderer != null && e.LyricPushed? ==> Renderer.SlotsOf(renderer.items) == Padded(e.lyric.lines))
        && (renderer != null && !e.SongPushed? && !e.LyricPushed? ==> unchanged(renderer))
    {
      if manager == null {
        return [];
      }
      var fired := manager.Deliver(e);
      if fired == [] {
        return [];
      }
      raised := OnManagerEvent(fired[0], now);
    }

    /**
     * `OnUpdate` at time `now`: nothing unless initialised; the delta is 0
     * on the first tick after a reset; the manager's clock advances; and a
     * retry fires once reconnecting for at least 5 seconds since the last
     * stamp, re-stamping. The retry calls `Initialize`, which returns at
     * once because the service is initialised, so it never rebuilds the
     * manager.
     */
    method OnUpdate(now: real) returns (delta: real)
      requires Valid()
      modifies this, manager
      ensures Valid()
      ensures !old(isInitialized) ==> unchanged(this) && delta == 0.0
      ensures manager == old(manager) && isInitialized == old(isInitialized) && renderer == old(renderer)
      ensures isReconnecting == old(isReconnecting) && configPort == old(configPort)
      ensures old(isInitialized) ==>
        delta == (if old(lastUpdateTime) > 0.0 then now - old(lastUpdateTime) else 0.0)
        && lastUpdateTime == now
        && manager.Now() == old(manager.Now())
        && manager.currentTime
           == ServerManager.Advance(old(manager.currentTime), manager.currentPlayState.Some? && manager.currentPlayState.value.IsPlaying(),
                                    manager.playbackSpeed, delta)
        && lastReconnectTime
           == (if isReconnecting && now - old(lastReconnectTime) >= ReconnectInterval then now
               else old(lastReconnectTime))
    {
      if !isInitialized {
        return 0.0;
      }
      delta := if lastUpdateTime > 0.0 then now - lastUpdateTime else 0.0;
      lastUpdateTime := now;
      manager.Update(delta);
      if isReconnecting && now - lastReconnectTime >= ReconnectInterval {
        lastReconnectTime := now;
        var raised := Initialize(None, []);
      }
    }

    /** `UpdatePort`: ignored when not initialised or for the current port; otherwise stored and forwarded. */
    method UpdatePort(newPort: int, createError: Option<string>, startRaised: seq<SourceEvent>)
      returns (raised: seq<ManagerEvent>)
      requires Valid()
      modifies this, manager
      ensures Valid() && manager == old(manager) && renderer == old(renderer) && isInitialized == old(isInitialized)
      ensures !old(isInitialized) || newPort == old(Port()) ==>
        unchanged(this) && (manager != null ==> unchanged(manager)) && raised == []
      ensures old(isInitialized) && newPort != old(Port()) ==>
        configPort == newPort && manager.port == newPort && manager.Now().(progress := None) == Nothing
        && (manager.isInitialized <==> createError.None?)
        && raised == (if createError.Some? then [Error(createError)] else [])
        && isReconnecting == old(isReconnecting) && lastReconnectTime == old(lastReconnectTime)
        && lastUpdateTime == old(lastUpdateTime) && hasTickHandlers == old(hasTickHandlers)
    {
      if !isInitialized || newPort == Port() {
        return [];
      }
      configPort := newPort;
      raised := manager.UpdatePort(newPort, createError, startRaised);
    }

    /**
     * `GetRenderer`: create the renderer once and replay the current song,
     * lyric, progress and play state to it in that order, skipping absent
     * ones. The song goes first because it clears the renderer's list, so
     * the list ends up built from the current lyric.
     */
    method GetRenderer() returns (r: Renderer.LyricRenderer, replayed: seq<ManagerEvent>)
      requires Valid()
      modifies this
      ensures Valid() && r == renderer && manager == old(manager) && isInitialized == old(isInitialized)
      ensures isReconnecting == old(isReconnecting) && configPort == old(configPort)
      ensures lastUpdateTime == old(lastUpdateTime) && lastReconnectTime == old(lastReconnectTime)
      ensures hasTickHandlers == old(hasTickHandlers)
      ensures old(renderer) != null ==> r == old(renderer) && replayed == []
      ensures old(renderer) == null ==>
        fresh(r) && replayed == Replay(Now())
        && Renderer.SlotsOf(r.items) == (if Now().lyric.Some? then Padded(Now().lyric.value.lines) else [])
        && r.albumUrl == (if Now().song.Some? then CoverUrl(Now().song.value) else None)
    {
      if renderer != null {
        return renderer, [];
      }
      var np := Now();
      r := new Renderer.LyricRenderer();
      if np.song.Some? {
        r.OnSongChanged(Some(np.song.value));
      }
      if np.lyric.Some? {
        r.OnLyricReceived(np.lyric.value);
      }
      replayed := Replay(np);
      renderer := r;
      assert Now() == np;
    }

    /** `ReleaseRenderer`: forget the renderer. */
    method ReleaseRenderer()
      requires Valid()
      modifies this
      ensures Valid() && renderer == null && manager == old(manager) && isInitialized == old(isInitialized)
      ensures isReconnecting == old(isReconnecting) && lastUpdateTime == old(lastUpdateTime)
      ensures configPort == old(configPort) && hasTickHandlers == old(hasTickHandlers)
      ensures lastReconnectTime == old(lastReconnectTime)
    {
      renderer := null;
    }

    /**
     * `Dispose`: release the renderer, dispose and drop the manager, and
     * reset the flags, the last update time and the tick subscribers.
     */
    method Dispose()
      requires Valid()
      modifies this, manager
      ensures Valid() && renderer == null && manager == null && !isInitialized && !isReconnecting
      ensures lastUpdateTime == 0.0 && !hasTickHandlers && configPort == old(configPort)
      ensures old(manager) != null ==> !old(manager).isInitialized && old(manager).Now() == Nothing
    {
      ReleaseRenderer();
      if manager != null {
        manager.Dispose();
        manager := null;
      }
      isInitialized := false;
      isReconnecting := false;
      lastUpdateTime := 0.0;
      hasTickHandlers := false;
    }

    /** `GetCurrentLineIndex`: -1 without a manager, else the manager's answer. */
    method GetCurrentLineIndex() returns (r: int)
      ensures manager == null ==> r == -1
      ensures manager != null ==> r == LineIndex(manager.currentLyric, manager.currentProgress)
    {
      if manager == null {
        return -1;
      }
      r := manager.GetCurrentLineIndex();
    }

    /** `GetFormattedTime`: "0:00/0:00" without a manager, else the manager's answer. */
    function GetFormattedTime(): (s: string)
      reads this, manager
      ensures manager == null ==> s == "0:00/0:00"
      ensures manager != null ==> s == FormattedTime(manager.currentProgress)
    {
      if manager == null then "0:00/0:00" else manager.GetFormattedTime()
    }

    /** `GetProgress`: 0 without a manager, else the manager's answer. */
    function GetProgress(): (p: Ratio)
      reads this, manager
      ensures manager == null ==> p == Finite(0.0)
      ensures manager != null ==> p == ProgressRatio(manager.currentProgress)
    {
      if manager == null then Finite(0.0) else manager.GetProgress()
    }

    /** `GetCurrentTime`: 0 without a manager, else the manager's clock. */
    function GetCurrentTime(): (t: int)
      reads this, manager
      ensures manager == null ==> t == 0
      ensures manager != null ==> t == manager.currentTime
    {
      if manager == null then 0 else manager.GetCurrentTime()
    }
  }

  /**
   * Ticks alone never end a reconnection and never replace the manager:
   * after any run of updates, the service holds the manager it had and is
   * still reconnecting if it was, and the last stamp is one of the tick
   * times or the old stamp.
   */
  method RunTicks(service: LyricService, times: seq<real>)
    requires service.Valid()
    modifies service, service.manager
    ensures service.Valid() && service.manager == old(service.manager)
    ensures service.isReconnecting == old(service.isReconnecting)
    ensures service.isInitialized == old(service.isInitialized)
    ensures service.lastReconnectTime == old(service.lastReconnectTime) || service.lastReconnectTime in times
  {
    var i := 0;
    while i < |times|
      invariant 0 <= i <= |times|
      invariant service.Valid() && service.manager == old(service.manager)
      invariant service.isReconnecting == old(service.isReconnecting)
      invariant service.isInitialized == old(service.isInitialized)
      invariant service.lastReconnectTime == old(service.lastReconnectTime) || service.lastReconnectTime in times[..i]
    {
      var delta := service.OnUpdate(times[i]);
      assert times[..i + 1] == times[..i] + [times[i]];
      i := i + 1;
    }
    assert times[..|times|] == times;
  }
}
