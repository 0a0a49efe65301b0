/**
 * The editor-side manager that owns the event source (`LyricServer`, whose
 * internals are not part of this model) and reconciles its pushes with a
 * local millisecond clock: between pushes the clock advances by the frame
 * time, scaled by the playback speed, while the player reports "resume".
 */
module ServerManager {
  import opened Wrappers
  import opened SongModels
  import opened LyricModels
  import opened Playback
  import opened Readouts

  const DefaultPort: int := 35010
  const MinSpeed: real := 0.1
  const MaxSpeed: real := 2.0

  /** `Mathf.Clamp(value, 0.1f, 2.0f)`. */
  function ClampSpeed(v: real): (r: real)
    ensures MinSpeed <= r <= MaxSpeed
    ensures MinSpeed <= v <= MaxSpeed ==> r == v
    ensures v < MinSpeed ==> r == MinSpeed
    ensures v > MaxSpeed ==> r == MaxSpeed
  {
    if v < MinSpeed then MinSpeed else if v > MaxSpeed then MaxSpeed else v
  }

  /** The C# cast `(long)x`: drop the fraction, rounding toward zero. */
  function TruncateTowardZero(x: real): (r: int)
    ensures x >= 0.0 ==> 0 <= r && r as real <= x < r as real + 1.0
    ensures x < 0.0 ==> r <= 0 && r as real - 1.0 < x <= r as real
  {
    if x >= 0.0 then x.Floor else -((-x).Floor)
  }

  /** One `Update(deltaTime)`: the clock after a frame of `delta` seconds. */
  function Advance(clock: int, playing: bool, speed: real, delta: real): int {
    if playing then clock + TruncateTowardZero(delta * 1000.0 * speed) else clock
  }

  /** Several frames at the same speed while playing. */
  function AdvanceAll(clock: int, speed: real, deltas: seq<real>): int {
    if deltas == [] then clock
    else Advance(AdvanceAll(clock, speed, deltas[..|deltas| - 1]), true, speed, deltas[|deltas| - 1])
  }

  /** The exact elapsed playback time of those frames, in milliseconds. */
  function Elapsed(speed: real, deltas: seq<real>): real {
    if deltas == [] then 0.0
    else Elapsed(speed, deltas[..|deltas| - 1]) + deltas[|deltas| - 1] * 1000.0 * speed
  }

  predicate AllNonNegative(deltas: seq<real>) {
    forall i :: 0 <= i < |deltas| ==> deltas[i] >= 0.0
  }

  /**
   * Dead reckoning never runs ahead of the exact playback time and falls
   * behind by less than one millisecond per frame, because each frame's
   * increment is truncated separately.
   */
  lemma {:induction false} DriftBound(clock: int, speed: real, deltas: seq<real>)
    requires speed >= 0.0 && AllNonNegative(deltas)
    ensures var c := AdvanceAll(clock, speed, deltas) as real; var exact := clock as real + Elapsed(speed, deltas);
      c <= exact && (deltas != [] ==> exact - c < |deltas| as real)
  {
    if deltas != [] {
      var init := deltas[..|deltas| - 1];
      DriftBound(clock, speed, init);
      var d := deltas[|deltas| - 1];
      assert d >= 0.0;
      assert d * 1000.0 * speed >= 0.0 by {
        assert d * 1000.0 >= 0.0;
      }
    }
  }

  /** Over frames of non-negative length at a clamped speed the clock never goes back. */
  lemma {:induction false} AdvanceMonotone(clock: int, speed: real, deltas: seq<real>)
    requires MinSpeed <= speed <= MaxSpeed && AllNonNegative(deltas)
    ensures AdvanceAll(clock, speed, deltas) >= clock
  {
    if deltas != [] {
      AdvanceMonotone(clock, speed, deltas[..|deltas| - 1]);
      var d := deltas[|deltas| - 1];
      assert d * 1000.0 * speed >= 0.0 by {
        assert d * 1000.0 >= 0.0;
      }
    }
  }

  /** The clock after an event reaches an initialised manager: a song restarts it, a progress push resyncs it. */
  function Resync(clock: int, e: SourceEvent): (c: int)
    ensures e.ProgressPushed? ==> c == e.progress.time
    ensures e.SongPushed? ==> c == 0
    ensures !e.ProgressPushed? && !e.SongPushed? ==> c == clock
  {
    match e
    case SongPushed(_) => 0
    case ProgressPushed(p) => p.time
    case _ => clock
  }

  class LyricManager {
    var hasServer: bool
    var isInitialized: bool
    var port: int
    var currentSong: Option<SongInfo>
    var currentLyric: Option<LyricData>
    var currentProgress: Option<ProgressData>
    var currentPlayState: Option<PlayStateData>
    var currentTime: int
    var playbackSpeed: real

    function Now(): NowPlaying
      reads this
    {
      NowPlaying(currentSong, currentLyric, currentProgress, currentPlayState)
    }

    /**
     * Initialised exactly while it owns an event source, at a clamped speed.
     * While not initialised it holds no song, lyric or play state; it may
     * hold a progress, since `OnProgressReceived` has no initialisation guard.
     */
    ghost predicate Valid()
      reads this
    {
      (isInitialized <==> hasServer)
      && (!isInitialized ==> currentSong.None? && currentLyric.None? && currentPlayState.None?)
      && MinSpeed <= playbackSpeed <= MaxSpeed
    }

    constructor ()
      ensures Valid() && !isInitialized && Now() == Nothing
      ensures currentTime == 0 && playbackSpeed == 1.0 && port == 0
    {
      hasServer, isInitialized, port := false, false, 0;
      currentSong, currentLyric, currentProgress, currentPlayState := None, None, None, None;
      currentTime := 0;
      playbackSpeed := 1.0;
    }

    /** The `PlaybackSpeed` setter stores the value clamped to [0.1, 2.0]. */
    method SetPlaybackSpeed(v: real)
      requires Valid()
      modifies this
      ensures Valid() && playbackSpeed == ClampSpeed(v)
      ensures Now() == old(Now()) && currentTime == old(currentTime)
      ensures isInitialized == old(isInitialized) && hasServer == old(hasServer) && port == old(port)
    {
      playbackSpeed := ClampSpeed(v);
    }

    /**
     * `Update(deltaTime)`: only while the last play state is "resume", add
     * the frame's scaled milliseconds, truncated toward zero. Nothing else
     * changes, so the pushed progress stays as it was.
     */
    method Update(deltaTime: real)
      requires Valid()
      modifies this
      ensures Valid() && Now() == old(Now()) && playbackSpeed == old(playbackSpeed)
      ensures isInitialized == old(isInitialized) && hasServer == old(hasServer) && port == old(port)
      ensures var playing := currentPlayState.Some? && currentPlayState.value.IsPlaying();
        currentTime == Advance(old(currentTime), playing, playbackSpeed, deltaTime)
    {
      if !(currentPlayState.Some? && currentPlayState.value.IsPlaying()) {
        return;
      }
      var timeIncrement := deltaTime * 1000.0 * playbackSpeed;
      currentTime := currentTime + TruncateTowardZero(timeIncrement);
    }

    /** `OnProgressReceived`: a present progress resyncs the clock and is raised, with no initialisation guard. */
    method OnProgressReceived(progress: Option<ProgressData>) returns (fired: seq<ManagerEvent>)
      requires Valid()
      modifies this
      ensures Valid() && isInitialized == old(isInitialized) && hasServer == old(hasServer) && port == old(port)
      ensures progress.None? ==> unchanged(this) && fired == []
      ensures progress.Some? ==>
        currentTime == progress.value.time && Now() == old(Now()).(progress := progress)
        && fired == [ProgressUpdated(progress.value)]
    {
      if progress.None? {
        return [];
      }
      currentTime := progress.value.time;
      currentProgress := progress;
      fired := [ProgressUpdated(progress.value)];
    }

    /**
     * The handlers registered on the event source: nothing while not
     * initialised; otherwise the fields absorb the event, the clock resyncs
     * on a song (to 0) or a progress push, and the matching event is raised.
     */
    method Deliver(e: SourceEvent) returns (fired: seq<ManagerEvent>)
      requires Valid()
      modifies this
      ensures Valid() && isInitialized == old(isInitialized) && hasServer == old(hasServer) && port == old(port)
      ensures playbackSpeed == old(playbackSpeed)
      ensures !old(isInitialized) ==> unchanged(this) && fired == []
      ensures old(isInitialized) ==>
        Now() == Absorb(old(Now()), e) && currentTime == Resync(old(currentTime), e) && fired == [Forwarded(e)]
    {
      if !isInitialized {
        return [];
      }
      match e {
        case SongPushed(s) =>
          currentSong := Some(s);
          currentLyric := None;
          currentProgress := None;
          currentPlayState := None;
          ResetProgress();
        case LyricPushed(l) =>
          currentLyric := Some(l);
        case ProgressPushed(p) =>
          currentProgress := Some(p);
          currentTime := p.time;
        case StatePushed(s) =>
          currentPlayState := Some(s);
        case _ =>
      }
      fired := [Forwarded(e)];
    }

    method ResetProgress()
      modifies this
      ensures currentTime == 0
      ensures Now() == old(Now()) && playbackSpeed == old(playbackSpeed)
      ensures isInitialized == old(isInitialized) && hasServer == old(hasServer) && port == old(port)
    {
      currentTime := 0;
    }

    /** `Dispose`: release the event source and forget the four fields; the clock keeps its value. */
    method Dispose()
      requires Valid()
      modifies this
      ensures Valid() && !hasServer && !isInitialized && Now() == Nothing
      ensures currentTime == old(currentTime) && playbackSpeed == old(playbackSpeed) && port == old(port)
    {
      hasServer := false;
      isInitialized := false;
      currentSong, currentLyric, currentProgress, currentPlayState := None, None, None, None;
    }

    /**
     * `InitializeClient`: dispose what there is, create the event source
     * and start it, and only then mark the manager initialised, so whatever
     * the start raises synchronously (`startRaised`) is dropped. When
     * creating the source throws (`createError`), the error is raised and
     * the manager disposed.
     */
    method InitializeClient(createError: Option<string>, startRaised: seq<SourceEvent>)
      returns (fired: seq<ManagerEvent>)
      requires Valid()
      modifies this
      ensures Valid() && port == old(port) && Now().(progress := None) == Nothing
      ensures currentTime == old(currentTime) && playbackSpeed == old(playbackSpeed)
      ensures createError.Some? ==> !isInitialized && currentProgress.None? && fired == [Error(createError)]
      ensures createError.None? ==>
        isInitialized && fired == []
        && currentProgress == (if old(isInitialized) then None else old(currentProgress))
    {
      if isInitialized {
        Dispose();
      }
      if createError.Some? {
        fired := [Error(createError)];
        Dispose();
        return;
      }
      ghost var kept := currentProgress;
      var i := 0;
      while i < |startRaised|
        invariant 0 <= i <= |startRaised|
        invariant Valid() && !isInitialized && Now() == Nothing.(progress := kept) && port == old(port)
        invariant currentTime == old(currentTime) && playbackSpeed == old(playbackSpeed)
      {
        var dropped := Deliver(startRaised[i]);
        i := i + 1;
      }
      hasServer := true;
      isInitialized := true;
      fired := [];
    }

    /** `Initialize(port)`; 35010 is the port when the caller gives none. */
    method Initialize(newPort: int, createError: Option<string>, startRaised: seq<SourceEvent>)
      returns (fired: seq<ManagerEvent>)
      requires Valid()
      modifies this
      ensures Valid() && port == newPort && Now().(progress := None) == Nothing
      ensures currentTime == old(currentTime) && playbackSpeed == old(playbackSpeed)
      ensures isInitialized <==> createError.None?
      ensures old(isInitialized) ==> currentProgress.None?
      ensures old(currentProgress).None? ==> currentProgress.None?
      ensures createError.Some? ==> fired == [Error(createError)]
      ensures createError.None? ==> fired == []
    {
      port := newPort;
      fired := InitializeClient(createError, startRaised);
    }

    /** `UpdatePort`: nothing for the current port; otherwise re-initialise, which wipes the four fields. */
    method UpdatePort(newPort: int, createError: Option<string>, startRaised: seq<SourceEvent>)
      returns (fired: seq<ManagerEvent>)
      requires Valid()
      modifies this
      ensures Valid()
      ensures newPort == old(port) ==> unchanged(this) && fired == []
      ensures newPort != old(port) ==>
        port == newPort && Now().(progress := None) == Nothing && (isInitialized <==> createError.None?)
        && (old(isInitialized) ==> currentProgress.None?) && currentTime == old(currentTime)
        && fired == (if createError.Some? then [Error(createError)] else [])
    {
      if port == newPort {
        return [];
      }
      port := newPort;
      fired := InitializeClient(createError, startRaised);
    }

    /** The index of the current line, judged by the last pushed progress and not by the clock. */
    method GetCurrentLineIndex() returns (r: int)
      ensures r == LineIndex(currentLyric, currentProgress)
    {
      r := CurrentLineIndex(currentLyric, currentProgress);
    }

    /** `GetFormattedTime`: "0:00/0:00" without progress, else the pushed position and duration. */
    function GetFormattedTime(): (s: string)
      reads this
      ensures currentProgress.None? ==> s == "0:00/0:00"
    {
      FormattedTime(currentProgress)
    }

    /** `GetProgress`: 0 without progress, else position over duration. */
    function GetProgress(): (r: Ratio)
      reads this
      ensures currentProgress.None? ==> r == Finite(0.0)
    {
      ProgressRatio(currentProgress)
    }

    function GetCurrentTime(): int
      reads this
    {
      currentTime
    }
  }
}
