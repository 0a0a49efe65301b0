/**
 * The events that flow from the ingestion endpoint to a manager, the events a
 * manager raises in turn, and the rule by which a manager's four "now
 * playing" fields absorb an event. Both managers (the runtime client one and
 * the server one) apply the same rule.
 */
module Playback {
  import opened Wrappers
  import opened SongModels
  import opened LyricModels
  import opened LyricMessages

  /** An event of the endpoint (`OnServerStarted`, `OnServerStopped`, `OnError`, and the four typed pushes). */
  datatype SourceEvent =
    | Started
    | Stopped
    | ErrorRaised(error: ErrorData)
    | SongPushed(song: SongInfo)
    | LyricPushed(lyric: LyricData)
    | ProgressPushed(progress: ProgressData)
    | StatePushed(state: PlayStateData)

  /** An event a manager raises to its subscribers. */
  datatype ManagerEvent =
    | Connected
    | Disconnected
    | Error(message: Option<string>)
    | SongChanged(song: SongInfo)
    | LyricReceived(lyric: LyricData)
    | ProgressUpdated(progress: ProgressData)
    | PlayStateChanged(state: PlayStateData)

  /** What an initialised manager raises for an endpoint event. */
  function Forwarded(e: SourceEvent): (m: ManagerEvent)
    ensures e.SongPushed? <==> m.SongChanged?
    ensures e.LyricPushed? <==> m.LyricReceived?
    ensures e.ProgressPushed? <==> m.ProgressUpdated?
    ensures e.StatePushed? <==> m.PlayStateChanged?
    ensures e.SongPushed? ==> m.song == e.song
    ensures e.LyricPushed? ==> m.lyric == e.lyric
    ensures e.ProgressPushed? ==> m.progress == e.progress
    ensures e.StatePushed? ==> m.state == e.state
    ensures e.ErrorRaised? <==> m.Error?
    ensures e.ErrorRaised? ==> m.message == e.error.message
    ensures e == Started <==> m == Connected
    ensures e == Stopped <==> m == Disconnected
  {
    match e
    case Started => Connected
    case Stopped => Disconnected
    case ErrorRaised(d) => Error(d.message)
    case SongPushed(s) => SongChanged(s)
    case LyricPushed(l) => LyricReceived(l)
    case ProgressPushed(p) => ProgressUpdated(p)
    case StatePushed(s) => PlayStateChanged(s)
  }

  /** Distinct endpoint events are raised as distinct manager events: nothing is merged. */
  lemma ForwardedInjective(a: SourceEvent, b: SourceEvent)
    requires Forwarded(a) == Forwarded(b)
    ensures a == b
  {
  }

  /** The manager events raised for a sequence of endpoint events, one for one. */
  function ForwardAll(es: seq<SourceEvent>): (r: seq<ManagerEvent>)
    ensures |r| == |es|
  {
    if es == [] then [] else ForwardAll(es[..|es| - 1]) + [Forwarded(es[|es| - 1])]
  }

  /** Each endpoint event is forwarded at its own position. */
  lemma {:induction false} ForwardAllAt(es: seq<SourceEvent>, k: nat)
    requires k < |es|
    ensures ForwardAll(es)[k] == Forwarded(es[k])
    decreases |es|
  {
    if k < |es| - 1 {
      ForwardAllAt(es[..|es| - 1], k);
    }
  }

  lemma {:induction false} ForwardAllAppend(a: seq<SourceEvent>, b: seq<SourceEvent>)
    ensures ForwardAll(a + b) == ForwardAll(a) + ForwardAll(b)
    decreases |b|
  {
    if b == [] {
      assert a + b == a;
    } else {
      assert (a + b)[..|a + b| - 1] == a + b[..|b| - 1];
      ForwardAllAppend(a, b[..|b| - 1]);
    }
  }

  lemma ForwardSingle(e: SourceEvent)
    ensures ForwardAll([e]) == [Forwarded(e)]
  {
    assert [e][..0] == [];
  }

  /** `CurrentSong`, `CurrentLyric`, `CurrentProgress` and `CurrentPlayState`. */
  datatype NowPlaying = NowPlaying(
    song: Option<SongInfo>,
    lyric: Option<LyricData>,
    progress: Option<ProgressData>,
    playState: Option<PlayStateData>)

  const Nothing: NowPlaying := NowPlaying(None, None, None, None)

  /**
   * How the four fields absorb one event: a new song replaces the song and
   * forgets lyric, progress and play state; the other pushes replace their
   * own field only; connection events and errors change nothing.
   */
  function Absorb(np: NowPlaying, e: SourceEvent): NowPlaying {
    match e
    case SongPushed(s) => NowPlaying(Some(s), None, None, None)
    case LyricPushed(l) => np.(lyric := Some(l))
    case ProgressPushed(p) => np.(progress := Some(p))
    case StatePushed(s) => np.(playState := Some(s))
    case _ => np
  }

  /** The fields after a whole sequence of events, oldest first. */
  function AbsorbAll(np: NowPlaying, es: seq<SourceEvent>): NowPlaying {
    if es == [] then np else Absorb(AbsorbAll(np, es[..|es| - 1]), es[|es| - 1])
  }

  /**
   * A field's value judged from the history alone: the value written by the
   * latest event that writes the field (`pick` says what, if anything, an
   * event writes), or `init` when no event does.
   */
  function Latest<T>(init: Option<T>, es: seq<SourceEvent>, pick: SourceEvent -> Option<Option<T>>): Option<T> {
    if es == [] then init
    else match pick(es[|es| - 1])
      case Some(v) => v
      case None => Latest(init, es[..|es| - 1], pick)
  }

  function WritesSong(e: SourceEvent): Option<Option<SongInfo>> {
    if e.SongPushed? then Some(Some(e.song)) else None
  }

  function WritesLyric(e: SourceEvent): Option<Option<LyricData>> {
    if e.SongPushed? then Some(None) else if e.LyricPushed? then Some(Some(e.lyric)) else None
  }

  function WritesProgress(e: SourceEvent): Option<Option<ProgressData>> {
    if e.SongPushed? then Some(None) else if e.ProgressPushed? then Some(Some(e.progress)) else None
  }

  function WritesPlayState(e: SourceEvent): Option<Option<PlayStateData>> {
    if e.SongPushed? then Some(None) else if e.StatePushed? then Some(Some(e.state)) else None
  }

  /**
   * Last writer wins, field by field: after any history, each field holds
   * what the latest event writing it wrote, where a song change writes
   * "absent" into lyric, progress and play state.
   */
  lemma {:induction false} AbsorbAllIsLatest(np: NowPlaying, es: seq<SourceEvent>)
    ensures AbsorbAll(np, es) == NowPlaying(
      Latest(np.song, es, WritesSong),
      Latest(np.lyric, es, WritesLyric),
      Latest(np.progress, es, WritesProgress),
      Latest(np.playState, es, WritesPlayState))
  {
    if es != [] {
      AbsorbAllIsLatest(np, es[..|es| - 1]);
    }
  }

  /** A song change makes the earlier history irrelevant. */
  lemma {:induction false} SongChangeForgets(np: NowPlaying, es: seq<SourceEvent>, k: nat)
    requires k < |es| && es[k].SongPushed?
    ensures AbsorbAll(np, es) == AbsorbAll(NowPlaying(Some(es[k].song), None, None, None), es[k + 1..])
    decreases |es|
  {
    if k == |es| - 1 {
      assert es[k + 1..] == [];
    } else {
      assert es[..|es| - 1][k + 1..] == es[k + 1..][..|es[k + 1..]| - 1];
      SongChangeForgets(np, es[..|es| - 1], k);
    }
  }
}
