/**
 * The runtime-side manager that owns a `LyricClient` endpoint: it keeps the
 * four "now playing" fields, forwards the endpoint's events to its own
 * subscribers once initialised, and rebuilds the endpoint on a port change.
 * It has no clock; its queries read the last pushed progress.
 */
module ClientManager {
  import opened Wrappers
  import opened SongModels
  import opened LyricModels
  import opened Playback
  import opened Readouts
  import Ingestion

  class LyricManager {
    var client: Ingestion.LyricClient?
    var isInitialized: bool
    var port: int
    var currentSong: Option<SongInfo>
    var currentLyric: Option<LyricData>
    var currentProgress: Option<ProgressData>
    var currentPlayState: Option<PlayStateData>

    function Now(): NowPlaying
      reads this
    {
      NowPlaying(currentSong, currentLyric, currentProgress, currentPlayState)
    }

    /**
     * Initialised exactly while it owns an endpoint, holding nothing while
     * not initialised, and the endpoint's state is one it can reach.
     */
    ghost predicate Valid()
      reads this, client
    {
      (isInitialized <==> client != null) && (!isInitialized ==> Now() == Nothing)
      && (client != null ==> Ingestion.Coherent(client.State()))
    }

    constructor ()
      ensures Valid() && !isInitialized && port == 0 && Now() == Nothing
    {
      client := null;
      isInitialized := false;
      port := 0;
      currentSong, currentLyric, currentProgress, currentPlayState := None, None, None, None;
    }

    /** `IsConnected`: false without an endpoint, else whether the endpoint runs. */
    function IsConnected(): (r: bool)
      reads this, client
      ensures r ==> client != null && client.isRunning
    {
      client != null && client.isRunning
    }

    /**
     * `Initialize(port)`. `createError` is the exception creating the
     * endpoint throws, if any (an invalid port makes the prefix invalid);
     * `bindError` is the exception its listener throws when it starts, if any.
     */
    method Initialize(newPort: int, createError: Option<string>, bindError: Option<string>)
      returns (fired: seq<ManagerEvent>)
      requires Valid()
      modifies this, client
      ensures Valid() && port == newPort && Now() == Nothing
      ensures createError.Some? ==> !isInitialized && fired == [Error(createError)]
      ensures createError.None? ==>
        isInitialized && fresh(client) && client.port == newPort
        && client.State() == (if bindError.None? then Ingestion.Lifecycle(true, false, false, true) else Ingestion.Fresh) && fired == []
    {
      port := newPort;
      fired := InitializeClient(createError, bindError);
    }

    /**
     * `InitializeClient`: dispose what there is, create the endpoint, start
     * it, and only then mark the manager initialised. Everything the start
     * raises reaches the handlers while `_isInitialized` is still false, so
     * it is dropped: a started notification is never forwarded.
     */
    method InitializeClient(createError: Option<string>, bindError: Option<string>)
      returns (fired: seq<ManagerEvent>)
      requires Valid()
      modifies this, client
      ensures Valid() && port == old(port) && Now() == Nothing
      ensures old(client) != null ==> old(client).disposed
      ensures createError.Some? ==> !isInitialized && fired == [Error(createError)]
      ensures createError.None? ==>
        isInitialized && fresh(client) && client.port == port
        && client.State() == (if bindError.None? then Ingestion.Lifecycle(true, false, false, true) else Ingestion.Fresh) && fired == []
    {
      if isInitialized {
        Dispose();
      }
      if createError.Some? {
        fired := [Error(createError)];
        Dispose();
        return;
      }
      var c := new Ingestion.LyricClient(port);
      // A new listener is not closed, so the closed-listener message is never raised.
      var raised := c.StartAsync(bindError, "");
      var swallowed := DeliverAll(raised);
      assert swallowed == [];
      client := c;
      isInitialized := true;
      fired := [];
    }

    /** `UpdatePort`: nothing for the current port; otherwise re-initialise, which wipes all state. */
    method UpdatePort(newPort: int, createError: Option<string>, bindError: Option<string>)
      returns (fired: seq<ManagerEvent>)
      requires Valid()
      modifies this, client
      ensures Valid()
      ensures newPort == old(port) ==> fired == [] && unchanged(this) && (client != null ==> unchanged(client))
      ensures newPort != old(port) ==>
        port == newPort && Now() == Nothing && (isInitialized <==> createError.None?)
        && fired == (if createError.Some? then [Error(createError)] else [])
    {
      if port == newPort {
        return [];
      }
      port := newPort;
      fired := InitializeClient(createError, bindError);
    }

    /**
     * The handlers registered on the endpoint: each does nothing while the
     * manager is not initialised; otherwise the fields absorb the event and
     * the matching manager event is raised.
     */
    method Deliver(e: SourceEvent) returns (fired: seq<ManagerEvent>)
      requires Valid()
      modifies this
      ensures Valid() && client == old(client) && isInitialized == old(isInitialized) && port == old(port)
      ensures !old(isInitialized) ==> Now() == old(Now()) && fired == []
      ensures old(isInitialized) ==> Now() == Absorb(old(Now()), e) && fired == [Forwarded(e)]
    {
      if !isInitialized {
        return [];
      }
      match e {
        case SongPushed(s) =>
          currentSong := Some(s);
          currentLyric := None;
          currentProgress := None;
          currentPlayState := None;
        case LyricPushed(l) =>
          currentLyric := Some(l);
        case ProgressPushed(p) =>
          currentProgress := Some(p);
        case StatePushed(s) =>
          currentPlayState := Some(s);
        case _ =>
      }
      fired := [Forwarded(e)];
    }

    /** The handlers applied to several events in the order the endpoint raised them. */
    method DeliverAll(es: seq<SourceEvent>) returns (fired: seq<ManagerEvent>)
      requires Valid()
      modifies this
      ensures Valid() && client == old(client) && isInitialized == old(isInitialized) && port == old(port)
      ensures !old(isInitialized) ==> Now() == old(Now()) && fired == []
      ensures old(isInitialized) ==> Now() == AbsorbAll(old(Now()), es) && fired == ForwardAll(es)
    {
      fired := [];
      var i := 0;
      while i < |es|
        invariant 0 <= i <= |es|
        invariant Valid() && client == old(client) && isInitialized == old(isInitialized) && port == old(port)
        invariant !old(isInitialized) ==> Now() == old(Now()) && fired == []
        invariant old(isInitialized) ==> Now() == AbsorbAll(old(Now()), es[..i]) && fired == ForwardAll(es[..i])
      {
        assert es[..i + 1][..i] == es[..i];
        var f := Deliver(es[i]);
        fired := fired + f;
        i := i + 1;
      }
      assert es[..|es|] == es;
    }

    /** A request reaches the endpoint, whose raised events go through the handlers. */
    method Receive(req: Ingestion.Request) returns (h: Ingestion.Handled, fired: seq<ManagerEvent>)
      requires Valid()
      modifies this
      ensures Valid() && client == old(client) && isInitialized == old(isInitialized)
      ensures client == null ==> h == Ingestion.Handled([], Ingestion.Unanswered) && fired == [] && Now() == old(Now())
      ensures client != null ==>
        h == Ingestion.Route(client.disposed, client.disposed, req) && Now() == AbsorbAll(old(Now()), h.raised)
        && fired == ForwardAll(h.raised)
    {
      if client == null {
        return Ingestion.Handled([], Ingestion.Unanswered), [];
      }
      h := client.HandleRequest(req);
      fired := DeliverAll(h.raised);
    }

    /** `Dispose`: release the endpoint and forget everything; a second call is harmless. */
    method Dispose()
      requires Valid()
      modifies this, client
      ensures Valid() && client == null && !isInitialized && port == old(port) && Now() == Nothing
      ensures old(client) != null ==> old(client).disposed && !old(client).isRunning
    {
      if client != null {
        // The handlers are unregistered first, so what the endpoint raises here goes nowhere.
        var ignored := client.Dispose();
        client := null;
      }
      isInitialized := false;
      currentSong, currentLyric, currentProgress, currentPlayState := None, None, None, None;
    }

    method GetCurrentLineIndex() returns (r: int)
      ensures r == LineIndex(currentLyric, currentProgress)
    {
      r := CurrentLineIndex(currentLyric, currentProgress);
    }

    /** `GetFormattedTime`: "0:00/0:00" without progress, else the pushed position and duration. */
    function GetFormattedTime(): (s: string)
      reads this
      ensures currentProgress.None? ==> s == "0:00/0:00"
    {
      FormattedTime(currentProgress)
    }

    /** `GetProgress`: 0 without progress, else position over duration. */
    function GetProgress(): (r: Ratio)
      reads this
      ensures currentProgress.None? ==> r == Finite(0.0)
    {
      ProgressRatio(currentProgress)
    }
  }
}
