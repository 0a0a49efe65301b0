/**
 * The loopback HTTP endpoint the player posts to (`LyricClient`): its
 * start/stop/dispose lifecycle over `IsRunning` and `_disposed`, and the rule
 * that turns one request into at most one event and a status code.
 *
 * The listener itself is not modelled byte by byte: binding is an input
 * (it succeeds or fails with a message), a failure of the pending accept is an
 * input, and a request arrives already read and decoded.
 */
module Ingestion {
  import opened Wrappers
  import opened Decimal
  import opened SongModels
  import opened LyricModels
  import opened LyricMessages
  import opened Playback

  /* ---------- binding ---------- */

  const LoopbackScheme: string := "http://127.0.0.1:"

  /** The single prefix the listener binds: the IPv4 loopback address and the port. */
  function BindPrefix(port: int): (p: string)
    ensures |p| > |LoopbackScheme| && p[..|LoopbackScheme|] == LoopbackScheme && p[|p| - 1] == '/'
  {
    LoopbackScheme + ShowInt(port) + "/"
  }

  /** Different ports give different prefixes. */
  lemma BindPrefixInjective(a: int, b: int)
    requires BindPrefix(a) == BindPrefix(b)
    ensures a == b
  {
    var n := |LoopbackScheme|;
    assert ShowInt(a) == BindPrefix(a)[n..|BindPrefix(a)| - 1];
    assert ShowInt(b) == BindPrefix(b)[n..|BindPrefix(b)| - 1];
    ShowIntInjective(a, b);
  }

  /* ---------- lifecycle ---------- */

  /**
   * The listener state: `IsRunning`, `_disposed`, whether the listener has
   * been closed (`Stop` and `Dispose` close it, and a closed listener refuses
   * to start again), and whether the accept loop still has an accept pending.
   */
  datatype Lifecycle = Lifecycle(running: bool, disposed: bool, closed: bool, looping: bool)

  const Fresh: Lifecycle := Lifecycle(false, false, false, false)

  datatype Step = Step(next: Lifecycle, raised: seq<SourceEvent>)

  /**
   * `StartAsync` up to its accept loop. `bindError` is the message of the
   * exception `HttpListener.Start` throws on an open listener, if it throws;
   * `closedError` is the message of the exception it always throws on a
   * closed one (the runtime's disposed-object message).
   */
  function StartStep(l: Lifecycle, bindError: Option<string>, closedError: string): Step {
    if l.disposed || l.running then Step(l, [])
    else if l.closed then Step(l, [ErrorRaised(ErrorData(Some(closedError)))])
    else if bindError.Some? then Step(l, [ErrorRaised(ErrorData(bindError))])
    else Step(l.(running := true, looping := true), [Started])
  }

  /** `Stop`: only a running listener stops; it is closed afterwards. */
  function StopStep(l: Lifecycle): Step {
    if !l.running then Step(l, [])
    else Step(l.(running := false, closed := true), [Stopped])
  }

  /** `Dispose`: the first call marks the listener disposed, stops it and closes it. */
  function DisposeStep(l: Lifecycle): Step {
    if l.disposed then Step(l, [])
    else
      var s := StopStep(l);
      Step(s.next.(disposed := true, closed := true), s.raised)
  }

  /**
   * The accept loop's pending accept fails with `message`: its catch reports
   * the error unless disposed, its finally stops a listener still running,
   * and the loop is over.
   */
  function AcceptFailedStep(l: Lifecycle, message: string): Step {
    if !l.looping then Step(l, [])
    else
      var reported := if l.disposed then [] else [ErrorRaised(ErrorData(Some(message)))];
      var s := StopStep(l);
      Step(s.next.(looping := false), reported + s.raised)
  }

  /** What every reachable listener state satisfies. */
  predicate Coherent(l: Lifecycle) {
    (l.running ==> l.looping && !l.closed) && (l.disposed ==> l.closed)
  }

  datatype Op = StartOp(bindError: Option<string>, closedError: string) | StopOp | DisposeOp | AcceptFailedOp(message: string)

  function Apply(l: Lifecycle, op: Op): Step {
    match op
    case StartOp(e, c) => StartStep(l, e, c)
    case StopOp => StopStep(l)
    case DisposeOp => DisposeStep(l)
    case AcceptFailedOp(m) => AcceptFailedStep(l, m)
  }

  /** The state after a sequence of operations, and every event raised on the way, in order. */
  function Run(l: Lifecycle, ops: seq<Op>): Step {
    if ops == [] then Step(l, [])
    else
      var s := Run(l, ops[..|ops| - 1]);
      var t := Apply(s.next, ops[|ops| - 1]);
      Step(t.next, s.raised + t.raised)
  }

  function Count(es: seq<SourceEvent>, e: SourceEvent): nat {
    if es == [] then 0 else Count(es[..|es| - 1], e) + (if es[|es| - 1] == e then 1 else 0)
  }

  lemma {:induction false} CountAppend(a: seq<SourceEvent>, b: seq<SourceEvent>, e: SourceEvent)
    ensures Count(a + b, e) == Count(a, e) + Count(b, e)
    decreases |b|
  {
    if b == [] {
      assert a + b == a;
    } else {
      assert (a + b)[..|a + b| - 1] == a + b[..|b| - 1];
      CountAppend(a, b[..|b| - 1], e);
    }
  }

  /** A successful start raises `Started` once; a failed one raises only an error and leaves the listener stopped. */
  lemma StartOutcome(l: Lifecycle, bindError: Option<string>, closedError: string)
    requires !l.disposed && !l.running
    ensures var s := StartStep(l, bindError, closedError);
      (s.next.running <==> !l.closed && bindError.None?)
      && (s.next.running ==> s.raised == [Started])
      && (!s.next.running ==>
        s.raised == [ErrorRaised(ErrorData(Some(if l.closed then closedError else bindError.value)))])
  {
  }

  /** Stopping twice raises at most one `Stopped`; the second stop does nothing. */
  lemma StopIdempotent(l: Lifecycle)
    ensures StopStep(StopStep(l).next) == Step(StopStep(l).next, [])
    ensures |StopStep(l).raised| <= 1
  {
  }

  /** Every operation keeps a coherent state coherent. */
  lemma ApplyCoherent(l: Lifecycle, op: Op)
    requires Coherent(l)
    ensures Coherent(Apply(l, op).next)
  {
  }

  /** After `Dispose`, nothing the listener does raises any event and it never runs again. */
  lemma {:induction false} DisposeIsTerminal(l: Lifecycle, ops: seq<Op>)
    requires Coherent(l)
    ensures var d := DisposeStep(l).next; var r := Run(d, ops);
      r.raised == [] && r.next.disposed && !r.next.running
  {
    QuietAfterDispose(DisposeStep(l).next, ops);
  }

  lemma {:induction false} QuietAfterDispose(l: Lifecycle, ops: seq<Op>)
    requires l.disposed && !l.running
    ensures Run(l, ops).raised == [] && Run(l, ops).next.disposed && !Run(l, ops).next.running
  {
    if ops != [] {
      QuietAfterDispose(l, ops[..|ops| - 1]);
    }
  }

  /** Once stopped, the listener can never be started again: a later start only reports an error. */
  lemma {:induction false} NoRestartAfterStop(l: Lifecycle, ops: seq<Op>)
    requires l.running
    ensures var r := Run(StopStep(l).next, ops);
      Count(r.raised, Started) == 0 && !r.next.running
  {
    NeverStartsWhenClosed(StopStep(l).next, ops);
  }

  lemma {:induction false} NeverStartsWhenClosed(l: Lifecycle, ops: seq<Op>)
    requires l.closed && !l.running
    ensures Count(Run(l, ops).raised, Started) == 0
    ensures Run(l, ops).next.closed && !Run(l, ops).next.running
  {
    if ops != [] {
      var s := Run(l, ops[..|ops| - 1]);
      NeverStartsWhenClosed(l, ops[..|ops| - 1]);
      var t := Apply(s.next, ops[|ops| - 1]);
      ClosedStepQuiet(s.next, ops[|ops| - 1]);
      CountAppend(s.raised, t.raised, Started);
    }
  }

  /** One operation on a closed, stopped listener raises no `Started` and leaves it closed and stopped. */
  lemma ClosedStepQuiet(l: Lifecycle, op: Op)
    requires l.closed && !l.running
    ensures Count(Apply(l, op).raised, Started) == 0
    ensures Apply(l, op).next.closed && !Apply(l, op).next.running
  {
    var t := Apply(l, op);
    assert |t.raised| <= 1 && (t.raised != [] ==> t.raised[0] != Started);
    if t.raised != [] {
      CountOne(t.raised[0], Started);
      assert t.raised == [t.raised[0]];
    }
  }

  /** What holds between the events raised so far and the listener state, from a fresh listener on. */
  ghost predicate Accounted(r: Step) {
    var started := Count(r.raised, Started);
    var stopped := Count(r.raised, Stopped);
    started <= 1
    && stopped + (if r.next.running then 1 else 0) == started
    && (r.next.running ==> !r.next.closed)
    && (started == 1 ==> r.next.running || r.next.closed)
  }

  lemma CountOne(x: SourceEvent, e: SourceEvent)
    ensures Count([x], e) == if x == e then 1 else 0
  {
    assert [x][..0] == [];
  }

  lemma CountTwo(x: SourceEvent, y: SourceEvent, e: SourceEvent)
    ensures Count([x, y], e) == (if x == e then 1 else 0) + (if y == e then 1 else 0)
  {
    assert [x, y][..1] == [x];
    CountOne(x, e);
  }

  /** One operation raises `Started` exactly when it starts the listener and `Stopped` exactly when it stops it. */
  lemma ApplyCounts(l: Lifecycle, op: Op)
    requires Coherent(l)
    ensures var t := Apply(l, op);
      Count(t.raised, Started) == (if !l.running && t.next.running then 1 else 0)
      && Count(t.raised, Stopped) == (if l.running && !t.next.running then 1 else 0)
      && (l.closed ==> t.next.closed) && (l.running && !t.next.running ==> t.next.closed)
      && (!l.running && t.next.running ==> !l.closed)
  {
    var t := Apply(l, op);
    match op
    case StartOp(e, c) =>
      if t.raised != [] {
        CountOne(t.raised[0], Started);
        CountOne(t.raised[0], Stopped);
      }
    case StopOp =>
      if t.raised != [] {
        CountOne(t.raised[0], Started);
        CountOne(t.raised[0], Stopped);
      }
    case DisposeOp =>
      if t.raised != [] {
        CountOne(t.raised[0], Started);
        CountOne(t.raised[0], Stopped);
      }
    case AcceptFailedOp(m) =>
      if |t.raised| == 1 {
        CountOne(t.raised[0], Started);
        CountOne(t.raised[0], Stopped);
      } else if |t.raised| == 2 {
        CountTwo(t.raised[0], t.raised[1], Started);
        CountTwo(t.raised[0], t.raised[1], Stopped);
      }
  }

  /** One operation keeps the events raised so far accounted for. */
  lemma ApplyAccounted(s: Step, op: Op)
    requires Accounted(s) && Coherent(s.next)
    ensures var t := Apply(s.next, op); Accounted(Step(t.next, s.raised + t.raised))
  {
    var t := Apply(s.next, op);
    CountAppend(s.raised, t.raised, Started);
    CountAppend(s.raised, t.raised, Stopped);
    ApplyCounts(s.next, op);
    ApplyCoherent(s.next, op);
  }

  /**
   * Over the whole life of one listener, `Started` is raised at most once and
   * every `Stopped` answers an earlier `Started`.
   */
  lemma {:induction false} StartedAtMostOnce(ops: seq<Op>)
    ensures Accounted(Run(Fresh, ops)) && Coherent(Run(Fresh, ops).next)
    ensures Count(Run(Fresh, ops).raised, Stopped) <= Count(Run(Fresh, ops).raised, Started) <= 1
  {
    if ops != [] {
      var s := Run(Fresh, ops[..|ops| - 1]);
      StartedAtMostOnce(ops[..|ops| - 1]);
      ApplyAccounted(s, ops[|ops| - 1]);
      ApplyCoherent(s.next, ops[|ops| - 1]);
    }
  }

  /* ---------- requests ---------- */

  /**
   * What the JSON decoder makes of a posted body: the envelope's `type` tag
   * (absent when the JSON has none) or the decoder's exception, and for each
   * typed message the decoded `data` or the exception.
   */
  datatype Body = Body(
    tag: Result<Option<string>>,
    song: Result<SongInfo>,
    lyric: Result<LyricData>,
    progress: Result<ProgressData>,
    state: Result<PlayStateData>,
    error: Result<ErrorData>)

  /** A request: its local path, its method, and its body as read (or the read's exception). */
  datatype Request = Request(path: string, httpMethod: string, body: Result<Body>)

  /** No status at all (the request is dropped), or the status code set on the response. */
  datatype Answer = Unanswered | Status(code: int)

  datatype Handled = Handled(raised: seq<SourceEvent>, answer: Answer)

  /**
   * The catch block: report the exception unless disposed by then, and set
   * `code` as the status. The response was declared with `using` inside the
   * `try`, so it is already closed when the catch runs: it went out with the
   * status it had, the default 200, and setting a code on the closed
   * response throws into the empty inner catch. `Route` passes that 200;
   * `RouteIntended` passes the 500 the catch means to send.
   */
  function Failed(disposed: bool, message: string, code: int): Handled {
    Handled(if disposed then [] else [ErrorRaised(ErrorData(Some(message)))], Status(code))
  }

  /** A typed message: raise its event, or fail like the catch block when its data does not decode. */
  function Typed<T>(data: Result<T>, event: T -> SourceEvent, failCode: int): Handled {
    match data
    case Success(v) => Handled([event(v)], Status(200))
    case Failure(m) => Failed(false, m, failCode)
  }

  /** `HandleRequestAsync` with `failCode` as the status the catch block ends up sending. */
  function Dispatch(disposedBefore: bool, disposedAfter: bool, req: Request, failCode: int): Handled {
    if disposedBefore then Handled([], Unanswered)
    else if req.path == "/ping" then Handled([], Status(200))
    else if req.httpMethod != "POST" then Handled([], Status(200))
    else match req.body
      case Failure(m) => Failed(disposedAfter, m, failCode)
      case Success(b) =>
        if disposedAfter then Handled([], Status(200))
        else match b.tag
          case Failure(m) => Failed(false, m, failCode)
          case Success(tag) =>
            if tag == Some(SongTag) then Typed(b.song, s => SongPushed(s), failCode)
            else if tag == Some(LyricTag) then Typed(b.lyric, l => LyricPushed(l), failCode)
            else if tag == Some(ProgressTag) then Typed(b.progress, p => ProgressPushed(p), failCode)
            else if tag == Some(StateTag) then Typed(b.state, s => StatePushed(s), failCode)
            else if tag == Some(ErrorTag) then Typed(b.error, d => ErrorRaised(d), failCode)
            else Handled([], Status(200))
  }

  /**
   * `HandleRequestAsync` as written. `disposedBefore` is `_disposed` when
   * the request is taken up, `disposedAfter` is `_disposed` once the body
   * has been read. A failure is answered 200, like a success.
   */
  function Route(disposedBefore: bool, disposedAfter: bool, req: Request): Handled {
    Dispatch(disposedBefore, disposedAfter, req, 200)
  }

  /** `HandleRequestAsync` as its catch block intends it: a failure is answered 500. */
  function RouteIntended(disposedBefore: bool, disposedAfter: bool, req: Request): Handled {
    Dispatch(disposedBefore, disposedAfter, req, 500)
  }

  /** The decode error of the typed message a known tag selects, if that message does not decode. */
  function TypedFailure(b: Body): Option<string> {
    if b.tag == Success(Some(SongTag)) && b.song.Failure? then Some(b.song.error)
    else if b.tag == Success(Some(LyricTag)) && b.lyric.Failure? then Some(b.lyric.error)
    else if b.tag == Success(Some(ProgressTag)) && b.progress.Failure? then Some(b.progress.error)
    else if b.tag == Success(Some(StateTag)) && b.state.Failure? then Some(b.state.error)
    else if b.tag == Success(Some(ErrorTag)) && b.error.Failure? then Some(b.error.error)
    else None
  }

  /**
   * Whether handling throws into the catch block: the body cannot be read,
   * or (still not disposed) its envelope or its typed message cannot be
   * decoded.
   */
  predicate ReachesCatch(disposedBefore: bool, disposedAfter: bool, req: Request) {
    !disposedBefore && req.path != "/ping" && req.httpMethod == "POST"
    && (req.body.Failure?
        || (!disposedAfter && (req.body.value.tag.Failure? || TypedFailure(req.body.value).Some?)))
  }

  /** Every request raises at most one event; one that reaches the catch block raises at most an error report. */
  lemma RouteRaisesAtMostOne(disposedBefore: bool, disposedAfter: bool, req: Request)
    ensures var h := Route(disposedBefore, disposedAfter, req);
      |h.raised| <= 1
      && (ReachesCatch(disposedBefore, disposedAfter, req) ==> forall e :: e in h.raised ==> e.ErrorRaised?)
      && (h.answer.Unanswered? <==> disposedBefore)
  {
    TagsDistinct();
  }

  /** "/ping" answers 200 and raises nothing, whatever the method and the body. */
  lemma PingAnswers(disposedAfter: bool, req: Request)
    requires req.path == "/ping"
    ensures Route(false, disposedAfter, req) == Handled([], Status(200))
  {
  }

  /** A request taken up after dispose is dropped: no event, no status. */
  lemma DisposedDrops(disposedAfter: bool, req: Request)
    ensures Route(true, disposedAfter, req) == Handled([], Unanswered)
  {
  }

  /** A POST with a known tag whose data decodes raises exactly the matching event and answers 200. */
  lemma KnownTagDispatch(req: Request)
    requires req.path != "/ping" && req.httpMethod == "POST"
    requires req.body.Success? && req.body.value.tag.Success?
    ensures var b := req.body.value; var tag := b.tag.value; var h := Route(false, false, req);
      (tag == Some(SongTag) && b.song.Success? ==> h == Handled([SongPushed(b.song.value)], Status(200)))
      && (tag == Some(LyricTag) && b.lyric.Success? ==> h == Handled([LyricPushed(b.lyric.value)], Status(200)))
      && (tag == Some(ProgressTag) && b.progress.Success? ==> h == Handled([ProgressPushed(b.progress.value)], Status(200)))
      && (tag == Some(StateTag) && b.state.Success? ==> h == Handled([StatePushed(b.state.value)], Status(200)))
      && (tag == Some(ErrorTag) && b.error.Success? ==> h == Handled([ErrorRaised(b.error.value)], Status(200)))
  {
    TagsDistinct();
  }

  /** An unknown or missing tag, or any method other than POST, raises nothing and still answers 200. */
  lemma UnknownIgnored(req: Request)
    requires req.path != "/ping"
    requires req.httpMethod != "POST"
      || (req.body.Success? && req.body.value.tag.Success?
          && (req.body.value.tag.value.None? || !IsKnownTag(req.body.value.tag.value.value)))
    ensures Route(false, false, req) == Handled([], Status(200))
  {
  }

  /**
   * Every way into the catch block, as written: the exception is reported
   * unless disposed meanwhile, and the answer is 200, the same status a
   * handled message gets.
   */
  lemma FailureAnswers200(disposedAfter: bool, req: Request)
    requires req.path != "/ping" && req.httpMethod == "POST"
    ensures var h := Route(false, disposedAfter, req);
      (req.body.Failure? ==>
        h == Handled(if disposedAfter then [] else [ErrorRaised(ErrorData(Some(req.body.error)))], Status(200)))
      && (req.body.Success? && !disposedAfter && req.body.value.tag.Failure? ==>
        h == Handled([ErrorRaised(ErrorData(Some(req.body.value.tag.error)))], Status(200)))
      && (req.body.Success? && !disposedAfter && TypedFailure(req.body.value).Some? ==>
        h == Handled([ErrorRaised(ErrorData(TypedFailure(req.body.value)))], Status(200)))
  {
    TagsDistinct();
  }

  /** A body that cannot be read gets the same answer as "/ping": the caller cannot tell the failure apart. */
  lemma FailureLooksLikeSuccess()
    ensures Route(false, false, Request("/", "POST", Failure("unreadable"))).answer
      == Route(false, false, Request("/ping", "GET", Failure("unreadable"))).answer
      == Status(200)
  {
  }

  /**
   * The intended answer: 500 exactly for the requests that reach the catch
   * block, with the same events raised as written.
   */
  lemma IntendedFailureAnswers500(disposedBefore: bool, disposedAfter: bool, req: Request)
    ensures RouteIntended(disposedBefore, disposedAfter, req).raised == Route(disposedBefore, disposedAfter, req).raised
    ensures RouteIntended(disposedBefore, disposedAfter, req).answer == Status(500)
      <==> ReachesCatch(disposedBefore, disposedAfter, req)
  {
    TagsDistinct();
  }

  /* ---------- the listener object ---------- */

  class LyricClient {
    const port: int
    const prefix: string
    var isRunning: bool
    var disposed: bool
    var closed: bool
    var looping: bool

    function State(): Lifecycle
      reads this
    {
      Lifecycle(isRunning, disposed, closed, looping)
    }

    /** The listener is created with the single loopback prefix for `port`, not yet started. */
    constructor (port: int)
      ensures this.port == port && prefix == BindPrefix(port)
      ensures State() == Fresh
    {
      this.port := port;
      prefix := BindPrefix(port);
      isRunning, disposed, closed, looping := false, false, false, false;
    }

    method StartAsync(bindError: Option<string>, closedError: string) returns (raised: seq<SourceEvent>)
      modifies this
      ensures State() == StartStep(old(State()), bindError, closedError).next
      ensures raised == StartStep(old(State()), bindError, closedError).raised
    {
      raised := [];
      if disposed || isRunning {
        return;
      }
      if closed {
        raised := [ErrorRaised(ErrorData(Some(closedError)))];
        return;
      }
      if bindError.Some? {
        raised := [ErrorRaised(ErrorData(bindError))];
        return;
      }
      isRunning := true;
      raised := [Started];
      looping := true;
    }

    method Stop() returns (raised: seq<SourceEvent>)
      modifies this
      ensures State() == StopStep(old(State())).next
      ensures raised == StopStep(old(State())).raised
    {
      raised := [];
      if !isRunning {
        return;
      }
      isRunning := false;
      raised := [Stopped];
      closed := true;
    }

    method Dispose() returns (raised: seq<SourceEvent>)
      modifies this
      ensures State() == DisposeStep(old(State())).next
      ensures raised == DisposeStep(old(State())).raised
    {
      raised := [];
      if disposed {
        return;
      }
      disposed := true;
      raised := Stop();
      closed := true;
    }

    /** The accept loop's pending `GetContextAsync` fails with `message`. */
    method AcceptFailed(message: string) returns (raised: seq<SourceEvent>)
      modifies this
      ensures State() == AcceptFailedStep(old(State()), message).next
      ensures raised == AcceptFailedStep(old(State()), message).raised
    {
      raised := [];
      if !looping {
        return;
      }
      if !disposed {
        raised := [ErrorRaised(ErrorData(Some(message)))];
      }
      var stopped := Stop();
      raised := raised + stopped;
      looping := false;
    }

    /** One request, taken up and finished while `_disposed` keeps its current value. */
    method HandleRequest(req: Request) returns (h: Handled)
      ensures h == Route(disposed, disposed, req)
    {
      if disposed {
        return Handled([], Unanswered);
      }
      h := Route(false, false, req);
    }
  }
}
