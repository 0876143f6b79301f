/**
 * The event dispatcher of `IoServer`: it turns the transport's connect, data,
 * end and error events into calls on the application, keeping one decorator
 * per connection.
 */
module IoServer {
  import opened Wrappers
  import opened Connection
  import opened Application
  import opened Transport

  /** The React event loop handed to the constructor; its internals are not modelled. */
  datatype Loop = Loop(name: string)

  /**
   * The dispatcher's state. `decor` maps a stream id to the decorator the
   * server attached to that connection; `subscribed` holds the streams whose
   * data, end and error events reach the server's handlers.
   */
  datatype Server = Server(loop: Option<Loop>, decor: map<int, Decor>, subscribed: set<int>)

  /**
   * Whether handling an event finished normally or let an exception escape.
   * `Undefined` marks an event whose handling the server leaves undefined:
   * data, end or error on a subscribed stream whose decorator is gone.
   */
  datatype Outcome = Normal | Escaped(e: Exn) | Undefined

  /** The result of handling one event: new state, the calls made, and the outcome. */
  datatype Step = Step(server: Server, calls: seq<Call>, outcome: Outcome)

  /** What `run()` does: enter the loop, or fail because there is none. */
  datatype RunResult = Looping(loop: Loop) | RuntimeException(message: string)

  /** Every decorator is filed under the stream id it carries. */
  predicate Keyed(s: Server)
  {
    forall k :: k in s.decor ==> s.decor[k].resourceId == k
  }

  /**
   * The constructor: remembers the loop, listens for new connections and
   * prepares the data, end and error handlers. No connection is known yet.
   */
  function Construct(loop: Option<Loop>): (s: Server)
    ensures s.loop == loop
    ensures forall k :: k !in s.decor && k !in s.subscribed
    ensures Keyed(s)
  {
    Server(loop, map[], {})
  }

  /** `run()`: refuses to start without a loop, otherwise hands control to the loop. */
  method Run(s: Server) returns (r: RunResult)
    ensures r.RuntimeException? <==> s.loop.None?
    ensures r.RuntimeException? ==> r.message == "A React Loop was not provided during instantiation"
    ensures r.Looping? ==> r.loop == s.loop.value
  {
    if s.loop.None? {
      return RuntimeException("A React Loop was not provided during instantiation");
    }
    return Looping(s.loop.value);
  }

  /**
   * `handleConnect`: attach a decorator carrying the stream id and the remote
   * address, call `onOpen` with it, and only when `onOpen` returns subscribe
   * the connection's data, end and error events. An exception from `onOpen`
   * is not caught; the decorator stays attached.
   */
  function HandleConnect(app: App, s: Server, clock: nat, c: RawConn): (r: Step)
    ensures c.stream in r.server.decor
    ensures r.server.decor[c.stream].resourceId == c.stream
    ensures r.server.decor[c.stream].remoteAddress == c.remoteAddress
    ensures r.calls == [OnOpen(r.server.decor[c.stream])]
    ensures r.server.decor == s.decor[c.stream := r.server.decor[c.stream]]
    ensures app(clock, r.calls[0]).Returns? ==>
      r.outcome == Normal && r.server.subscribed == s.subscribed + {c.stream}
    ensures app(clock, r.calls[0]).Throws? ==>
      r.outcome == Escaped(app(clock, r.calls[0]).e) && r.server.subscribed == s.subscribed
    ensures r.server.loop == s.loop
  {
    var d := Decorate(c);
    var attached := s.(decor := s.decor[c.stream := d]);
    match app(clock, OnOpen(d))
    case Returns => Step(attached.(subscribed := attached.subscribed + {c.stream}), [OnOpen(d)], Normal)
    case Throws(e) => Step(attached, [OnOpen(d)], Escaped(e))
  }

  /**
   * `handleError`: report the exception to the application with the
   * connection's decorator. Nothing is caught and nothing is removed.
   */
  function HandleError(app: App, s: Server, clock: nat, k: int, e: Exn): (r: Step)
    requires k in s.decor
    ensures r.server == s
    ensures r.calls == [OnError(s.decor[k], e)]
    ensures app(clock, r.calls[0]).Returns? ==> r.outcome == Normal
    ensures app(clock, r.calls[0]).Throws? ==> r.outcome == Escaped(app(clock, r.calls[0]).e)
  {
    var call := OnError(s.decor[k], e);
    match app(clock, call)
    case Returns => Step(s, [call], Normal)
    case Throws(x) => Step(s, [call], Escaped(x))
  }

  /**
   * `handleData`: deliver the bytes to `onMessage`; an exception from it is
   * caught and passed to `handleError` for the same connection.
   */
  function HandleData(app: App, s: Server, clock: nat, k: int, data: Bytes): (r: Step)
    requires k in s.decor
    ensures r.server == s
    ensures 1 <= |r.calls| <= 2 && r.calls[0] == OnMessage(s.decor[k], data)
    ensures app(clock, r.calls[0]).Returns? ==> |r.calls| == 1 && r.outcome == Normal
    ensures app(clock, r.calls[0]).Throws? ==>
      && |r.calls| == 2
      && r.calls[1] == OnError(s.decor[k], app(clock, r.calls[0]).e)
      && (app(clock + 1, r.calls[1]).Returns? ==> r.outcome == Normal)
      && (app(clock + 1, r.calls[1]).Throws? ==> r.outcome == Escaped(app(clock + 1, r.calls[1]).e))
  {
    var call := OnMessage(s.decor[k], data);
    match app(clock, call)
    case Returns => Step(s, [call], Normal)
    case Throws(e) =>
      var handled := HandleError(app, s, clock + 1, k, e);
      Step(handled.server, [call] + handled.calls, handled.outcome)
  }

  /**
   * `handleEnd`: tell `onClose`, route an exception from it to `handleError`,
   * then detach the decorator. When that `onError` throws, the exception
   * leaves the handler before the decorator is detached.
   */
  function HandleEnd(app: App, s: Server, clock: nat, k: int): (r: Step)
    requires k in s.decor
    ensures 1 <= |r.calls| <= 2 && r.calls[0] == OnClose(s.decor[k])
    ensures app(clock, r.calls[0]).Returns? ==> |r.calls| == 1 && r.outcome == Normal
    ensures app(clock, r.calls[0]).Throws? ==>
      && |r.calls| == 2
      && r.calls[1] == OnError(s.decor[k], app(clock, r.calls[0]).e)
      && (app(clock + 1, r.calls[1]).Returns? ==> r.outcome == Normal)
      && (app(clock + 1, r.calls[1]).Throws? ==> r.outcome == Escaped(app(clock + 1, r.calls[1]).e))
    ensures r.outcome.Normal? ==> r.server.decor == s.decor - {k}
    ensures r.outcome.Escaped? ==> r.server == s
    ensures r.server.subscribed == s.subscribed && r.server.loop == s.loop
  {
    var call := OnClose(s.decor[k]);
    var closed := match app(clock, call)
      case Returns => Step(s, [call], Normal)
      case Throws(e) =>
        var handled := HandleError(app, s, clock + 1, k, e);
        Step(handled.server, [call] + handled.calls, handled.outcome);
    if closed.outcome.Escaped? then closed
    else closed.(server := closed.server.(decor := closed.server.decor - {k}))
  }

  /**
   * The server's handler of a transport event is defined: data, end and error
   * on a subscribed stream find its decorator attached.
   */
  predicate Handles(s: Server, ev: Event)
  {
    !ev.Connect? && StreamOf(ev) in s.subscribed ==> StreamOf(ev) in s.decor
  }

  /**
   * The wiring of the constructor and of `handleConnect`: a new connection
   * goes to `handleConnect`; data, end and error go to `handleData`,
   * `handleEnd` and `handleError` once the stream is subscribed, and reach no
   * handler before that. A handler that would find no decorator is not run.
   */
  function Dispatch(app: App, s: Server, clock: nat, ev: Event): (r: Step)
    ensures r.outcome.Undefined? <==> !Handles(s, ev)
    ensures r.outcome.Undefined? ==> r == Step(s, [], Undefined)
    ensures !ev.Connect? && StreamOf(ev) !in s.subscribed ==> r == Step(s, [], Normal)
    ensures ev.Connect? ==> r == HandleConnect(app, s, clock, ev.conn)
    ensures ev.Data? && ev.stream in s.subscribed && ev.stream in s.decor ==>
      r == HandleData(app, s, clock, ev.stream, ev.data)
    ensures ev.End? && ev.stream in s.subscribed && ev.stream in s.decor ==>
      r == HandleEnd(app, s, clock, ev.stream)
    ensures ev.Error? && ev.stream in s.subscribed && ev.stream in s.decor ==>
      r == HandleError(app, s, clock, ev.stream, ev.e)
    ensures Keyed(s) ==> Keyed(r.server)
    ensures r.server.loop == s.loop
    ensures |r.calls| <= 2
  {
    if !Handles(s, ev) then Step(s, [], Undefined)
    else match ev
      case Connect(c) => HandleConnect(app, s, clock, c)
      case Data(k, data) => if k in s.subscribed then HandleData(app, s, clock, k, data) else Step(s, [], Normal)
      case End(k) => if k in s.subscribed then HandleEnd(app, s, clock, k) else Step(s, [], Normal)
      case Error(k, e) => if k in s.subscribed then HandleError(app, s, clock, k, e) else Step(s, [], Normal)
  }
}
