/**
 * Concrete runs of the server on one connection: the exact calls the
 * application sees for a few small event sequences.
 */
module Scenarios {
  import opened Wrappers
  import opened Connection
  import opened Application
  import opened Transport
  import opened IoServer
  import opened Serving

  /** An application whose every callback returns normally. */
  function Accepting(): App
  {
    (n: nat, c: Call) => Returns
  }

  /** An application whose `onMessage` always throws `err`; every other callback returns. */
  function FailingOnMessage(err: Exn): App
  {
    (n: nat, c: Call) => if c.OnMessage? then Throws(err) else Returns
  }

  /** An application that rejects every connection by throwing `err` from `onOpen`. */
  function Rejecting(err: Exn): App
  {
    (n: nat, c: Call) => if c.OnOpen? then Throws(err) else Returns
  }

  /** An application whose `onClose` always throws `err`; every other callback returns. */
  function FailingOnClose(err: Exn): App
  {
    (n: nat, c: Call) => if c.OnClose? then Throws(err) else Returns
  }

  /** An application whose `onClose` and `onError` both always throw `err`. */
  function FailingOnCloseAndError(err: Exn): App
  {
    (n: nat, c: Call) => if c.OnClose? || c.OnError? then Throws(err) else Returns
  }

  /** The bytes of "hello". */
  const Hello: Bytes := [104, 101, 108, 108, 111]

  /**
   * connect, data "hello", end: `onOpen`, `onMessage` with the bytes
   * unchanged and `onClose`, all with the same decorator, and the decorator is
   * gone afterwards.
   */
  lemma HelloThenClose(loop: Option<Loop>, c: RawConn)
    ensures var d := Decor(c.stream, c.remoteAddress);
      var r := Serve(Accepting(), Construct(loop), 0, [Connect(c), Data(c.stream, Hello), End(c.stream)]);
      && r.trace == [OnOpen(d), OnMessage(d, Hello), OnClose(d)]
      && r.outcome == Normal
      && c.stream !in r.server.decor
  {
    var app, d, k := Accepting(), Decor(c.stream, c.remoteAddress), c.stream;
    var events := [Connect(c), Data(k, Hello), End(k)];
    assert events[1..][1..][1..] == [];
    var st0 := ServeStep(app, Construct(loop), 0, events);
    assert st0.calls == [OnOpen(d)] && st0.outcome == Normal && k in st0.server.subscribed;
    var st1 := ServeStep(app, st0.server, 1, events[1..]);
    assert st1.calls == [OnMessage(d, Hello)] && st1.outcome == Normal && st1.server == st0.server;
    var st2 := ServeStep(app, st1.server, 2, events[1..][1..]);
    assert st2.calls == [OnClose(d)] && st2.outcome == Normal && k !in st2.server.decor;
  }

  /**
   * connect, data that `onMessage` rejects, end: the exception goes to
   * `onError` with the same decorator, and the end is still handled.
   */
  lemma MessageFailureReported(loop: Option<Loop>, c: RawConn, data: Bytes, err: Exn)
    ensures var d := Decor(c.stream, c.remoteAddress);
      var r := Serve(FailingOnMessage(err), Construct(loop), 0, [Connect(c), Data(c.stream, data), End(c.stream)]);
      && r.trace == [OnOpen(d), OnMessage(d, data), OnError(d, err), OnClose(d)]
      && r.outcome == Normal
      && r.handled == 3
      && c.stream !in r.server.decor
  {
    var app, d, k := FailingOnMessage(err), Decor(c.stream, c.remoteAddress), c.stream;
    var events := [Connect(c), Data(k, data), End(k)];
    assert events[1..][1..][1..] == [];
    var st0 := ServeStep(app, Construct(loop), 0, events);
    assert st0.calls == [OnOpen(d)] && st0.outcome == Normal && k in st0.server.subscribed;
    var st1 := ServeStep(app, st0.server, 1, events[1..]);
    assert st1.calls == [OnMessage(d, data), OnError(d, err)] && st1.outcome == Normal && st1.server == st0.server;
    var st2 := ServeStep(app, st1.server, 3, events[1..][1..]);
    assert st2.calls == [OnClose(d)] && st2.outcome == Normal && k !in st2.server.decor;
  }

  /**
   * A connection that `onOpen` rejects: the exception leaves the server after
   * that one call, the decorator stays attached, and the stream's data, end
   * and error are never subscribed.
   */
  lemma RejectedConnection(loop: Option<Loop>, c: RawConn, err: Exn, later: seq<Event>)
    ensures var r := Serve(Rejecting(err), Construct(loop), 0, [Connect(c)] + later);
      && r.trace == [OnOpen(Decor(c.stream, c.remoteAddress))]
      && r.outcome == Escaped(err)
      && r.handled == 1
      && c.stream in r.server.decor
      && c.stream !in r.server.subscribed
  {
  }

  /**
   * connect, a transport error, end: the error reaches `onError` with the
   * connection's decorator, nothing is removed by it, and the end is still
   * handled.
   */
  lemma ErrorThenClose(loop: Option<Loop>, c: RawConn, e: Exn)
    ensures var d := Decor(c.stream, c.remoteAddress);
      var r := Serve(Accepting(), Construct(loop), 0, [Connect(c), Error(c.stream, e), End(c.stream)]);
      && r.trace == [OnOpen(d), OnError(d, e), OnClose(d)]
      && r.outcome == Normal
      && c.stream !in r.server.decor
  {
    var app, d, k := Accepting(), Decor(c.stream, c.remoteAddress), c.stream;
    var events := [Connect(c), Error(k, e), End(k)];
    assert events[1..][1..][1..] == [];
    var st0 := ServeStep(app, Construct(loop), 0, events);
    assert st0.calls == [OnOpen(d)] && st0.outcome == Normal && k in st0.server.subscribed;
    var st1 := ServeStep(app, st0.server, 1, events[1..]);
    assert st1.calls == [OnError(d, e)] && st1.outcome == Normal && st1.server == st0.server;
    var st2 := ServeStep(app, st1.server, 2, events[1..][1..]);
    assert st2.calls == [OnClose(d)] && st2.outcome == Normal && k !in st2.server.decor;
  }

  /**
   * connect, end where `onClose` throws `err`: the exception goes to `onError`
   * with the same decorator, and the decorator is still removed.
   */
  lemma CloseFailureReported(loop: Option<Loop>, c: RawConn, err: Exn)
    ensures var d := Decor(c.stream, c.remoteAddress);
      var r := Serve(FailingOnClose(err), Construct(loop), 0, [Connect(c), End(c.stream)]);
      && r.trace == [OnOpen(d), OnClose(d), OnError(d, err)]
      && r.outcome == Normal
      && c.stream !in r.server.decor
  {
    var app, d, k := FailingOnClose(err), Decor(c.stream, c.remoteAddress), c.stream;
    var events := [Connect(c), End(k)];
    assert events[1..][1..] == [];
    var st0 := ServeStep(app, Construct(loop), 0, events);
    assert st0.calls == [OnOpen(d)] && st0.outcome == Normal && k in st0.server.subscribed;
    var st1 := ServeStep(app, st0.server, 1, events[1..]);
    assert st1.calls == [OnClose(d), OnError(d, err)] && st1.outcome == Normal && k !in st1.server.decor;
  }

  /**
   * connect, end where `onClose` throws and the `onError` it is routed to
   * throws too: that exception leaves `handleEnd` before the decorator is
   * removed, so the decorator stays attached.
   */
  lemma CloseAndErrorFail(loop: Option<Loop>, c: RawConn, err: Exn)
    ensures var d := Decor(c.stream, c.remoteAddress);
      var r := Serve(FailingOnCloseAndError(err), Construct(loop), 0, [Connect(c), End(c.stream)]);
      && r.trace == [OnOpen(d), OnClose(d), OnError(d, err)]
      && r.outcome == Escaped(err)
      && r.handled == 2
      && c.stream in r.server.decor
  {
  }
}
