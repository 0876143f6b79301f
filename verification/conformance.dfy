/**
 * What the application observes when the server runs over a transport that
 * keeps its contract: per connection, `onOpen` first and once, then messages
 * and errors with the same decorator, at most one `onClose`, and after it at
 * most one `onError` with the same decorator; and, in order, exactly the
 * connects, data and ends the transport delivered. Which exception that
 * `onError` carries is stated per event by `RoutesErrors`.
 */
module Conformance {
  import opened Wrappers
  import opened Connection
  import opened Application
  import opened Transport
  import opened IoServer
  import opened Serving

  /** Where a connection is in the calls made about it. */
  datatype Stage = Opened | Closing | Finished

  /** The monitor's record of one connection: its decorator and its stage. */
  datatype Watch = Watch(decor: Decor, stage: Stage)

  /**
   * The monitor's reaction to one call, keyed by the decorator's identity:
   * `None` when the call breaks the per-connection protocol.
   */
  function Observe(m: map<int, Watch>, c: Call): Option<map<int, Watch>>
  {
    var k := c.conn.resourceId;
    match c
    case OnOpen(d) =>
      if k in m then None else Some(m[k := Watch(d, Opened)])
    case OnMessage(d, _) =>
      if k in m && m[k] == Watch(d, Opened) then Some(m) else None
    case OnClose(d) =>
      if k in m && m[k] == Watch(d, Opened) then Some(m[k := Watch(d, Closing)]) else None
    case OnError(d, _) =>
      if k in m && m[k] == Watch(d, Opened) then Some(m)
      else if k in m && m[k] == Watch(d, Closing) then Some(m[k := Watch(d, Finished)])
      else None
  }

  /** Runs the monitor over a sequence of calls. */
  function Monitor(m: map<int, Watch>, calls: seq<Call>): Option<map<int, Watch>>
    decreases |calls|
  {
    if calls == [] then Some(m)
    else match Observe(m, calls[0])
      case None => None
      case Some(m1) => Monitor(m1, calls[1..])
  }

  /** A trace of application calls respects the per-connection protocol. */
  predicate Conforms(trace: seq<Call>)
  {
    Monitor(map[], trace).Some?
  }

  /** Monitoring a concatenation is monitoring its halves in turn. */
  lemma {:induction false} MonitorAppend(m: map<int, Watch>, a: seq<Call>, b: seq<Call>)
    ensures Monitor(m, a + b) == (match Monitor(m, a) case None => None case Some(m1) => Monitor(m1, b))
    decreases |a|
  {
    if a != [] {
      assert (a + b)[0] == a[0];
      assert (a + b)[1..] == a[1..] + b;
      match Observe(m, a[0])
      case None =>
      case Some(m1) => MonitorAppend(m1, a[1..], b);
    } else {
      assert a + b == b;
    }
  }

  /** The transport event an application call reports; errors report none. */
  function Intent(c: Call): seq<Event>
  {
    match c
    case OnOpen(d) => [Connect(Undecorate(d))]
    case OnMessage(d, data) => [Data(d.resourceId, data)]
    case OnClose(d) => [End(d.resourceId)]
    case OnError(_, _) => []
  }

  /** The transport events a trace of calls reports, in order. */
  function Intents(calls: seq<Call>): seq<Event>
    decreases |calls|
  {
    if calls == [] then [] else Intent(calls[0]) + Intents(calls[1..])
  }

  /** The connects, data and ends among some events, in order. */
  function Announced(events: seq<Event>): seq<Event>
    decreases |events|
  {
    if events == [] then []
    else (if events[0].Error? then [] else [events[0]]) + Announced(events[1..])
  }

  lemma {:induction false} IntentsAppend(a: seq<Call>, b: seq<Call>)
    ensures Intents(a + b) == Intents(a) + Intents(b)
    decreases |a|
  {
    if a != [] {
      assert (a + b)[0] == a[0];
      assert (a + b)[1..] == a[1..] + b;
      IntentsAppend(a[1..], b);
    } else {
      assert a + b == b;
    }
  }

  lemma {:induction false} AnnouncedAppend(a: seq<Event>, b: seq<Event>)
    ensures Announced(a + b) == Announced(a) + Announced(b)
    decreases |a|
  {
    if a != [] {
      assert (a + b)[0] == a[0];
      assert (a + b)[1..] == a[1..] + b;
      AnnouncedAppend(a[1..], b);
    } else {
      assert a + b == b;
    }
  }

  /** The connects, data and ends among the first `1 + h` events: the first event's, then the rest's. */
  lemma AnnouncedPrefix(events: seq<Event>, h: nat)
    requires h < |events|
    ensures Announced(events[..1 + h]) == Announced([events[0]]) + Announced(events[1..][..h])
  {
    assert events[..1 + h] == [events[0]] + events[1..][..h];
    AnnouncedAppend([events[0]], events[1..][..h]);
  }

  /** Reports of the first event's calls and of the rest's calls make the report of both. */
  lemma ReportsChain(calls: seq<Call>, trace: seq<Call>, events: seq<Event>, h: nat)
    requires h < |events|
    requires Intents(calls) == Announced([events[0]])
    requires Intents(trace) == Announced(events[1..][..h])
    ensures Intents(calls + trace) == Announced(events[..1 + h])
  {
    IntentsAppend(calls, trace);
    AnnouncedPrefix(events, h);
  }

  /** The server state agrees with the transport phases of the streams. */
  predicate Tracks(ph: map<int, Phase>, s: Server)
  {
    && Keyed(s)
    && (forall k :: k in ph && ph[k] == Live ==> k in s.decor && k in s.subscribed)
    && (forall k :: k in ph && ph[k] == Ended ==> k !in s.decor)
    && (forall k :: k in s.decor ==> k in ph)
    && (forall k :: k in s.subscribed ==> k in ph)
  }

  /** The monitor agrees with the transport phases and the attached decorators. */
  predicate Watches(m: map<int, Watch>, ph: map<int, Phase>, s: Server)
  {
    && m.Keys == ph.Keys
    && (forall k :: k in ph && ph[k] == Live ==> k in s.decor && k in m && m[k] == Watch(s.decor[k], Opened))
    && (forall k :: k in ph && ph[k] == Ended ==> k in m && m[k].stage != Opened)
  }

  /** Monitoring succeeds on a concatenation when it succeeds on each half in turn. */
  lemma MonitorChain(m: map<int, Watch>, a: seq<Call>, b: seq<Call>)
    requires Monitor(m, a).Some? && Monitor(Monitor(m, a).value, b).Some?
    ensures Monitor(m, a + b).Some?
  {
    MonitorAppend(m, a, b);
  }

  /** A connect on a fresh stream: `onOpen` with the new decorator, reported as that connect. */
  lemma ConnectConforms(app: App, s: Server, ph: map<int, Phase>, m: map<int, Watch>, clock: nat, c: RawConn)
    requires Tracks(ph, s) && Watches(m, ph, s) && c.stream !in ph
    ensures var st := HandleConnect(app, s, clock, c);
      && Monitor(m, st.calls).Some?
      && Intents(st.calls) == [Connect(c)]
      && (st.outcome.Normal? ==>
            Tracks(ph[c.stream := Live], st.server) && Watches(Monitor(m, st.calls).value, ph[c.stream := Live], st.server))
  {
  }

  /** Data on a live stream: `onMessage`, possibly followed by `onError`, reported as that data. */
  lemma DataConforms(app: App, s: Server, ph: map<int, Phase>, m: map<int, Watch>, clock: nat, k: int, data: Bytes)
    requires Tracks(ph, s) && Watches(m, ph, s) && k in ph && ph[k] == Live
    ensures k in s.decor
    ensures var st := HandleData(app, s, clock, k, data);
      && Monitor(m, st.calls) == Some(m)
      && Intents(st.calls) == [Data(k, data)]
      && st.server == s
  {
    var st := HandleData(app, s, clock, k, data);
    if |st.calls| == 1 {
      assert Monitor(m, st.calls) == Monitor(m, []);
      assert Intents(st.calls) == Intent(st.calls[0]) + Intents([]);
    } else {
      assert Monitor(m, st.calls) == Monitor(m, [st.calls[1]]) == Monitor(m, []);
      assert Intents(st.calls) == Intent(st.calls[0]) + Intents([st.calls[1]]);
      assert Intents([st.calls[1]]) == Intent(st.calls[1]) + Intents([]);
    }
  }

  /** An error on a live stream: one `onError`, reported as nothing. */
  lemma ErrorConforms(app: App, s: Server, ph: map<int, Phase>, m: map<int, Watch>, clock: nat, k: int, e: Exn)
    requires Tracks(ph, s) && Watches(m, ph, s) && k in ph && ph[k] == Live
    ensures k in s.decor
    ensures var st := HandleError(app, s, clock, k, e);
      && Monitor(m, st.calls) == Some(m)
      && Intents(st.calls) == []
      && st.server == s
  {
  }

  /** The end of a live stream: `onClose`, possibly followed by `onError`, reported as that end. */
  lemma EndConforms(app: App, s: Server, ph: map<int, Phase>, m: map<int, Watch>, clock: nat, k: int)
    requires Tracks(ph, s) && Watches(m, ph, s) && k in ph && ph[k] == Live
    ensures k in s.decor
    ensures var st := HandleEnd(app, s, clock, k);
      && Monitor(m, st.calls).Some?
      && Intents(st.calls) == [End(k)]
      && (st.outcome.Normal? ==>
            Tracks(ph[k := Ended], st.server) && Watches(Monitor(m, st.calls).value, ph[k := Ended], st.server))
  {
    var st := HandleEnd(app, s, clock, k);
    EndObserved(app, s, m, clock, k);
    if st.outcome.Normal? {
      EndSettles(app, s, ph, m, Monitor(m, st.calls).value, clock, k);
    }
  }

  /** The calls of an end: the monitor moves the stream past `Opened` and nothing else, the report is that end. */
  lemma {:induction false} EndObserved(app: App, s: Server, m: map<int, Watch>, clock: nat, k: int)
    requires k in s.decor && Keyed(s) && k in m && m[k] == Watch(s.decor[k], Opened)
    ensures var st := HandleEnd(app, s, clock, k);
      && Monitor(m, st.calls).Some?
      && Intents(st.calls) == [End(k)]
      && var m1 := Monitor(m, st.calls).value;
         m1.Keys == m.Keys && m1[k].stage != Opened
         && (forall j :: j in m && j != k ==> m1[j] == m[j])
  {
    var st := HandleEnd(app, s, clock, k);
    var d := s.decor[k];
    var closing := m[k := Watch(d, Closing)];
    if app(clock, OnClose(d)).Returns? {
      assert Monitor(m, st.calls) == Monitor(closing, []);
      assert Intents(st.calls) == Intent(st.calls[0]) + Intents([]);
    } else {
      assert Monitor(m, st.calls) == Monitor(closing, [st.calls[1]]) == Monitor(closing[k := Watch(d, Finished)], []);
      assert Intents(st.calls) == Intent(st.calls[0]) + Intents([st.calls[1]]);
      assert Intents([st.calls[1]]) == Intent(st.calls[1]) + Intents([]);
    }
  }

  /** After a normal end, state, phases and monitor agree again. */
  lemma EndSettles(app: App, s: Server, ph: map<int, Phase>, m: map<int, Watch>, m1: map<int, Watch>, clock: nat, k: int)
    requires Tracks(ph, s) && Watches(m, ph, s) && k in ph && ph[k] == Live
    requires m1.Keys == m.Keys && k in m1 && m1[k].stage != Opened
    requires forall j :: j in m && j != k ==> m1[j] == m[j]
    requires HandleEnd(app, s, clock, k).outcome.Normal?
    ensures Tracks(ph[k := Ended], HandleEnd(app, s, clock, k).server)
    ensures Watches(m1, ph[k := Ended], HandleEnd(app, s, clock, k).server)
  {
  }

  /**
   * One event the transport may deliver: its handler is defined, its calls
   * respect the monitor and report exactly that event, and unless an
   * exception escaped the agreement between state, phases and monitor holds
   * again afterwards.
   */
  lemma StepConforms(app: App, s: Server, ph: map<int, Phase>, m: map<int, Watch>, clock: nat, ev: Event, st: Step)
    returns (m1: map<int, Watch>)
    requires Tracks(ph, s) && Watches(m, ph, s) && Allowed(ph, ev)
    requires st == Dispatch(app, s, clock, ev)
    ensures !st.outcome.Undefined?
    ensures Monitor(m, st.calls) == Some(m1)
    ensures Intents(st.calls) == Announced([ev])
    ensures st.outcome.Normal? ==> Tracks(Advance(ph, ev), st.server) && Watches(m1, Advance(ph, ev), st.server)
  {
    assert Announced([ev]) == (if ev.Error? then [] else [ev]) + Announced([]);
    match ev {
      case Connect(c) => ConnectConforms(app, s, ph, m, clock, c);
      case Data(k, data) => DataConforms(app, s, ph, m, clock, k, data);
      case End(k) => EndConforms(app, s, ph, m, clock, k);
      case Error(k, e) => ErrorConforms(app, s, ph, m, clock, k, e);
    }
    m1 := Monitor(m, st.calls).value;
  }

  /**
   * For any event the transport may deliver, exceptions take the routes of
   * the code: an error event is one `onError` with the connection's
   * decorator, and the second call of a data or end event is the `onError`
   * that the first call's exception was routed to.
   */
  lemma RoutesErrors(app: App, s: Server, ph: map<int, Phase>, clock: nat, ev: Event)
    requires Tracks(ph, s) && Allowed(ph, ev)
    ensures ev.Error? ==> ev.stream in s.decor && Dispatch(app, s, clock, ev).calls == [OnError(s.decor[ev.stream], ev.e)]
    ensures var st := Dispatch(app, s, clock, ev);
      (ev.Data? || ev.End?) && |st.calls| == 2 ==>
        st.calls[1] == OnError(st.calls[0].conn, app(clock, st.calls[0]).e)
  {
  }

  /** The first event of an ordered sequence, and what remains to be served after it. */
  lemma StepNext(app: App, s: Server, ph: map<int, Phase>, m: map<int, Watch>, clock: nat, events: seq<Event>)
    returns (calls: seq<Call>, s1: Server, m1: map<int, Watch>, clock1: nat, stopped: bool)
    requires events != []
    requires Tracks(ph, s) && Watches(m, ph, s) && Ordered(ph, events)
    ensures Monitor(m, calls) == Some(m1)
    ensures Intents(calls) == Announced([events[0]])
    ensures stopped ==>
      var r := Serve(app, s, clock, events);
      r.trace == calls && r.handled == 1 && r.outcome.Escaped?
    ensures !stopped ==>
      && Tracks(Advance(ph, events[0]), s1) && Watches(m1, Advance(ph, events[0]), s1)
      && Ordered(Advance(ph, events[0]), events[1..])
      && var rest := Serve(app, s1, clock1, events[1..]);
         Serve(app, s, clock, events) == Served(rest.server, calls + rest.trace, rest.outcome, 1 + rest.handled)
  {
    var st := ServeStep(app, s, clock, events);
    m1 := StepConforms(app, s, ph, m, clock, events[0], st);
    calls, s1, clock1, stopped := st.calls, st.server, clock + |st.calls|, !st.outcome.Normal?;
  }

  /**
   * Serving an ordered event sequence: no handler is left undefined, and the
   * trace respects the monitor.
   */
  lemma {:induction false} ServeMonitored(app: App, s: Server, ph: map<int, Phase>, m: map<int, Watch>, clock: nat, events: seq<Event>)
    requires Tracks(ph, s) && Watches(m, ph, s) && Ordered(ph, events)
    ensures !Serve(app, s, clock, events).outcome.Undefined?
    ensures Monitor(m, Serve(app, s, clock, events).trace).Some?
    decreases |events|
  {
    if events != [] {
      var calls, s1, m1, clock1, stopped := StepNext(app, s, ph, m, clock, events);
      if !stopped {
        ServeMonitored(app, s1, Advance(ph, events[0]), m1, clock1, events[1..]);
        MonitorChain(m, calls, Serve(app, s1, clock1, events[1..]).trace);
      }
    }
  }

  /**
   * Serving an ordered event sequence: the trace reports exactly the handled
   * connects, data and ends, in order.
   */
  lemma {:induction false} ServeReports(app: App, s: Server, ph: map<int, Phase>, m: map<int, Watch>, clock: nat, events: seq<Event>)
    requires Tracks(ph, s) && Watches(m, ph, s) && Ordered(ph, events)
    ensures var r := Serve(app, s, clock, events);
      Intents(r.trace) == Announced(events[..r.handled])
    decreases |events|
  {
    if events == [] {
      assert events[..0] == [];
    } else {
      var calls, s1, m1, clock1, stopped := StepNext(app, s, ph, m, clock, events);
      if stopped {
        AnnouncedPrefix(events, 0);
      } else {
        ServeReports(app, s1, Advance(ph, events[0]), m1, clock1, events[1..]);
        var rest := Serve(app, s1, clock1, events[1..]);
        ReportsChain(calls, rest.trace, events, rest.handled);
      }
    }
  }

  /** A run over an ordered sequence that ends normally leaves the state agreeing with the final phases. */
  lemma {:induction false} ServeSettles(app: App, s: Server, ph: map<int, Phase>, m: map<int, Watch>, clock: nat, events: seq<Event>)
    requires Tracks(ph, s) && Watches(m, ph, s) && Ordered(ph, events)
    ensures Serve(app, s, clock, events).outcome.Normal? ==> Tracks(AdvanceAll(ph, events), Serve(app, s, clock, events).server)
    decreases |events|
  {
    if events != [] {
      var calls, s1, m1, clock1, stopped := StepNext(app, s, ph, m, clock, events);
      if !stopped {
        ServeSettles(app, s1, Advance(ph, events[0]), m1, clock1, events[1..]);
      }
    }
  }

  /**
   * A freshly constructed server fed an ordered event sequence never reaches
   * an undefined handler, and its calls respect the per-connection protocol
   * and report, in order and with the bytes unchanged, exactly the connects,
   * data and ends it handled.
   */
  lemma DeliversInOrder(app: App, loop: Option<Loop>, events: seq<Event>)
    requires Ordered(map[], events)
    ensures var r := Serve(app, Construct(loop), 0, events);
      && !r.outcome.Undefined?
      && Conforms(r.trace)
      && Intents(r.trace) == Announced(events[..r.handled])
  {
    ServeMonitored(app, Construct(loop), map[], map[], 0, events);
    ServeReports(app, Construct(loop), map[], map[], 0, events);
  }

  /**
   * After a normal run over an ordered sequence, no stream whose end was
   * delivered keeps a decorator, and every decorator left is filed under its
   * own identity.
   */
  lemma EndedConnectionsForgotten(app: App, loop: Option<Loop>, events: seq<Event>, k: int)
    requires Ordered(map[], events)
    requires End(k) in events
    ensures var r := Serve(app, Construct(loop), 0, events);
      r.outcome.Normal? ==> k !in r.server.decor && Keyed(r.server)
  {
    ServeSettles(app, Construct(loop), map[], map[], 0, events);
    EndIsFinal(map[], events, k);
  }
}
