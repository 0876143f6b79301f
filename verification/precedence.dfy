/**
 * What the server guarantees on its own, whatever order the transport
 * delivers events in: no call about a connection reaches the application
 * before `onOpen` was called with that connection's decorator. The server
 * keeps this because it attaches the decorator and calls `onOpen` before it
 * subscribes the connection's data, end and error events.
 */
module Precedence {
  import opened Wrappers
  import opened Application
  import opened Transport
  import opened IoServer
  import opened Serving

  /** Every call other than `onOpen` comes after an `onOpen` with the same decorator. */
  predicate OpenedFirst(trace: seq<Call>)
  {
    forall i :: 0 <= i < |trace| && !trace[i].OnOpen? ==> OnOpen(trace[i].conn) in trace[..i]
  }

  /** Every attached decorator was already announced to the application by `onOpen`. */
  predicate Introduced(prior: seq<Call>, s: Server)
  {
    forall k :: k in s.decor ==> OnOpen(s.decor[k]) in prior
  }

  /** Appending calls whose decorators were all opened earlier keeps `onOpen` first. */
  lemma {:induction false} ExtendOpenedFirst(prior: seq<Call>, calls: seq<Call>)
    requires OpenedFirst(prior)
    requires forall c :: c in calls && !c.OnOpen? ==> OnOpen(c.conn) in prior
    ensures OpenedFirst(prior + calls)
  {
    var t := prior + calls;
    forall i | 0 <= i < |t| && !t[i].OnOpen?
      ensures OnOpen(t[i].conn) in t[..i]
    {
      if i < |prior| {
        assert t[..i] == prior[..i];
      } else {
        assert t[i] in calls;
        var j :| 0 <= j < |prior| && prior[j] == OnOpen(t[i].conn);
        assert t[..i][j] == prior[j];
      }
    }
  }

  /** The same calls, grouped differently. */
  lemma Regroup(prior: seq<Call>, a: seq<Call>, b: seq<Call>)
    requires OpenedFirst((prior + a) + b)
    ensures OpenedFirst(prior + (a + b))
  {
    assert (prior + a) + b == prior + (a + b);
  }

  /**
   * One event, delivered in any order: its calls only use decorators that
   * were opened before, and every decorator attached afterwards has been
   * opened.
   */
  lemma {:induction false} StepOpensFirst(app: App, s: Server, clock: nat, ev: Event, prior: seq<Call>)
    requires Introduced(prior, s) && OpenedFirst(prior)
    ensures var st := Dispatch(app, s, clock, ev);
      OpenedFirst(prior + st.calls) && Introduced(prior + st.calls, st.server)
  {
    var st := Dispatch(app, s, clock, ev);
    if !st.outcome.Undefined? && (ev.Connect? || ev.stream in s.subscribed) {
      match ev {
        case Connect(c) =>
          assert st.calls == [OnOpen(st.server.decor[c.stream])];
          forall k | k in st.server.decor
            ensures OnOpen(st.server.decor[k]) in prior + st.calls
          {
            if k != c.stream {
              assert st.server.decor[k] == s.decor[k];
            }
          }
        case Data(k, data) =>
          assert forall c :: c in st.calls ==> c.conn == s.decor[k];
        case End(k) =>
          assert forall c :: c in st.calls ==> c.conn == s.decor[k];
          forall j | j in st.server.decor
            ensures j in s.decor && st.server.decor[j] == s.decor[j]
          {
            if st.outcome.Normal? {
              assert j in s.decor - {k};
            }
          }
        case Error(k, e) =>
      }
    }
    ExtendOpenedFirst(prior, st.calls);
  }

  /** Serving any event sequence keeps every call after its connection's `onOpen`. */
  lemma {:induction false} ServeOpensFirst(app: App, s: Server, clock: nat, events: seq<Event>, prior: seq<Call>)
    requires Introduced(prior, s) && OpenedFirst(prior)
    ensures OpenedFirst(prior + Serve(app, s, clock, events).trace)
    decreases |events|
  {
    if events == [] {
      assert prior + [] == prior;
    } else {
      var st := ServeStep(app, s, clock, events);
      StepOpensFirst(app, s, clock, events[0], prior);
      if st.outcome.Normal? {
        var rest := Serve(app, st.server, clock + |st.calls|, events[1..]);
        ServeOpensFirst(app, st.server, clock + |st.calls|, events[1..], prior + st.calls);
        Regroup(prior, st.calls, rest.trace);
      }
    }
  }

  /**
   * A freshly constructed server fed any event sequence, ordered or not,
   * calls `onMessage`, `onClose` and `onError` only with a decorator that an
   * earlier `onOpen` received.
   */
  lemma OpenBeforeUse(app: App, loop: Option<Loop>, events: seq<Event>)
    ensures OpenedFirst(Serve(app, Construct(loop), 0, events).trace)
  {
    var trace := Serve(app, Construct(loop), 0, events).trace;
    ServeOpensFirst(app, Construct(loop), 0, events, []);
    assert [] + trace == trace;
  }
}
