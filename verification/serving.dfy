/**
 * The server inside the event loop: events are handled one after another, to
 * completion, until one of them lets an exception escape, which leaves the loop.
 */
module Serving {
  import opened Application
  import opened Transport
  import opened IoServer

  /**
   * The result of serving a sequence of events: final state, every call made
   * on the application in order, the outcome of the last handled event, and
   * how many events were handled.
   */
  datatype Served = Served(server: Server, trace: seq<Call>, outcome: Outcome, handled: nat)

  /**
   * Handles the events in order, stopping after the first event whose
   * handling does not finish normally. `clock` is the number of application
   * calls made before the first event.
   */
  function Serve(app: App, s: Server, clock: nat, events: seq<Event>): (r: Served)
    ensures r.handled <= |events|
    ensures r.outcome.Normal? ==> r.handled == |events|
    ensures !r.outcome.Normal? ==> 1 <= r.handled
    ensures |r.trace| <= 2 * r.handled
    ensures r.server.loop == s.loop
    decreases |events|
  {
    if events == [] then Served(s, [], Normal, 0)
    else
      var st := Dispatch(app, s, clock, events[0]);
      if !st.outcome.Normal? then Served(st.server, st.calls, st.outcome, 1)
      else
        var rest := Serve(app, st.server, clock + |st.calls|, events[1..]);
        Served(rest.server, st.calls + rest.trace, rest.outcome, 1 + rest.handled)
  }

  /** The first event's step, and how serving the whole sequence decomposes around it. */
  lemma ServeStep(app: App, s: Server, clock: nat, events: seq<Event>) returns (st: Step)
    requires events != []
    ensures st == Dispatch(app, s, clock, events[0])
    ensures !st.outcome.Normal? ==> Serve(app, s, clock, events) == Served(st.server, st.calls, st.outcome, 1)
    ensures st.outcome.Normal? ==>
      var rest := Serve(app, st.server, clock + |st.calls|, events[1..]);
      Serve(app, s, clock, events) == Served(rest.server, st.calls + rest.trace, rest.outcome, 1 + rest.handled)
  {
    st := Dispatch(app, s, clock, events[0]);
  }
}
