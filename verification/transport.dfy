/**
 * The transport's side: the events React delivers to the server, and the order
 * in which the server relies on receiving them for one connection.
 */
module Transport {
  import opened Connection
  import opened Application

  /** A transport event: a new connection, or data, end or error on a stream. */
  datatype Event =
    | Connect(conn: RawConn)
    | Data(stream: int, data: Bytes)
    | End(stream: int)
    | Error(stream: int, e: Exn)

  /** Where a stream is in its life: after its connect, or after its end. */
  datatype Phase = Live | Ended

  /** The stream an event concerns. */
  function StreamOf(ev: Event): int
  {
    match ev
    case Connect(c) => c.stream
    case Data(k, _) => k
    case End(k) => k
    case Error(k, _) => k
  }

  /**
   * The transport contract the server relies on: a connect names a stream not
   * seen before, and data, end and error only arrive between a stream's
   * connect and its end.
   */
  predicate Allowed(ph: map<int, Phase>, ev: Event)
  {
    if ev.Connect? then StreamOf(ev) !in ph
    else StreamOf(ev) in ph && ph[StreamOf(ev)] == Live
  }

  /** The phases after an event. */
  function Advance(ph: map<int, Phase>, ev: Event): map<int, Phase>
  {
    match ev
    case Connect(c) => ph[c.stream := Live]
    case End(k) => ph[k := Ended]
    case _ => ph
  }

  /** The phases after a sequence of events. */
  function AdvanceAll(ph: map<int, Phase>, events: seq<Event>): map<int, Phase>
    decreases |events|
  {
    if events == [] then ph else AdvanceAll(Advance(ph, events[0]), events[1..])
  }

  /** Every event of the sequence respects the transport contract. */
  predicate Ordered(ph: map<int, Phase>, events: seq<Event>)
    decreases |events|
  {
    events == [] || (Allowed(ph, events[0]) && Ordered(Advance(ph, events[0]), events[1..]))
  }

  /** Once a stream has ended in an ordered sequence, it stays ended. */
  lemma {:induction false} EndedStaysEnded(ph: map<int, Phase>, events: seq<Event>, k: int)
    requires Ordered(ph, events)
    requires k in ph && ph[k] == Ended
    ensures k in AdvanceAll(ph, events) && AdvanceAll(ph, events)[k] == Ended
    decreases |events|
  {
    if events != [] {
      EndedStaysEnded(Advance(ph, events[0]), events[1..], k);
    }
  }

  /**
   * In an ordered sequence, every stream whose end was delivered is ended at
   * the close of the sequence: nothing reopens it.
   */
  lemma {:induction false} EndIsFinal(ph: map<int, Phase>, events: seq<Event>, k: int)
    requires Ordered(ph, events)
    requires End(k) in events
    ensures k in AdvanceAll(ph, events) && AdvanceAll(ph, events)[k] == Ended
    decreases |events|
  {
    if events[0] == End(k) {
      EndedStaysEnded(Advance(ph, events[0]), events[1..], k);
    } else {
      EndIsFinal(Advance(ph, events[0]), events[1..], k);
    }
  }
}
