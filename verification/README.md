# Ratchet `IoServer` event dispatcher, modelled in Dafny

This project models the core of Ratchet's `IoServer`. The server sits between
React's socket server (the transport) and a Ratchet application (a message
component with `onOpen`, `onMessage`, `onClose` and `onError`). It turns the
transport's four events into application calls:

- **connect**: attach a decorator (`IoConnection`) whose `resourceId` is the
  stream's integer id and whose `remoteAddress` comes from the connection.
  Then call `onOpen`. Then subscribe the connection's data, end and error
  events.
- **data**: call `onMessage` with the decorator and the bytes.
- **end**: call `onClose`, then drop the decorator.
- **error**: call `onError`.

Exceptions from `onMessage` and `onClose` are caught and routed to `onError`.
Exceptions from `onOpen` and `onError` escape.

How the model is built:

- The state is an immutable record `IoServer.Server`. It holds the optional
  loop, a map from stream id to decorator, and the set of subscribed streams.
- The application is an oracle, `Application.App`. Given the position of a
  call in the global call sequence and the call itself, it says whether the
  callback returns or throws.
- Each handler is a pure step function. It returns the new state, the calls
  made, and an outcome: normal or an escaping exception. `IoServer.Dispatch`
  may also report undefined handling: an event on a subscribed stream whose
  decorator is gone.
- `IoServer.Dispatch` is the wiring the constructor and `handleConnect` set
  up. `Serving.Serve` runs a sequence of events through it, one event at a
  time to completion. It stops at the first event not handled normally: an
  escaping exception leaves `loop->run()`, and undefined handling has no
  modelled continuation.
- `Conformance` states what the application observes over any event sequence
  that keeps the transport's contract (`Transport.Ordered`). Per connection
  the contract is: one connect on a fresh stream, then data and errors, then
  at most one end, and nothing after it.
- The observation is a monitor over the call trace, `Conformance.Monitor`. It
  requires, per connection:
  - `onOpen` comes first, exactly once;
  - `onMessage` and `onError` carry the decorator `onOpen` received;
  - there is at most one `onClose`;
  - after `onClose`, at most one `onError` with the same decorator. The
    monitor does not check that this `onError` carries the exception
    `onClose` threw; `Conformance.RoutesErrors` states that per event.
- The report `Conformance.Intents` reads back, from the trace, the connects,
  data and ends it stands for. It must equal the handled events with the
  errors left out.

`end` does not always remove the decorator. `unset($conn->decor)` at line 117
runs after the `try`/`catch` around `onClose`, so it is skipped when the
`onError` called from the catch block throws: that exception leaves
`handleEnd` first. `IoServer.HandleEnd` therefore promises removal whenever
the handler finishes normally, whether or not `onClose` threw, and an
unchanged state when an exception escapes. `Scenarios.CloseAndErrorFail`
shows the decorator staying attached.

## Model

| member | source | states |
|---|---|---|
| IoServer.Construct | src/Ratchet/Server/IoServer.php:36-49 | The server keeps the loop it was given, which may be absent. It starts with no decorator and no subscribed stream, so every decorator is filed under its own identity. |
| IoServer.Run | src/Ratchet/Server/IoServer.php:69-75 | `run` fails with the RuntimeException "A React Loop was not provided during instantiation" exactly when no loop was supplied. Otherwise it hands control to that same loop. |
| IoServer.HandleConnect | src/Ratchet/Server/IoServer.php:80-91 | The decorator is attached before `onOpen`, with `resourceId` the stream id and `remoteAddress` the connection's address. `onOpen` is called exactly once, with that decorator. Only that stream's map entry changes. The stream is subscribed exactly when `onOpen` returns. If `onOpen` throws, that exception escapes and the subscriptions are unchanged. |
| IoServer.HandleData | src/Ratchet/Server/IoServer.php:98-104 | `onMessage` gets the connection's decorator and the bytes unchanged. If it returns, nothing else is called. If it throws, exactly one `onError` follows, with the same decorator and that exception. The handler finishes normally unless that `onError` throws, and then the exception `onError` threw escapes. The state, including the decorator map, is unchanged. |
| IoServer.HandleEnd | src/Ratchet/Server/IoServer.php:110-118 | `onClose` is called with the decorator. If it throws, `onError` with the same decorator and that exception is called before removal. The handler finishes normally unless that `onError` throws. When it finishes normally, whether or not `onClose` threw, the map is the old map without that stream and every other entry is untouched. If the `onError` throws, that exception escapes and the state is unchanged. |
| IoServer.HandleError | src/Ratchet/Server/IoServer.php:125-127 | `onError(decor, e)` is called exactly once and nothing is removed. The handler finishes normally when `onError` returns. When `onError` throws, that exception escapes. |
| IoServer.Dispatch | src/Ratchet/Server/IoServer.php:44-48 | A connect's result is `handleConnect`'s. On a subscribed stream with a decorator, data's result is `handleData`'s, end's is `handleEnd`'s and error's is `handleError`'s, with the event's bytes or exception. On a stream that is not subscribed, nothing is called and nothing changes. Handling is undefined exactly when the stream is subscribed but its decorator is gone. The dispatcher keeps every decorator filed under its own identity, never changes the loop, and makes at most two calls per event. |
| Serving.Serve | src/Ratchet/Server/IoServer.php:74 | The number of handled events is at most the number of events. A run that ends normally handled all of them. A run that ends otherwise handled at least one. There are at most two application calls per handled event, and the loop never changes. |
| Conformance.StepConforms | src/Ratchet/Server/IoServer.php:80-127 | For any event the transport may deliver: its handler is defined. Its calls keep the per-connection protocol. They report exactly that event, or nothing for an error. When it finishes normally, the agreement between the state, the transport phases and the monitor holds again. |
| Conformance.RoutesErrors | src/Ratchet/Server/IoServer.php:98-127 | For any event the transport may deliver: an error event gives exactly one `onError`, with the connection's decorator and the transport's exception. When data or end makes a second call, it is `onError` with the first call's decorator and the exception the first call threw. |
| Conformance.ServeMonitored | src/Ratchet/Server/IoServer.php:80-127 | Over an ordered event sequence, no handler is ever undefined, and the whole trace keeps the per-connection protocol. |
| Conformance.ServeReports | src/Ratchet/Server/IoServer.php:80-127 | Over an ordered event sequence, the trace reports exactly the handled connects, data and ends, in their order, with the bytes unchanged. |
| Conformance.ServeSettles | src/Ratchet/Server/IoServer.php:80-127 | After a normal run over an ordered sequence: live streams have a decorator and a subscription, ended streams have no decorator, and every decorator is filed under its own identity. |
| Conformance.DeliversInOrder | src/Ratchet/Server/IoServer.php:80-127 | For a freshly constructed server fed an ordered sequence: no handler is undefined. `onOpen` precedes every other call about its connection and comes once. There is at most one `onClose`, and after it at most one `onError` with the same decorator. The calls report the handled connects, data and ends in order. |
| Precedence.StepOpensFirst | src/Ratchet/Server/IoServer.php:80-127 | For one event in any order: every call it makes other than `onOpen` uses a decorator that an earlier `onOpen` received. Every decorator attached afterwards has been announced by `onOpen`. |
| Precedence.ServeOpensFirst | src/Ratchet/Server/IoServer.php:80-127 | Serving any event sequence from a state whose decorators were all announced keeps every call after its connection's `onOpen`. |
| Precedence.OpenBeforeUse | src/Ratchet/Server/IoServer.php:80-91 | For a freshly constructed server and any event sequence, with no assumption on its order: every `onMessage`, `onClose` and `onError` comes after an `onOpen` with the same decorator. |
| Conformance.EndedConnectionsForgotten | src/Ratchet/Server/IoServer.php:117 | After a normal run over an ordered sequence, no stream whose end was delivered keeps a decorator. |
| Scenarios.HelloThenClose | src/Ratchet/Server/IoServer.php:80-118 | connect, data "hello", end with an accepting application gives exactly `onOpen(d)`, `onMessage(d, "hello")`, `onClose(d)`. The run ends normally and the decorator is gone. |
| Scenarios.MessageFailureReported | src/Ratchet/Server/IoServer.php:98-118 | connect, data, end where `onMessage` throws `err` gives exactly `onOpen(d)`, `onMessage(d, data)`, `onError(d, err)`, `onClose(d)`. All three events are handled and the decorator is gone. |
| Scenarios.ErrorThenClose | src/Ratchet/Server/IoServer.php:80-127 | connect, error `e`, end with an accepting application gives exactly `onOpen(d)`, `onError(d, e)`, `onClose(d)`. The run ends normally and the decorator is gone. |
| Scenarios.CloseFailureReported | src/Ratchet/Server/IoServer.php:110-117 | connect, end where `onClose` throws `err` gives exactly `onOpen(d)`, `onClose(d)`, `onError(d, err)`. The run ends normally and the decorator is gone. |
| Scenarios.CloseAndErrorFail | src/Ratchet/Server/IoServer.php:110-117 | connect, end where `onClose` and `onError` both throw `err` gives `onOpen(d)`, `onClose(d)`, `onError(d, err)`. `err` escapes after both events are handled, and the decorator stays attached. |
| Scenarios.RejectedConnection | src/Ratchet/Server/IoServer.php:80-91 | When `onOpen` throws, only `onOpen` is called and the exception leaves the loop after that one event. The decorator stays attached and the stream is not subscribed. |

## Left out

- Process setup (`gc_enable`, `set_time_limit`, `ob_implicit_flush`, src/Ratchet/Server/IoServer.php:37-39) is left out: these calls have process-wide side effects and no dispatch logic.
- `factory` (src/Ratchet/Server/IoServer.php:57-63) is left out: it creates a React loop and socket and listens on a port, which is network I/O.
- React's event loop and event emitter are not part of this model.
  - `Run` returns the loop it would enter rather than running it.
  - Subscription is a set of stream ids.
  - The order in which events arrive is a parameter (`Serving.Serve`'s event sequence).
- The `handlers` array of the constructor is not state: `IoServer.Dispatch` is the fixed routing it sets up.
- `IoConnection` is reduced to its `resourceId` and `remoteAddress`. Its `send` and `close` delegation is not part of this model.
- `getRemoteAddress()` failing while a connection is accepted is not modelled: the address is a field of the raw connection.
- PHP's reading of an unset `decor` is not modelled. In the code, a data, end or error event that reaches a handler after the decorator is gone passes `null` to the application. The handlers require the decorator to be present. `Dispatch` reports such an event as `Undefined` and makes no call.
- A single exception kind stands for `\Exception`. Throwables that are not `\Exception`, which the `catch` blocks would not catch, are not modelled.
- What happens to an exception after it leaves `loop->run()` is left out: `Serving.Serve` stops there.
- Conformance.EndedConnectionsForgotten: speaks only of runs that end normally. In a run that stops on an escaping exception, the last event may be an end whose `onError` threw, and then the decorator stays (see above).
- Conformance.DeliversInOrder: assumes the transport keeps its per-connection order. It needs this for three things: a connect names a new stream, so `onOpen` comes once per connection; nothing arrives after an end, so no handler runs without a decorator; and at most one `onClose` is called. That `onOpen` precedes every other call about its connection needs no such assumption: `Precedence.OpenBeforeUse` proves it for any event order.
- Serving.Serve: its contract bounds the handled events and the trace only. That the trace is the handled events' calls in order, and that the run stops at the first escape, is stated by the decomposition lemma `Serving.ServeStep`.
