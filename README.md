# SetupServerApi: a Dafny model of the node-side interception orchestrator

This project models `SetupServerApi`, the object behind `setupServer` in the
node build of Mock Service Worker. It owns the interceptor's apply/teardown
life cycle and asserts that the interceptor reached an applied ready state. It
passes every intercepted request to the resolver (`handleRequest`) through its
current handler chain. When a truthy `remotePort` is configured, it opens a
socket connection to a remote counterpart on first need. It then puts a remote
handler for each request in front of the chain. It emits `response:mocked` or
`response:bypass` for every response. It mirrors the six request/response
life-cycle events to the remote process over the `lifeCycleEventForward`
channel, except for traffic marked `x-msw-request-type: internal-request`.

Layout:

- `wrappers.dfy`, module `Wrappers`: `Option`, for fields and results that
  may be `undefined`.
- `lifecycle.dfy`, module `LifeCycle`: requests, the event names, the
  mocked/bypass choice and the forwarding decision. These are pure functions.
- `setup_server_api.dfy`, module `SetupServer`: the listen options and their
  defaults, handlers, ready states and teardowns. It has two pure transitions,
  `ListenTransition` and `RequestTransition`. The class `SetupServerApi` holds
  the source's fields (`resolvedOptions`, `socket`, `currentHandlers`,
  `subscriptions`). Its methods are proved to change those fields exactly as
  the transitions say.
- `setup_server_properties.dfy`, module `SetupServerProperties`: what holds
  over any sequence of requests, proved by induction.

Collaborators are opaque. What they return comes in as a parameter:

- the interceptor's ready state after `apply()`;
- how `createSyncClient` settles (`ConnectOutcome`: a socket or `undefined`,
  a rejection, or never);
- what `handleRequest` resolves to (a response or none).

What the object asks of its collaborators is appended, in order, to the
`effects` field. Those asks are subscribing to events, `apply`,
`createSyncClient`, `handleRequest`, `respondWith`, `emit`, `socket.emit`
and `dispose`.

Three behaviours of the code worth noting:

- The code does not derive a fresh chain per exchange. It reassigns
  `currentHandlers` (src/node/SetupServerApi.ts:78-84), so the remote handlers
  of earlier requests stay in the chain. `RemoteHandlersAccumulate` and
  `RemoteHandlersPileUp` state this.
- The code has no "connect at most once" rule. While `socket` is still
  undefined, every request in remote mode calls `createSyncClient` again. That
  includes after a rejection, after a connection that never settled, and after
  one that settled without a socket. `ConnectRetriedWhileUnset` states this.
- `close` only calls the base class's `dispose`. The code makes no LIFO or
  idempotence promise of its own.

## Model

| member | source | states |
|---|---|---|
| `LifeCycle.ResponseEventName` | src/node/SetupServerApi.ts:103-115 | the emitted name is `response:mocked` iff the response is mocked and `response:bypass` iff it is not; it is a response-phase name |
| `LifeCycle.Forwarding` | src/node/SetupServerApi.ts:126-176 | nothing is forwarded while no socket is held or for an internal request; an event is forwarded iff a socket is held, its name is one of the six in the switch and its request is not marked internal; a forward goes on `lifeCycleEventForward`, under the event's own name, with its arguments, on the socket held when the event fired |
| `LifeCycle.ResponseEventForwarding` | src/node/SetupServerApi.ts:103-175 | a response event from the interceptor's listener is mirrored iff a socket is held and the request is not internal, and under the mocked or bypass name the flag selects |
| `SetupServer.MergeRight` | src/node/SetupServerApi.ts:119-122 | each option field the caller gives overrides the default; every other field keeps the default |
| `SetupServer.ListenTransition` | src/node/SetupServerApi.ts:118-197 | after `listen`, `onUnhandledRequest` is the caller's value if given, else `warn`; `remotePort` is the caller's; socket and chain are unchanged; exactly one teardown is appended and no earlier one is removed; `listen` subscribes to all events, then applies; it returns normally iff the ready state is APPLYING or APPLIED, else it fails carrying that state |
| `SetupServer.NextState` | src/node/SetupServerApi.ts:65-85 | a request's new fields: options and teardowns unchanged; nothing changes outside remote mode; a held socket is kept; with no socket held, a settled connection sets the socket to its result and a rejected or pending one changes nothing; the chain gains this request's remote handler in front iff remote mode is on and a socket is then held |
| `SetupServer.RequestTransition` | src/node/SetupServerApi.ts:62-101 | its fields are those of `NextState`; a request changes only socket and chain; outside remote mode it changes nothing; a held socket is kept; the socket changes only from a settled connection, and a settled connection sets it to what it settled with; a connection is attempted first, once, on the configured port, iff remote mode is on and no socket is held; the listener stops only if that attempt rejects or pends; the chain gains this request's remote handler in front of the old chain iff remote mode is on and a socket is held; the resolver gets the resulting chain and the options; `respondWith` is called last, iff the resolver gave a response, with that response; a completed run calls `createSyncClient` only if it had to connect, `handleRequest` exactly once, and nothing else |
| `SetupServer.SetupServerApi.constructor` | src/node/SetupServerApi.ts:43-62 | empty options, no socket, the caller's handlers, no teardowns; subscribes to the interceptor's `request` and `response` events |
| `SetupServer.SetupServerApi.Listen` | src/node/SetupServerApi.ts:118-197 | fields, effects and outcome are those of `ListenTransition` from the old fields |
| `SetupServer.SetupServerApi.OnRequest` | src/node/SetupServerApi.ts:62-101 | fields, effects and outcome are those of `RequestTransition` from the old fields |
| `SetupServer.SetupServerApi.OnResponse` | src/node/SetupServerApi.ts:103-115 | appends one emission named by `ResponseEventName` with the listener's arguments; nothing else changes |
| `SetupServer.SetupServerApi.OnAnyEvent` | src/node/SetupServerApi.ts:126-176 | appends the socket emission `Forwarding` decides for the socket held at that point, or nothing |
| `SetupServer.SetupServerApi.Close` | src/node/SetupServerApi.ts:199-201 | records one call to `dispose` and changes nothing else |
| `SetupServerProperties.RunRequestsAppend` | src/node/SetupServerApi.ts:62-101 | running requests `a` then `b` is the same as running `a + b` |
| `SetupServerProperties.RequestsKeepOptionsAndSubscriptions` | src/node/SetupServerApi.ts:62-101 | any number of requests leaves the resolved options and the teardowns unchanged |
| `SetupServerProperties.LocalModeLeavesStateUnchanged` | src/node/SetupServerApi.ts:65 | with a falsy `remotePort` (unset or 0), any number of requests leaves socket and chain unchanged |
| `SetupServerProperties.LocalModeResolverSeesBaseChain` | src/node/SetupServerApi.ts:65-94 | with a falsy `remotePort`, every resolver call receives the chain as it was and no connection is attempted |
| `SetupServerProperties.SocketNeverReassigned` | src/node/SetupServerApi.ts:73-75 | a socket, once held, is the socket after any number of later requests |
| `SetupServerProperties.NoReconnectOnceConnected` | src/node/SetupServerApi.ts:73-75 | once a socket is held, no later request calls `createSyncClient` |
| `SetupServerProperties.BaseChainIsKeptAsSuffix` | src/node/SetupServerApi.ts:77-85 | after any requests, the starting chain is the tail of the chain, in order; all in front of it are remote handlers, at most one per request |
| `SetupServerProperties.RemoteHandlersAccumulate` | src/node/SetupServerApi.ts:77-85 | in remote mode with a socket held, the chain is one remote handler per request, newest first, in front of the starting chain |
| `SetupServerProperties.ResolverSeesAccumulatedChain` | src/node/SetupServerApi.ts:77-94 | in remote mode with a socket held, a request's resolver call receives its own remote handler, then those of all earlier requests, then the starting chain |
| `SetupServerProperties.ConnectedResolverCall` | src/node/SetupServerApi.ts:77-94 | in remote mode with a socket held, the resolver receives this request's remote handler in front of the chain as it was |
| `SetupServerProperties.RemoteHandlersPileUp` | src/node/SetupServerApi.ts:78-84 | on any two requests in remote mode with a socket held, the second resolver call receives two remote handlers, its own then the first request's, in front of the starting chain |
| `SetupServerProperties.ConnectRetriedWhileUnset` | src/node/SetupServerApi.ts:73-74 | after a connection that rejects, pends or settles without a socket, the next request calls `createSyncClient` again on the same port |
| `SetupServerProperties.ListenWithoutRemotePortIsLocal` | src/node/SetupServerApi.ts:65 | after `listen` without a truthy remote port, requests never change socket or chain |
| `SetupServerProperties.FirstConnectionIsReused` | src/node/SetupServerApi.ts:65-85 | after `listen` with a truthy port, once a first request connects, that socket stays and no later request connects again |

## Left out

- Asynchrony: each run of the `request` listener is one atomic step. Two
  requests can both see `socket` undefined while the first is still awaiting
  the connection, because the code has no guard. The model does not show this
  and claims nothing about a single connection under concurrency.
- A connection that never settles is the `Pending` outcome. The listener is
  then `Suspended` and calls nothing further. No timeout is modelled, since the
  code has none.
- Errors thrown by `handleRequest` are not modelled. The resolver yields a
  response or nothing.
- `serializeEventPayload` is not modelled. A forward carries the listener's
  own arguments as its payload, and the await before `socket.emit` is not
  modelled.
- The emitter's dispatch is not modelled. `OnResponse` records the emission,
  and `OnAnyEvent` is one invocation of one forwarding listener. Each `listen`
  records one more `SubscribeAnyEvent`, but the model does not show that
  listening twice mirrors every event twice.
- `Headers.get` matches header names case-insensitively and joins repeated
  headers. The model looks up the lower-case name in a map from names to their
  joined value.
- `mergeRight` is modelled on the two option fields only. Its deep merge of
  nested objects and arrays is not modelled. Neither is a field passed
  explicitly as `undefined`, which would override the default.
- `remotePort` is an integer, and truthy iff it is set and not 0. `NaN` is not
  modelled.
- The base class `SetupApi` is not part of this model. That covers `dispose`,
  `use`, how `subscriptions` are run, and its constructor's check of the
  handlers. The constructor is taken to start `currentHandlers` at the given
  handlers and `subscriptions` empty.
- SetupServer.SetupServerApi.Close: states only that `dispose` is called once,
  because what `dispose` does is defined in the base class.
- The `interceptors` constructor argument and the `BatchInterceptor` built
  from it are not modelled. The interceptor is known only by its ready state
  after `apply()` and by the calls made on it.
- The invariant's message text and issue link are not modelled. The failure
  carries the offending ready state.
