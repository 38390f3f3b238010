/**
 * The node-side interception orchestrator `SetupServerApi`: it resolves the
 * listen options, applies the interceptor and asserts its ready state,
 * dispatches every intercepted request through the current handler chain
 * (prepending a remote handler in remote mode), names response events, and
 * mirrors life-cycle events to the remote process.
 *
 * The interceptor, `createSyncClient`, `handleRequest` and the emitter are
 * opaque collaborators: what they return comes in as parameters, and what the
 * object asks of them is recorded, in order, in its `effects` log.
 */
module SetupServer {
  import opened Wrappers
  import opened LifeCycle

  /** `onUnhandledRequest`: one of the three named strategies or a caller's callback. */
  datatype UnhandledRequestStrategy = Warn | Error | Bypass | Callback(id: nat)

  /**
   * Listen options. A caller passes a partial record (absent fields are
   * `None`); after merging over the defaults `onUnhandledRequest` is present.
   */
  datatype ListenOptions = ListenOptions(
    onUnhandledRequest: Option<UnhandledRequestStrategy>,
    remotePort: Option<int>)

  /** `{}`: the options before the first `listen`, and `listen()`'s default argument. */
  const NoOptions: ListenOptions := ListenOptions(None, None)

  /** `DEFAULT_LISTEN_OPTIONS`. */
  const DefaultListenOptions: ListenOptions := ListenOptions(Some(Warn), None)

  /** A participant in the handler chain: a caller's handler or a remote delegate. */
  datatype Handler = Local(id: nat) | Remote(requestId: string, socket: Socket)

  /** The interceptor's ready state. */
  datatype ReadyState = Inactive | Applying | Applied | Disposing | Disposed

  /** The states in which `listen` accepts the interceptor as applied. */
  const AppliedStates: seq<ReadyState> := [Applying, Applied]

  /** A teardown callback in `subscriptions`: ours, or one the base class registered. */
  datatype Teardown = DisposeInterceptor | OtherTeardown(id: nat)

  /** How `createSyncClient` settles: with a socket or `undefined`, by rejecting, or never. */
  datatype ConnectOutcome = Settled(socket: Option<Socket>) | Rejected | Pending

  /** One call this object makes on a collaborator. */
  datatype Effect =
    | SubscribeInterceptor(eventName: string)
    | SubscribeAnyEvent
    | ApplyInterceptor
    | CreateSyncClient(port: int)
    | HandleRequest(requestId: string, request: Request, handlers: seq<Handler>, options: ListenOptions)
    | RespondWith(requestId: string, response: Response)
    | Emit(event: LifeCycleEvent)
    | SocketEmit(forward: Forward)
    | Dispose

  /** The fields of `SetupServerApi` that its transitions change. */
  datatype ServerState = ServerState(
    options: ListenOptions,
    socket: Option<Socket>,
    handlers: seq<Handler>,
    subscriptions: seq<Teardown>)

  /** Whether `listen` returned or failed its ready-state invariant. */
  datatype ListenOutcome = Started | InterceptorNotApplied(readyState: ReadyState)

  /** Whether the request listener returned, threw, or is suspended forever. */
  datatype RequestOutcome = Completed | ConnectRejected | Suspended

  datatype ListenStep = ListenStep(state: ServerState, effects: seq<Effect>, outcome: ListenOutcome)

  datatype RequestStep = RequestStep(state: ServerState, effects: seq<Effect>, outcome: RequestOutcome)

  /** What the `request` listener is given by the interceptor and by its collaborators. */
  datatype RequestInput = RequestInput(
    requestId: string,
    request: Request,
    connect: ConnectOutcome,
    resolved: Option<Response>)

  /** The state right after construction, before any `listen`. */
  function Initial(handlers: seq<Handler>): ServerState {
    ServerState(NoOptions, None, handlers, [])
  }

  /**
   * `mergeRight(left, right)` on the option fields: a field the right side
   * gives replaces the left side's, every other field keeps the left value.
   */
  function MergeRight(left: ListenOptions, right: ListenOptions): (r: ListenOptions)
    ensures right.onUnhandledRequest.Some? ==> r.onUnhandledRequest == right.onUnhandledRequest
    ensures right.onUnhandledRequest.None? ==> r.onUnhandledRequest == left.onUnhandledRequest
    ensures right.remotePort.Some? ==> r.remotePort == right.remotePort
    ensures right.remotePort.None? ==> r.remotePort == left.remotePort
  {
    ListenOptions(
      if right.onUnhandledRequest.Some? then right.onUnhandledRequest else left.onUnhandledRequest,
      if right.remotePort.Some? then right.remotePort else left.remotePort)
  }

  /** Remote mode: `resolvedOptions.remotePort` is truthy, i.e. set and not 0. */
  predicate RemoteMode(options: ListenOptions) {
    options.remotePort.Some? && options.remotePort.value != 0
  }

  /**
   * `listen(options)` from state `st`, when the interceptor's ready state after
   * `apply()` is `readyState`.
   */
  function ListenTransition(st: ServerState, given: ListenOptions, readyState: ReadyState): (r: ListenStep)
    ensures r.state.options.onUnhandledRequest == Some(given.onUnhandledRequest.GetOr(Warn))
    ensures r.state.options.remotePort == given.remotePort
    ensures r.state.socket == st.socket && r.state.handlers == st.handlers
    ensures |r.state.subscriptions| == |st.subscriptions| + 1
    ensures r.state.subscriptions[..|st.subscriptions|] == st.subscriptions
    ensures r.state.subscriptions[|st.subscriptions|] == DisposeInterceptor
    ensures r.effects == [SubscribeAnyEvent, ApplyInterceptor]
    ensures r.outcome.Started? <==> readyState == Applying || readyState == Applied
    ensures r.outcome.InterceptorNotApplied? ==> r.outcome.readyState == readyState
  {
    var state := st.(options := MergeRight(DefaultListenOptions, given),
                     subscriptions := st.subscriptions + [DisposeInterceptor]);
    var outcome := if readyState in AppliedStates then Started else InterceptorNotApplied(readyState);
    ListenStep(state, [SubscribeAnyEvent, ApplyInterceptor], outcome)
  }

  /** The chain with a remote handler for `requestId` in front, when a socket is held. */
  function PrependRemote(st: ServerState, requestId: string): ServerState {
    if st.socket.Some? then st.(handlers := [Remote(requestId, st.socket.value)] + st.handlers) else st
  }

  /** The resolver call on the current chain, then `respondWith` if it gave a response. */
  function Resolve(st: ServerState, input: RequestInput, before: seq<Effect>): RequestStep {
    var respond := if input.resolved.Some? then [RespondWith(input.requestId, input.resolved.value)] else [];
    RequestStep(st, before + [HandleRequest(input.requestId, input.request, st.handlers, st.options)] + respond, Completed)
  }

  /**
   * The fields after one run of the `request` listener: only in remote mode do
   * they change, by setting the socket from a settled connection if none was
   * held and then, if a socket is held, prepending this request's remote handler.
   */
  function NextState(st: ServerState, input: RequestInput): (r: ServerState)
    ensures r.options == st.options && r.subscriptions == st.subscriptions
    ensures !RemoteMode(st.options) ==> r == st
    ensures st.socket.Some? ==> r.socket == st.socket
    ensures RemoteMode(st.options) && st.socket.None? && input.connect.Settled? ==>
      r.socket == input.connect.socket
    ensures RemoteMode(st.options) && st.socket.None? && !input.connect.Settled? ==> r == st
    ensures r.socket != st.socket ==>
      RemoteMode(st.options) && st.socket.None? && input.connect == Settled(r.socket)
    ensures r.handlers == if RemoteMode(st.options) && r.socket.Some?
                          then [Remote(input.requestId, r.socket.value)] + st.handlers
                          else st.handlers
  {
    if !RemoteMode(st.options) then st
    else if st.socket.Some? then PrependRemote(st, input.requestId)
    else match input.connect
      case Settled(s) => PrependRemote(st.(socket := s), input.requestId)
      case _ => st
  }

  /** One run of the interceptor's `request` listener from state `st`. */
  function RequestTransition(st: ServerState, input: RequestInput): (r: RequestStep)
    // the fields it leaves are those of NextState
    ensures r.state == NextState(st, input)
    // a request touches only the socket and the handler chain
    ensures r.state.options == st.options && r.state.subscriptions == st.subscriptions
    // outside remote mode nothing changes
    ensures !RemoteMode(st.options) ==> r.state == st
    // a socket, once set, is kept
    ensures st.socket.Some? ==> r.state.socket == st.socket
    // the socket is only ever set from a settled connection attempt
    ensures r.state.socket != st.socket ==>
      RemoteMode(st.options) && st.socket.None? && input.connect == Settled(r.state.socket)
    // and a settled connection attempt does set it
    ensures RemoteMode(st.options) && st.socket.None? && input.connect.Settled? ==>
      r.state.socket == input.connect.socket
    // a connection is attempted first, on the configured port, exactly when remote mode is on and no socket is held
    ensures |r.effects| > 0
    ensures r.effects[0].CreateSyncClient? <==> RemoteMode(st.options) && st.socket.None?
    ensures r.effects[0].CreateSyncClient? ==> r.effects[0].port == st.options.remotePort.value
    ensures forall i | 1 <= i < |r.effects| :: !r.effects[i].CreateSyncClient?
    // the listener stops at the connection only when it rejects or pends
    ensures r.outcome.Completed? <==> !(RemoteMode(st.options) && st.socket.None?) || input.connect.Settled?
    ensures !r.outcome.Completed? ==> r.state == st && |r.effects| == 1
    ensures r.outcome == Suspended <==> RemoteMode(st.options) && st.socket.None? && input.connect == Pending
    // the chain grows by this request's remote handler exactly when remote mode is on and a socket is held
    ensures r.outcome.Completed? ==>
              r.state.handlers == if RemoteMode(st.options) && r.state.socket.Some?
                                  then [Remote(input.requestId, r.state.socket.value)] + st.handlers
                                  else st.handlers
    // the resolver is given the resulting chain and the resolved options
    ensures r.outcome.Completed? <==>
      HandleRequest(input.requestId, input.request, r.state.handlers, st.options) in r.effects
    // respondWith is called last, exactly when the resolver gives a response, with that response
    ensures r.effects[|r.effects| - 1].RespondWith? <==> r.outcome.Completed? && input.resolved.Some?
    ensures r.effects[|r.effects| - 1].RespondWith? ==>
      r.effects[|r.effects| - 1] == RespondWith(input.requestId, input.resolved.value)
    ensures forall i | 0 <= i < |r.effects| - 1 :: !r.effects[i].RespondWith?
    // a completed run calls exactly: createSyncClient if it had to connect, handleRequest once, respondWith if given a response
    ensures r.outcome.Completed? ==>
      r.effects == (if RemoteMode(st.options) && st.socket.None?
                    then [CreateSyncClient(st.options.remotePort.value)] else [])
                   + [HandleRequest(input.requestId, input.request, r.state.handlers, st.options)]
                   + (if input.resolved.Some? then [RespondWith(input.requestId, input.resolved.value)] else [])
  {
    if !RemoteMode(st.options) then
      Resolve(st, input, [])
    else if st.socket.None? then
      var connect := [CreateSyncClient(st.options.remotePort.value)];
      match input.connect
      case Pending => RequestStep(st, connect, Suspended)
      case Rejected => RequestStep(st, connect, ConnectRejected)
      case Settled(s) => Resolve(PrependRemote(st.(socket := s), input.requestId), input, connect)
    else
      Resolve(PrependRemote(st, input.requestId), input, [])
  }

  /**
   * `SetupServerApi`. The interceptor and emitter are not fields of the model:
   * what the object asks of them is appended to `effects`.
   */
  class SetupServerApi {
    var resolvedOptions: ListenOptions
    var socket: Option<Socket>
    var currentHandlers: seq<Handler>
    var subscriptions: seq<Teardown>
    /** The calls made on collaborators so far, oldest first. */
    var effects: seq<Effect>

    function State(): ServerState
      reads this
    {
      ServerState(resolvedOptions, socket, currentHandlers, subscriptions)
    }

    /** Construction: empty options, no socket, the caller's handlers; `init` subscribes to the interceptor. */
    constructor(handlers: seq<Handler>)
      ensures State() == Initial(handlers)
      ensures effects == [SubscribeInterceptor("request"), SubscribeInterceptor("response")]
    {
      currentHandlers := handlers;
      subscriptions := [];
      resolvedOptions := NoOptions;
      socket := None;
      effects := [SubscribeInterceptor("request"), SubscribeInterceptor("response")];
    }

    /** `listen(options)`, the interceptor being in `readyStateAfterApply` once `apply()` returns. */
    method Listen(options: ListenOptions, readyStateAfterApply: ReadyState) returns (outcome: ListenOutcome)
      modifies this
      ensures var step := ListenTransition(old(State()), options, readyStateAfterApply);
        State() == step.state && effects == old(effects) + step.effects && outcome == step.outcome
    {
      resolvedOptions := MergeRight(DefaultListenOptions, options);
      effects := effects + [SubscribeAnyEvent];
      effects := effects + [ApplyInterceptor];
      subscriptions := subscriptions + [DisposeInterceptor];
      if readyStateAfterApply in AppliedStates {
        outcome := Started;
      } else {
        outcome := InterceptorNotApplied(readyStateAfterApply);
      }
    }

    /**
     * The interceptor's `request` listener, run to its end as one step: the
     * connection attempt settles as `connect` and the resolver yields `resolved`.
     */
    method OnRequest(requestId: string, request: Request, connect: ConnectOutcome, resolved: Option<Response>)
      returns (outcome: RequestOutcome)
      modifies this
      ensures var step := RequestTransition(old(State()), RequestInput(requestId, request, connect, resolved));
        State() == step.state && effects == old(effects) + step.effects && outcome == step.outcome
    {
      ghost var step := RequestTransition(State(), RequestInput(requestId, request, connect, resolved));
      if RemoteMode(resolvedOptions) {
        if socket.None? {
          effects := effects + [CreateSyncClient(resolvedOptions.remotePort.value)];
          match connect
          case Pending =>
            assert step.outcome == Suspended;
            return Suspended;
          case Rejected =>
            assert step.outcome == ConnectRejected;
            return ConnectRejected;
          case Settled(s) =>
            socket := s;
        }
        if socket.Some? {
          currentHandlers := [Remote(requestId, socket.value)] + currentHandlers;
        }
      }
      effects := effects + [HandleRequest(requestId, request, currentHandlers, resolvedOptions)];
      if resolved.Some? {
        effects := effects + [RespondWith(requestId, resolved.value)];
      }
      outcome := Completed;
    }

    /** The interceptor's `response` listener: one emission under the mocked or bypass name. */
    method OnResponse(isMockedResponse: bool, args: EventArgs)
      modifies this`effects
      ensures effects == old(effects) + [Emit(LifeCycleEvent(ResponseEventName(isMockedResponse), args))]
    {
      effects := effects + [Emit(LifeCycleEvent(ResponseEventName(isMockedResponse), args))];
    }

    /** One invocation of the listener `listen` subscribes to every life-cycle event. */
    method OnAnyEvent(event: LifeCycleEvent)
      modifies this`effects
      ensures var f := Forwarding(old(socket), event);
        effects == if f.Some? then old(effects) + [SocketEmit(f.value)] else old(effects)
    {
      var f := Forwarding(socket, event);
      if f.Some? {
        effects := effects + [SocketEmit(f.value)];
      }
    }

    /** `close()`: delegates to the base class's `dispose`. */
    method Close()
      modifies this`effects
      ensures effects == old(effects) + [Dispose]
    {
      effects := effects + [Dispose];
    }
  }
}
