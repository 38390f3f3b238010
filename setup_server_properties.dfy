/**
 * Properties of `SetupServerApi` across many requests: the request listener
 * run once per intercepted request, each run as one atomic step.
 */
module SetupServerProperties {
  import opened Wrappers
  import opened LifeCycle
  import opened SetupServer

  /** The state after the request listener has run for each of `inputs`, in order. */
  function RunRequests(st: ServerState, inputs: seq<RequestInput>): ServerState
    decreases |inputs|
  {
    if |inputs| == 0 then st
    else NextState(RunRequests(st, inputs[..|inputs| - 1]), inputs[|inputs| - 1])
  }

  /** Every collaborator call those runs make, in order. */
  function RunEffects(st: ServerState, inputs: seq<RequestInput>): seq<Effect>
    decreases |inputs|
  {
    if |inputs| == 0 then []
    else
      var prefix := inputs[..|inputs| - 1];
      RunEffects(st, prefix) + RequestTransition(RunRequests(st, prefix), inputs[|inputs| - 1]).effects
  }

  /** The remote handlers that `inputs` leave in front of the chain, newest first. */
  function RemoteHandlersFor(inputs: seq<RequestInput>, s: Socket): seq<Handler>
    decreases |inputs|
  {
    if |inputs| == 0 then []
    else [Remote(inputs[|inputs| - 1].requestId, s)] + RemoteHandlersFor(inputs[..|inputs| - 1], s)
  }

  /** Running `a` and then `b` is running `a + b`. */
  lemma {:induction false} RunRequestsAppend(st: ServerState, a: seq<RequestInput>, b: seq<RequestInput>)
    ensures RunRequests(st, a + b) == RunRequests(RunRequests(st, a), b)
    decreases |b|
  {
    if |b| == 0 {
      assert a + b == a;
    } else {
      var ab := a + b;
      var init := b[..|b| - 1];
      var last := b[|b| - 1];
      assert ab[..|ab| - 1] == a + init;
      assert ab[|ab| - 1] == last;
      RunRequestsAppend(st, a, init);
      calc {
        RunRequests(st, ab);
        NextState(RunRequests(st, a + init), last);
        NextState(RunRequests(RunRequests(st, a), init), last);
        RunRequests(RunRequests(st, a), b);
      }
    }
  }

  /** Requests never change the resolved options or the teardown list. */
  lemma {:induction false} RequestsKeepOptionsAndSubscriptions(st: ServerState, inputs: seq<RequestInput>)
    ensures RunRequests(st, inputs).options == st.options
    ensures RunRequests(st, inputs).subscriptions == st.subscriptions
    decreases |inputs|
  {
    if |inputs| > 0 {
      RequestsKeepOptionsAndSubscriptions(st, inputs[..|inputs| - 1]);
    }
  }

  /** Outside remote mode any number of requests leaves socket and chain as they were. */
  lemma {:induction false} LocalModeLeavesStateUnchanged(st: ServerState, inputs: seq<RequestInput>)
    requires !RemoteMode(st.options)
    ensures RunRequests(st, inputs) == st
    decreases |inputs|
  {
    if |inputs| > 0 {
      LocalModeLeavesStateUnchanged(st, inputs[..|inputs| - 1]);
    }
  }

  /** Outside remote mode every resolver call receives the chain exactly as it was. */
  lemma {:induction false} LocalModeResolverSeesBaseChain(st: ServerState, inputs: seq<RequestInput>)
    requires !RemoteMode(st.options)
    ensures forall e | e in RunEffects(st, inputs) && e.HandleRequest? :: e.handlers == st.handlers
    ensures forall e | e in RunEffects(st, inputs) :: !e.CreateSyncClient?
    decreases |inputs|
  {
    if |inputs| > 0 {
      var prefix := inputs[..|inputs| - 1];
      LocalModeResolverSeesBaseChain(st, prefix);
      LocalModeLeavesStateUnchanged(st, prefix);
    }
  }

  /** A socket, once held, is never reassigned by later requests. */
  lemma {:induction false} SocketNeverReassigned(st: ServerState, inputs: seq<RequestInput>)
    requires st.socket.Some?
    ensures RunRequests(st, inputs).socket == st.socket
    decreases |inputs|
  {
    if |inputs| > 0 {
      SocketNeverReassigned(st, inputs[..|inputs| - 1]);
    }
  }

  /** Once a socket is held, no later request tries to connect again. */
  lemma {:induction false} NoReconnectOnceConnected(st: ServerState, inputs: seq<RequestInput>)
    requires st.socket.Some?
    ensures forall e | e in RunEffects(st, inputs) :: !e.CreateSyncClient?
    decreases |inputs|
  {
    if |inputs| > 0 {
      var prefix := inputs[..|inputs| - 1];
      NoReconnectOnceConnected(st, prefix);
      SocketNeverReassigned(st, prefix);
    }
  }

  /**
   * The chain the resolver sees always ends with the chain the requests started
   * from, in the same order; everything put in front of it is a remote handler.
   */
  lemma {:induction false} BaseChainIsKeptAsSuffix(st: ServerState, inputs: seq<RequestInput>)
    ensures var h := RunRequests(st, inputs).handlers;
      && |st.handlers| <= |h| <= |st.handlers| + |inputs|
      && h[|h| - |st.handlers|..] == st.handlers
      && forall i | 0 <= i < |h| - |st.handlers| :: h[i].Remote?
    decreases |inputs|
  {
    if |inputs| > 0 {
      var prefix := inputs[..|inputs| - 1];
      var last := inputs[|inputs| - 1];
      BaseChainIsKeptAsSuffix(st, prefix);
      var prev := RunRequests(st, prefix);
      var before := prev.handlers;
      var after := NextState(prev, last).handlers;
      assert RunRequests(st, inputs).handlers == after;
      if after != before {
        var r := NextState(prev, last);
        assert after == [Remote(last.requestId, r.socket.value)] + before;
        assert after[1..] == before;
        assert after[|after| - |st.handlers|..] == before[|before| - |st.handlers|..];
        forall i | 1 <= i < |after| - |st.handlers| ensures after[i].Remote? {
          assert after[i] == before[i - 1];
        }
      }
    }
  }

  /**
   * In remote mode with a socket held, every request prepends its own remote
   * handler and keeps the earlier ones: the chain is one remote handler per
   * request, newest first, in front of the chain the requests started from.
   */
  lemma {:induction false} RemoteHandlersAccumulate(st: ServerState, inputs: seq<RequestInput>)
    requires RemoteMode(st.options) && st.socket.Some?
    ensures RunRequests(st, inputs).handlers == RemoteHandlersFor(inputs, st.socket.value) + st.handlers
    ensures |RunRequests(st, inputs).handlers| == |st.handlers| + |inputs|
    decreases |inputs|
  {
    if |inputs| > 0 {
      var prefix := inputs[..|inputs| - 1];
      var last := inputs[|inputs| - 1];
      var sock := st.socket.value;
      RemoteHandlersAccumulate(st, prefix);
      SocketNeverReassigned(st, prefix);
      RequestsKeepOptionsAndSubscriptions(st, prefix);
      var prev := RunRequests(st, prefix);
      assert RunRequests(st, inputs) == NextState(prev, last);
      assert NextState(prev, last).handlers == [Remote(last.requestId, sock)] + prev.handlers;
      assert RemoteHandlersFor(inputs, sock) == [Remote(last.requestId, sock)] + RemoteHandlersFor(prefix, sock);
    }
  }

  /**
   * One request in remote mode with a socket held: the resolver is handed this
   * request's remote handler in front of the chain as it was.
   */
  lemma ConnectedResolverCall(st: ServerState, input: RequestInput)
    requires RemoteMode(st.options) && st.socket.Some?
    ensures HandleRequest(input.requestId, input.request,
                          [Remote(input.requestId, st.socket.value)] + st.handlers, st.options)
              in RequestTransition(st, input).effects
  {
    var step := RequestTransition(st, input);
    assert step.outcome.Completed?;
    assert step.state.handlers == [Remote(input.requestId, st.socket.value)] + st.handlers;
  }

  /**
   * The resolver call of a request made after `inputs`, in remote mode with a
   * socket held, receives this request's remote handler, then those of all
   * earlier requests, then the starting chain.
   */
  lemma ResolverSeesAccumulatedChain(st: ServerState, inputs: seq<RequestInput>, next: RequestInput)
    requires RemoteMode(st.options) && st.socket.Some?
    ensures var s := st.socket.value;
      HandleRequest(next.requestId, next.request,
                    [Remote(next.requestId, s)] + RemoteHandlersFor(inputs, s) + st.handlers, st.options)
        in RequestTransition(RunRequests(st, inputs), next).effects
  {
    var s := st.socket.value;
    var prev := RunRequests(st, inputs);
    RemoteHandlersAccumulate(st, inputs);
    SocketNeverReassigned(st, inputs);
    RequestsKeepOptionsAndSubscriptions(st, inputs);
    ConnectedResolverCall(prev, next);
    assert [Remote(next.requestId, s)] + prev.handlers
        == [Remote(next.requestId, s)] + RemoteHandlersFor(inputs, s) + st.handlers;
  }

  /**
   * Two requests in remote mode: the second resolver call is handed the first
   * request's remote handler as well as its own.
   */
  lemma RemoteHandlersPileUp(st: ServerState, first: RequestInput, second: RequestInput)
    requires RemoteMode(st.options) && st.socket.Some?
    ensures var s := st.socket.value;
      HandleRequest(second.requestId, second.request,
                    [Remote(second.requestId, s), Remote(first.requestId, s)] + st.handlers, st.options)
        in RequestTransition(RequestTransition(st, first).state, second).effects
  {
    var s := st.socket.value;
    assert [first][..0] == [];
    assert RunRequests(st, [first]) == RequestTransition(st, first).state;
    assert RemoteHandlersFor([first], s) == [Remote(first.requestId, s)];
    ResolverSeesAccumulatedChain(st, [first], second);
    assert [Remote(second.requestId, s)] + RemoteHandlersFor([first], s) + st.handlers
        == [Remote(second.requestId, s), Remote(first.requestId, s)] + st.handlers;
  }

  /**
   * In remote mode with no socket, a request whose connection attempt rejects,
   * pends or settles without a socket leaves none, so the next request tries again.
   */
  lemma ConnectRetriedWhileUnset(st: ServerState, first: RequestInput, second: RequestInput)
    requires RemoteMode(st.options) && st.socket.None?
    requires !(first.connect.Settled? && first.connect.socket.Some?)
    ensures RequestTransition(RequestTransition(st, first).state, second).effects[0]
      == CreateSyncClient(st.options.remotePort.value)
  {
  }

  /** `listen` without a truthy remote port puts every later request in local mode. */
  lemma ListenWithoutRemotePortIsLocal(st: ServerState, given: ListenOptions, readyState: ReadyState,
                                       inputs: seq<RequestInput>)
    requires given.remotePort.None? || given.remotePort == Some(0)
    ensures var listening := ListenTransition(st, given, readyState).state;
      RunRequests(listening, inputs) == listening
  {
    LocalModeLeavesStateUnchanged(ListenTransition(st, given, readyState).state, inputs);
  }

  /**
   * `listen` with a truthy remote port, then a first request that connects:
   * every later request keeps that socket and never connects again.
   */
  lemma FirstConnectionIsReused(st: ServerState, given: ListenOptions, readyState: ReadyState,
                                first: RequestInput, s: Socket, rest: seq<RequestInput>)
    requires st.socket.None?
    requires given.remotePort.Some? && given.remotePort.value != 0
    requires first.connect == Settled(Some(s))
    ensures var listening := ListenTransition(st, given, readyState).state;
      var connected := RequestTransition(listening, first).state;
      && RunRequests(listening, [first] + rest).socket == Some(s)
      && forall e | e in RunEffects(connected, rest) :: !e.CreateSyncClient?
  {
    var listening := ListenTransition(st, given, readyState).state;
    var connected := RequestTransition(listening, first).state;
    assert RunRequests(listening, [first]) == connected by {
      assert [first][..0] == [];
    }
    RunRequestsAppend(listening, [first], rest);
    SocketNeverReassigned(connected, rest);
    NoReconnectOnceConnected(connected, rest);
  }
}
