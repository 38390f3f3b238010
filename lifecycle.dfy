/**
 * The life-cycle events of an intercepted exchange, and the two pure decisions
 * `SetupServerApi` makes about them: which name a response event is emitted
 * under, and whether an event is mirrored to the remote process over the socket.
 */
module LifeCycle {
  import opened Wrappers

  /** An opaque handle on the socket.io connection to the remote counterpart. */
  datatype Socket = Socket(id: nat)

  /**
   * An intercepted request. Header names are the keys of `headers`, already in
   * the lower-case form in which `Headers.get` looks them up.
   */
  datatype Request = Request(verb: string, url: string, headers: map<string, string>)

  /** An opaque response (mocked or from the network). */
  datatype Response = Response(id: nat)

  /** The arguments a listener receives with an event. */
  datatype EventArgs = EventArgs(request: Request, requestId: string, response: Option<Response>)

  /** One emission on the life-cycle emitter: an event name and its arguments. */
  datatype LifeCycleEvent = LifeCycleEvent(name: string, args: EventArgs)

  /** One `socket.emit(channel, eventName, payload)` made by the forwarding listener. */
  datatype Forward = Forward(socket: Socket, channel: string, eventName: string, payload: EventArgs)

  const RequestStart: string := "request:start"
  const RequestMatch: string := "request:match"
  const RequestUnhandled: string := "request:unhandled"
  const RequestEnd: string := "request:end"
  const ResponseMocked: string := "response:mocked"
  const ResponseBypass: string := "response:bypass"

  /** The channel every mirrored event goes out on. */
  const ForwardChannel: string := "lifeCycleEventForward"

  /** The header, and its value, that mark traffic this library issues itself. */
  const RequestTypeHeader: string := "x-msw-request-type"
  const InternalRequest: string := "internal-request"

  /** The four request-phase names the forwarding switch lists. */
  predicate IsRequestPhase(name: string) {
    name == RequestStart || name == RequestMatch || name == RequestUnhandled || name == RequestEnd
  }

  /** The two response-phase names the forwarding switch lists. */
  predicate IsResponsePhase(name: string) {
    name == ResponseBypass || name == ResponseMocked
  }

  /** The six event names the forwarding switch has a case for. */
  predicate IsForwardedKind(name: string) {
    IsRequestPhase(name) || IsResponsePhase(name)
  }

  /** The request-type header is present and equals `internal-request`. */
  predicate IsInternalRequest(request: Request) {
    RequestTypeHeader in request.headers && request.headers[RequestTypeHeader] == InternalRequest
  }

  /**
   * The name the interceptor's `response` listener emits under: the mocked
   * name exactly when the response came from a handler.
   */
  function ResponseEventName(isMockedResponse: bool): (name: string)
    ensures name == ResponseMocked <==> isMockedResponse
    ensures name == ResponseBypass <==> !isMockedResponse
    ensures IsResponsePhase(name) && !IsRequestPhase(name)
  {
    if isMockedResponse then ResponseMocked else ResponseBypass
  }

  /**
   * The work of the listener subscribed to every event: nothing while no
   * socket is held; otherwise, for an event named in the switch whose request
   * is not internal, one emission on the forward channel under the event's own
   * name, carrying the (serialized) listener arguments, on the socket held when
   * the event fired.
   */
  function Forwarding(socket: Option<Socket>, event: LifeCycleEvent): (r: Option<Forward>)
    ensures socket.None? ==> r.None?
    ensures IsInternalRequest(event.args.request) ==> r.None?
    ensures r.Some? <==> socket.Some? && IsForwardedKind(event.name) && !IsInternalRequest(event.args.request)
    ensures r.Some? ==> r.value.socket == socket.value
    ensures r.Some? ==> r.value.channel == ForwardChannel
    ensures r.Some? ==> r.value.eventName == event.name && r.value.payload == event.args
  {
    match socket
    case None => None
    case Some(s) =>
      if IsRequestPhase(event.name) then
        if IsInternalRequest(event.args.request) then None
        else Some(Forward(s, ForwardChannel, event.name, event.args))
      else if IsResponsePhase(event.name) then
        if IsInternalRequest(event.args.request) then None
        else Some(Forward(s, ForwardChannel, event.name, event.args))
      else None
  }

  /**
   * A response event that the interceptor's listener emits is mirrored exactly
   * when a socket is held and the request is not internal, and it goes out
   * under `response:mocked` or `response:bypass` according to the mocked flag.
   */
  lemma ResponseEventForwarding(socket: Option<Socket>, isMockedResponse: bool, args: EventArgs)
    ensures var f := Forwarding(socket, LifeCycleEvent(ResponseEventName(isMockedResponse), args));
      && (f.Some? <==> socket.Some? && !IsInternalRequest(args.request))
      && (f.Some? ==> f.value.eventName == (if isMockedResponse then ResponseMocked else ResponseBypass))
  {
  }
}
