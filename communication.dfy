/** The per-component communication facade of xpcc: every call builds one
    message header from its arguments and the calling component's id, and hands
    exactly one (header, payload) pair to the backend. The backend is modelled
    only by the log of what was handed to it. */
module Communication {
  import opened Ints

  /** Kind of an xpcc message. Events travel as REQUEST with destination 0. */
  datatype HeaderType = REQUEST | RESPONSE | NEGATIVE_RESPONSE

  /** The xpcc message header: it fully determines the routing of a message. */
  datatype Header = Header(
    headerType: HeaderType,
    isAcknowledge: bool,
    destination: uint8,
    source: uint8,
    packetIdentifier: uint8)

  /** Correlation token of a received request: who asked, and under which identifier. */
  datatype ResponseHandle = ResponseHandle(source: uint8, packetIdentifier: uint8)

  /** One (header, payload) pair handed to the backend; the payload is the raw
      bytes of the data object. */
  datatype Packet = Packet(header: Header, payload: seq<uint8>)

  /** What a header means for its receiver. */
  datatype Traffic = Action | Event | Response | NegativeResponse

  /** Destination 0 marks an event (a broadcast); a directed REQUEST is an action call. */
  function Classify(h: Header): Traffic
  {
    match h.headerType
    case REQUEST => if h.destination == 0 then Event else Action
    case RESPONSE => Response
    case NEGATIVE_RESPONSE => NegativeResponse
  }

  /** The handle a component receives together with request `h`. */
  function HandleOf(h: Header): ResponseHandle
  {
    ResponseHandle(h.source, h.packetIdentifier)
  }

  // --- the headers the facade builds -------------------------------------

  function ActionHeader(current: uint8, receiver: uint8, actionIdentifier: uint8): Header
  {
    Header(REQUEST, false, receiver, current, actionIdentifier)
  }

  function ResponseHeader(current: uint8, handle: ResponseHandle): Header
  {
    Header(RESPONSE, false, handle.source, current, handle.packetIdentifier)
  }

  function NegativeResponseHeader(current: uint8, handle: ResponseHandle): Header
  {
    Header(NEGATIVE_RESPONSE, false, handle.source, current, handle.packetIdentifier)
  }

  function EventHeader(current: uint8, eventIdentifier: uint8): Header
  {
    Header(REQUEST, false, 0, current, eventIdentifier)
  }

  /** An action call to a non-zero receiver is an action addressed to that
      receiver, from the caller, under the action identifier. A call to receiver 0
      cannot be told apart from an event on the wire. */
  lemma ActionHeaderIsAction(current: uint8, receiver: uint8, actionIdentifier: uint8)
    ensures var h := ActionHeader(current, receiver, actionIdentifier);
      && h.destination == receiver && h.source == current && h.packetIdentifier == actionIdentifier
      && !h.isAcknowledge
      && (Classify(h) == Action <==> receiver != 0)
      && (receiver == 0 ==> h == EventHeader(current, actionIdentifier))
  {
  }

  /** An event is a broadcast from the publisher under the event identifier. */
  lemma EventHeaderIsEvent(current: uint8, eventIdentifier: uint8)
    ensures var h := EventHeader(current, eventIdentifier);
      && Classify(h) == Event && h.destination == 0
      && h.source == current && h.packetIdentifier == eventIdentifier && !h.isAcknowledge
  {
  }

  /** Answering a received request addresses the requester, reuses its packet
      identifier and names the answering component as source, for both the
      positive and the negative answer. */
  lemma ResponseCorrelation(request: Header, current: uint8)
    ensures var r := ResponseHeader(current, HandleOf(request));
      && Classify(r) == Response
      && r.destination == request.source
      && r.packetIdentifier == request.packetIdentifier
      && r.source == current
      && !r.isAcknowledge
    ensures var n := NegativeResponseHeader(current, HandleOf(request));
      && Classify(n) == NegativeResponse
      && n.destination == request.source
      && n.packetIdentifier == request.packetIdentifier
      && n.source == current
      && !n.isAcknowledge
  {
  }

  /** A negative response differs from the response to the same handle in its
      type only. */
  lemma NegativeDiffersOnlyInType(current: uint8, handle: ResponseHandle)
    ensures NegativeResponseHeader(current, handle)
         == ResponseHeader(current, handle).(headerType := NEGATIVE_RESPONSE)
    ensures ResponseHeader(current, handle) != NegativeResponseHeader(current, handle)
  {
  }

  /** The abstract backend: `sendPacket` is recorded, in order. */
  class Backend {
    ghost var sent: seq<Packet>

    constructor ()
      ensures sent == []
    {
      sent := [];
    }

    method SendPacket(header: Header, payload: seq<uint8>)
      modifies this
      ensures sent == old(sent) + [Packet(header, payload)]
    {
      sent := sent + [Packet(header, payload)];
    }
  }

  /** The facade of one component. */
  class Facade {
    const currentComponent: uint8
    const backend: Backend

    constructor (currentComponent: uint8, backend: Backend)
      ensures this.currentComponent == currentComponent && this.backend == backend
    {
      this.currentComponent := currentComponent;
      this.backend := backend;
    }

    /** Send one REQUEST, without acknowledge, to `receiver`. */
    method CallAction(receiver: uint8, actionIdentifier: uint8, data: seq<uint8>)
      modifies backend
      ensures backend.sent == old(backend.sent)
        + [Packet(Header(REQUEST, false, receiver, currentComponent, actionIdentifier), data)]
    {
      var header := ActionHeader(currentComponent, receiver, actionIdentifier);
      backend.SendPacket(header, data);
    }

    /** The overload with a response callback sends the same packet; the
        callback is accepted and not stored anywhere. */
    method CallActionWithCallback<Callback>(receiver: uint8, actionIdentifier: uint8, data: seq<uint8>,
                                            responseCallback: Callback)
      modifies backend
      ensures backend.sent == old(backend.sent)
        + [Packet(Header(REQUEST, false, receiver, currentComponent, actionIdentifier), data)]
    {
      var header := ActionHeader(currentComponent, receiver, actionIdentifier);
      backend.SendPacket(header, data);
    }

    method SendResponse(handle: ResponseHandle, data: seq<uint8>)
      modifies backend
      ensures backend.sent == old(backend.sent)
        + [Packet(Header(RESPONSE, false, handle.source, currentComponent, handle.packetIdentifier), data)]
    {
      var header := ResponseHeader(currentComponent, handle);
      backend.SendPacket(header, data);
    }

    method SendNegativeResponse(handle: ResponseHandle, data: seq<uint8>)
      modifies backend
      ensures backend.sent == old(backend.sent)
        + [Packet(Header(NEGATIVE_RESPONSE, false, handle.source, currentComponent, handle.packetIdentifier), data)]
    {
      var header := NegativeResponseHeader(currentComponent, handle);
      backend.SendPacket(header, data);
    }

    method PublishEvent(eventIdentifier: uint8, data: seq<uint8>)
      modifies backend
      ensures backend.sent == old(backend.sent)
        + [Packet(Header(REQUEST, false, 0, currentComponent, eventIdentifier), data)]
    {
      var header := EventHeader(currentComponent, eventIdentifier);
      backend.SendPacket(header, data);
    }
  }

  /** Whatever sequence of facade calls a component makes, no packet it hands
      to the backend asks for an acknowledge, and every packet names the
      component as its source. */
  ghost predicate FromComponent(log: seq<Packet>, current: uint8)
  {
    forall k :: 0 <= k < |log| ==> !log[k].header.isAcknowledge && log[k].header.source == current
  }

  method FacadeCallsNeverAcknowledge(f: Facade, receiver: uint8, id: uint8, handle: ResponseHandle,
                                     data: seq<uint8>)
    requires FromComponent(f.backend.sent, f.currentComponent)
    modifies f.backend
    ensures FromComponent(f.backend.sent, f.currentComponent)
    ensures |f.backend.sent| == |old(f.backend.sent)| + 5
  {
    f.CallAction(receiver, id, data);
    f.CallActionWithCallback(receiver, id, data, 0);
    f.SendResponse(handle, data);
    f.SendNegativeResponse(handle, data);
    f.PublishEvent(id, data);
  }
}
