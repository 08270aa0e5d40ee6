/**
  The socket server (server.go): the protocol constants, the event registry,
  the sub-protocol check made during the WebSocket handshake, and the frame
  parse inside the per-connection read loop.
 */
module Server {
  import opened Wrappers
  import opened Text
  import opened Seqs
  import Hub

  /** Start of header, ASCII SOH. */
  const SOH: byte := 1
  /** Start of data, ASCII STX. */
  const STX: byte := 2
  /** The WebSocket sub-protocol name (section 1.9 of RFC 6455) the server insists on. */
  const SupportedSubProtocol: string := "sac-sock"

  /** A Go handler function registered with the server, as an opaque handle. */
  type HandlerId = nat

  datatype Frame = Frame(eventName: Bytes, payload: Bytes)

  /**
    What the server reads from a frame: the name is everything before the first
    STX and the payload everything after it. SOH and header bytes are not
    interpreted. A frame without STX, or whose name would be empty, carries no event.
   */
  function ParseFrame(msg: Bytes): (r: Option<Frame>)
    ensures r.None? <==> STX !in msg || msg[0] == STX
    ensures r.Some? ==> msg == r.value.eventName + [STX] + r.value.payload
    ensures r.Some? ==> r.value.eventName != [] && STX !in r.value.eventName
  {
    var k := IndexOf(msg, STX);
    if k == |msg| || k == 0 then None
    else Some(Frame(msg[..k], msg[k + 1..]))
  }

  /** Any name free of STX, followed by STX and any payload, is parsed back exactly. */
  lemma ParseFrameInverse(name: Bytes, payload: Bytes)
    requires name != [] && STX !in name
    ensures ParseFrame(name + [STX] + payload) == Some(Frame(name, payload))
  {
    var msg := name + [STX] + payload;
    assert msg[|name|] == STX;
    assert msg[..|name|] == name;
    IndexOfUnique(msg, STX, |name|);
    assert msg[|name| + 1..] == payload;
  }

  /**
    The scan of the read loop: stops at the first STX and returns the name
    before it and the index where the content starts (both zero when there is no STX).
   */
  method ScanFrame(msg: Bytes) returns (eventName: Bytes, contentIdx: nat)
    ensures eventName == [] <==> ParseFrame(msg).None?
    ensures ParseFrame(msg).Some? ==>
              eventName == ParseFrame(msg).value.eventName
              && contentIdx <= |msg| && msg[contentIdx..] == ParseFrame(msg).value.payload
  {
    eventName, contentIdx := [], 0;
    var idx := 0;
    while idx < |msg|
      invariant 0 <= idx <= |msg|
      invariant STX !in msg[..idx]
    {
      if msg[idx] == STX {
        eventName := msg[..idx];
        contentIdx := idx + 1;
        IndexOfUnique(msg, STX, idx);
        return;
      }
      assert msg[..idx + 1] == msg[..idx] + [msg[idx]];
      idx := idx + 1;
    }
    assert msg[..idx] == msg;
  }

  /** `protocolSupported`: a linear search of the offered sub-protocols. */
  method ProtocolSupported(offered: seq<string>) returns (ok: bool)
    ensures ok <==> SupportedSubProtocol in offered
  {
    for i := 0 to |offered|
      invariant SupportedSubProtocol !in offered[..i]
    {
      if offered[i] == SupportedSubProtocol {
        return true;
      }
      assert offered[..i + 1] == offered[..i] + [offered[i]];
    }
    assert offered[..|offered|] == offered;
    return false;
  }

  /** One handler invocation: `handler(socket, payload)`. */
  datatype HandlerCall = HandlerCall(handler: HandlerId, payload: Bytes)

  class SocketServer {
    const hub: Hub.Hub
    var events: map<Bytes, HandlerId>
    var onConnectFunc: Option<HandlerId>
    var onDisconnectFunc: Option<HandlerId>

    /** `NewServer`: a fresh hub and no handlers. */
    constructor ()
      ensures fresh(hub) && hub.Valid()
      ensures hub.sockets == map[] && hub.rooms == map[] && !hub.multihomeEnabled
      ensures events == map[] && onConnectFunc == None && onDisconnectFunc == None
    {
      hub := new Hub.Hub();
      events := map[];
      onConnectFunc := None;
      onDisconnectFunc := None;
    }

    /** `On`: registers the handler for the event name, replacing any earlier one. */
    method On(eventName: Bytes, handler: HandlerId)
      modifies this`events
      ensures events == old(events)[eventName := handler]
    {
      events := events[eventName := handler];
    }

    /** `OnConnect`: a single slot, replaced on every call. */
    method OnConnect(handler: HandlerId)
      modifies this`onConnectFunc
      ensures onConnectFunc == Some(handler)
    {
      onConnectFunc := Some(handler);
    }

    /** `OnDisconnect`: a single slot, replaced on every call. */
    method OnDisconnect(handler: HandlerId)
      modifies this`onDisconnectFunc
      ensures onDisconnectFunc == Some(handler)
    {
      onDisconnectFunc := Some(handler);
    }

    /**
      The body of the read loop for one received frame: parse it and look the
      name up. A handler runs only for a registered name; anything else is ignored.
     */
    method Dispatch(msg: Bytes) returns (call: Option<HandlerCall>)
      ensures call.Some? <==> ParseFrame(msg).Some? && ParseFrame(msg).value.eventName in events
      ensures call.Some? ==> call.value == HandlerCall(events[ParseFrame(msg).value.eventName], ParseFrame(msg).value.payload)
    {
      var eventName, contentIdx := ScanFrame(msg);
      if eventName == [] {
        return None;
      }
      if eventName in events {
        call := Some(HandlerCall(events[eventName], msg[contentIdx..]));
      } else {
        call := None;
      }
    }
  }
}
