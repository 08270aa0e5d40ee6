/**
  The browser client object `SS` (sacrificial-socket.js): its event registry,
  its reconnect options and the reconnect state machine around the live
  WebSocket. The WebSocket is a record with its `readyState` and handler
  slots; the environment's events (the connection opens, it closes, the
  reconnect timer fires, a frame arrives) are methods. Every call of a user
  callback is appended to `trace`, every frame sent to `sent`.
 */
module Client {
  import opened Wrappers
  import opened Text
  import opened ClientCodec

  /** The `readyState` values of the WebSocket API. */
  const CONNECTING: int := 0
  const OPEN: int := 1
  const CLOSING: int := 2
  const CLOSED: int := 3

  /** A user-supplied callback function, as an opaque handle. */
  type CallbackId = nat

  /** The callback a handler slot runs: the client's own no-op, or a user function. */
  datatype Callback = Noop | User(id: CallbackId)

  /** One call of a user callback. */
  datatype Invocation =
    | Connected(cb: CallbackId)
    | Disconnected(cb: CallbackId)
    | Event(cb: CallbackId, arg: JsValue)

  /**
    The browser's WebSocket object: a serial number telling the sockets the
    client creates apart, its `readyState`, its `onopen` / `onclose` slots
    (each holding the client's wrapper around a callback), whether its
    `onmessage` slot holds the client's decoder, and its `binaryType`.
   */
  datatype WebSocket = WebSocket(serial: nat, readyState: int, onopen: Option<Callback>, onclose: Option<Callback>,
                                 onmessage: bool, binaryType: string)

  /** A frame sent on the socket with the given serial number. */
  datatype Sent = Sent(socket: nat, frame: ClientFrame)

  /** One property enumerated by `for (var i in opts.reconnectOpts)`; `own` is `hasOwnProperty(i)`. */
  datatype Property = Property(key: string, value: JsValue, own: bool)

  const DefaultReconnectOpts: map<string, JsValue> :=
    map["enabled" := JsBool(true), "replayOnConnect" := JsBool(true), "intervalMS" := JsNumber(5000)]

  /** The own properties among the enumerated ones; a later one wins over an earlier one with the same key. */
  function OwnProps(ps: seq<Property>): map<string, JsValue>
  {
    if ps == [] then map[]
    else
      var last := ps[|ps| - 1];
      var before := OwnProps(ps[..|ps| - 1]);
      if last.own then before[last.key := last.value] else before
  }

  /** A key is taken from the user's options exactly when some own property has it, with the last such value. */
  lemma {:induction false} OwnPropsMeaning(ps: seq<Property>, k: string)
    ensures k in OwnProps(ps) <==> exists i :: 0 <= i < |ps| && ps[i].own && ps[i].key == k
    ensures k in OwnProps(ps) ==>
              exists i :: 0 <= i < |ps| && ps[i].own && ps[i].key == k && OwnProps(ps)[k] == ps[i].value
                          && forall j :: i < j < |ps| ==> !(ps[j].own && ps[j].key == k)
  {
    if ps != [] {
      var p := ps[..|ps| - 1];
      var last := ps[|ps| - 1];
      OwnPropsMeaning(p, k);
      if last.own && last.key == k {
        assert ps[|ps| - 1].own && ps[|ps| - 1].key == k;
      } else if k in OwnProps(p) {
        var i :| 0 <= i < |p| && p[i].own && p[i].key == k && OwnProps(p)[k] == p[i].value
                 && forall j :: i < j < |p| ==> !(p[j].own && p[j].key == k);
        assert ps[i] == p[i];
      } else {
        forall i | 0 <= i < |ps| && ps[i].own
          ensures ps[i].key != k
        {
          if i < |p| {
            assert ps[i] == p[i];
          }
        }
      }
    }
  }

  /**
    The option merge in `new SS`: the defaults, overwritten by each own
    property of the user's `reconnectOpts` in enumeration order.
   */
  method MergeReconnectOpts(props: seq<Property>) returns (opts: map<string, JsValue>)
    ensures opts == DefaultReconnectOpts + OwnProps(props)
  {
    opts := DefaultReconnectOpts;
    for i := 0 to |props|
      invariant opts == DefaultReconnectOpts + OwnProps(props[..i])
    {
      assert props[..i + 1][..i] == props[..i];
      if !props[i].own {
        continue;
      }
      opts := opts[props[i].key := props[i].value];
    }
    assert props[..|props|] == props;
  }

  class SS {
    var events: map<string, CallbackId>
    var reconnectOpts: map<string, JsValue>
    var reconnecting: bool
    var connectedOnce: bool
    var ws: WebSocket
    /** Reconnect timers scheduled with `setTimeout` that have not fired yet. */
    var pendingTimers: nat
    /** WebSockets created so far; the live one has the last serial number. */
    var socketsCreated: nat
    var trace: seq<Invocation>
    var sent: seq<Sent>
    /** Whether `close()` has been called. */
    ghost var closeCalled: bool

    ghost predicate Valid()
      reads this
    {
      && "enabled" in reconnectOpts && "replayOnConnect" in reconnectOpts
      && CONNECTING <= ws.readyState <= CLOSED
      && ws.onopen.Some? && ws.onclose.Some? && ws.onmessage && ws.binaryType == "arraybuffer"
      && ws.serial + 1 == socketsCreated
      && pendingTimers <= 1
      && (pendingTimers > 0 ==> ws.readyState == CLOSED && reconnecting)
      && (closeCalled ==> reconnectOpts["enabled"] == JsBool(false))
    }

    /**
      `new SS(url, opts)`: the reconnect options start from the defaults and
      take every own property of `opts.reconnectOpts` when that is an object
      (`userOpts` lists what `for … in` enumerates; None when it is not an
      object); a first WebSocket is created with the no-op handlers installed.
     */
    constructor (userOpts: Option<seq<Property>>)
      ensures Valid()
      ensures reconnectOpts == DefaultReconnectOpts + (if userOpts.Some? then OwnProps(userOpts.value) else map[])
      ensures events == map[] && !reconnecting && !connectedOnce && !closeCalled
      ensures ws == WebSocket(0, CONNECTING, Some(Noop), Some(Noop), true, "arraybuffer")
      ensures pendingTimers == 0 && socketsCreated == 1 && trace == [] && sent == []
    {
      var opts := DefaultReconnectOpts;
      if userOpts.Some? {
        opts := MergeReconnectOpts(userOpts.value);
      }
      events := map[];
      reconnectOpts := opts;
      reconnecting := false;
      connectedOnce := false;
      ws := WebSocket(0, CONNECTING, None, None, false, "blob");
      pendingTimers := 0;
      socketsCreated := 1;
      trace := [];
      sent := [];
      closeCalled := false;
      new;
      ws := ws.(binaryType := "arraybuffer", onmessage := true);
      OnConnect(Noop);
      OnDisconnect(Noop);
    }

    /** `onConnect`: the live socket's `onopen` slot now runs this callback. */
    method OnConnect(callback: Callback)
      modifies this`ws
      ensures ws == old(ws).(onopen := Some(callback))
    {
      ws := ws.(onopen := Some(callback));
    }

    /** `onDisconnect`: the live socket's `onclose` slot now runs this callback. */
    method OnDisconnect(callback: Callback)
      modifies this`ws
      ensures ws == old(ws).(onclose := Some(callback))
    {
      ws := ws.(onclose := Some(callback));
    }

    /** `on`: the last registration for a name wins. */
    method On(eventName: string, callback: CallbackId)
      modifies this`events
      ensures events == old(events)[eventName := callback]
    {
      events := events[eventName := callback];
    }

    /** `off`: forgets the name; nothing happens when it is not registered. */
    method Off(eventName: string)
      modifies this`events
      ensures events == old(events) - {eventName}
      ensures eventName !in old(events) ==> events == old(events)
    {
      if eventName in events {
        events := events - {eventName};
      }
    }

    /**
      `emit`: nothing is sent unless the socket is OPEN; otherwise exactly one
      frame, as `EmitFrame` describes it, unless `JSON.stringify` throws.
     */
    method Emit(eventName: string, data: JsValue)
      requires Valid()
      modifies this`sent
      ensures ws.readyState != OPEN ==> sent == old(sent)
      ensures ws.readyState == OPEN ==>
                sent == old(sent) + (if EmitFrame(eventName, data).Some?
                                     then [Sent(ws.serial, EmitFrame(eventName, data).value)] else [])
    {
      var rs := ws.readyState;
      if rs == CONNECTING {
        return;
      } else if rs == CLOSING || rs == CLOSED {
        return;
      }
      var msg: ClientFrame;
      match data {
        case JsBuffer(b) =>
          var ab := EncodeBinary(eventName, b);
          msg := BinaryFrame(ab[..]);
        case JsObject(json) =>
          if json.None? {
            return;
          }
          msg := TextFrame(eventName + [DataStart] + json.value);
        case JsNull =>
          msg := TextFrame(eventName + [DataStart] + "null");
        case _ =>
          msg := TextFrame(eventName + [DataStart] + ToJsString(data));
      }
      sent := sent + [Sent(ws.serial, msg)];
    }

    /** `close`: reconnecting is switched off for good, and the live socket starts closing. */
    method Close()
      requires Valid()
      modifies this`reconnectOpts, this`ws, this`closeCalled
      ensures Valid() && closeCalled
      ensures reconnectOpts == old(reconnectOpts)["enabled" := JsBool(false)]
      ensures ws == old(ws).(readyState := if old(ws.readyState) <= OPEN then CLOSING else old(ws.readyState))
    {
      reconnectOpts := reconnectOpts["enabled" := JsBool(false)];
      closeCalled := true;
      if ws.readyState == CONNECTING || ws.readyState == OPEN {
        ws := ws.(readyState := CLOSING);
      }
    }

    /**
      The live socket opens: its `onopen` wrapper records the first connection,
      runs the callback (the user's, or the no-op) and ends a reconnect.
     */
    method TransportOpen()
      requires Valid() && ws.readyState == CONNECTING
      modifies this`ws, this`connectedOnce, this`reconnecting, this`trace
      ensures Valid()
      ensures ws == old(ws).(readyState := OPEN)
      ensures connectedOnce && !reconnecting
      ensures trace == old(trace) + (match ws.onopen.value case User(id) => [Connected(id)] case Noop => [])
    {
      ws := ws.(readyState := OPEN);
      connectedOnce := true;
      if ws.onopen.value.User? {
        trace := trace + [Connected(ws.onopen.value.id)];
      }
      if reconnecting {
        reconnecting := false;
      }
    }

    /**
      The live socket closes: the disconnect callback runs only when the
      client had connected and is not already reconnecting; while reconnecting
      is enabled, exactly one reconnect timer is scheduled.
     */
    method TransportClose()
      requires Valid() && ws.readyState != CLOSED
      modifies this`ws, this`reconnecting, this`pendingTimers, this`trace
      ensures Valid()
      ensures ws == old(ws).(readyState := CLOSED)
      ensures var runs := !old(reconnecting) && connectedOnce;
              trace == old(trace) + (match ws.onclose.value
                                     case User(id) => if runs then [Disconnected(id)] else []
                                     case Noop => [])
      ensures Truthy(reconnectOpts["enabled"]) ==> reconnecting && pendingTimers == old(pendingTimers) + 1
      ensures !Truthy(reconnectOpts["enabled"]) ==> reconnecting == old(reconnecting) && pendingTimers == old(pendingTimers)
      ensures closeCalled ==> pendingTimers == old(pendingTimers)
    {
      ws := ws.(readyState := CLOSED);
      if !reconnecting && connectedOnce && ws.onclose.value.User? {
        trace := trace + [Disconnected(ws.onclose.value.id)];
      }
      if Truthy(reconnectOpts["enabled"]) {
        reconnecting := true;
        pendingTimers := pendingTimers + 1;
      }
    }

    /**
      A reconnect timer fires: a new socket replaces the live one, inheriting
      its `onmessage`, `onclose` and `binaryType`. It inherits `onopen` only
      while connections are replayed or none has succeeded yet; otherwise the
      connect slot gets the no-op, so the user's connect callback is not run
      again until `onConnect` is called anew. The timer does not look at
      `enabled`, so one pending after `close()` still creates a socket.
     */
    method TimerFire()
      requires Valid() && pendingTimers > 0
      modifies this`ws, this`pendingTimers, this`socketsCreated
      ensures Valid()
      ensures pendingTimers == old(pendingTimers) - 1 && socketsCreated == old(socketsCreated) + 1
      ensures ws.serial == old(socketsCreated) && ws.readyState == CONNECTING
      ensures ws.onmessage == old(ws.onmessage) && ws.onclose == old(ws.onclose) && ws.binaryType == old(ws.binaryType)
      ensures ws.onopen == if Truthy(reconnectOpts["replayOnConnect"]) || !connectedOnce then old(ws.onopen) else Some(Noop)
    {
      pendingTimers := pendingTimers - 1;
      var newWS := WebSocket(socketsCreated, CONNECTING, None, ws.onclose, ws.onmessage, ws.binaryType);
      socketsCreated := socketsCreated + 1;
      if Truthy(reconnectOpts["replayOnConnect"]) || !connectedOnce {
        newWS := newWS.(onopen := ws.onopen);
      }
      ws := newWS;
      if !Truthy(reconnectOpts["replayOnConnect"]) && connectedOnce {
        OnConnect(Noop);
      }
    }

    /**
      A frame arrives: `onmessage` decodes it and calls the callback registered
      for its name, with `JSON.parse(data)` when the J flag is present. An empty
      or unregistered name calls nothing, and neither does a payload
      `JSON.parse` rejects (it throws out of the handler). `parse` stands for
      `JSON.parse`, None where it throws.
     */
    method Receive(frame: ClientFrame, parse: string -> Option<JsValue>)
      modifies this`trace
      ensures var d := DecodeFrame(frame);
              var arg := if 'J' in d.headers then parse(ToJsString(d.data)) else Some(d.data);
              if d.eventName != [] && d.eventName in events && arg.Some?
              then trace == old(trace) + [Event(events[d.eventName], arg.value)]
              else trace == old(trace)
    {
      var d: Decoded;
      match frame {
        case TextFrame(text) => d := DecodeText(text);
        case BinaryFrame(bytes) => d := DecodeBinary(bytes);
      }
      if |d.eventName| == 0 {
        return;
      }
      if d.eventName !in events {
        return;
      }
      var arg := if 'J' in d.headers then parse(ToJsString(d.data)) else Some(d.data);
      if arg.None? {
        return;
      }
      trace := trace + [Event(events[d.eventName], arg.value)];
    }
  }

  /** What `onmessage` reads from a frame of either kind. */
  function DecodeFrame(frame: ClientFrame): Decoded
  {
    match frame
    case TextFrame(text) => DecodeTextSpec(text)
    case BinaryFrame(bytes) => DecodeBinarySpec(bytes)
  }
}
