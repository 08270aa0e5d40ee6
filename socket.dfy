/**
  A server-side socket (socket.go): its ID, the wire encoding of outgoing
  events, its room memberships and the idempotent close.
 */
module Socket {
  import opened Wrappers
  import opened Text
  import opened GoData
  import opened Seqs
  import Base64
  import Hub
  import opened Server

  /** Random bytes behind a socket ID. */
  const IdLen: nat := 24

  /** The one-byte header flags of an outgoing frame. */
  const TypeJSON: byte := ByteOf('J')
  const TypeBin: byte := ByteOf('B')
  const TypeStr: byte := ByteOf('S')

  /** WebSocket message types: the text and binary opcodes of section 5.2 of RFC 6455. */
  const TextMessage: int := 1
  const BinaryMessage: int := 2

  /** `newSocketID` over the random bytes it draws: their standard base64 encoding. */
  function NewSocketID(idBuf: Bytes): (id: string)
    requires |idBuf| == IdLen
    ensures |id| == 32 && Base64.Pad !in id
    ensures Base64.Decode(id) == Some(idBuf)
  {
    var id := Base64.Encode(idBuf);
    Base64.EncodeLength(idBuf);
    assert (|idBuf| + 2) / 3 == 8;
    Base64.EncodeUnpadded(idBuf);
    Base64.DecodeEncode(idBuf);
    id
  }

  /** The header flag `emitData` writes for a value. */
  function FlagOf(data: GoValue): byte
  {
    match data
    case GoString(_) => TypeStr
    case GoBytes(_) => TypeBin
    case GoOther(_) => TypeJSON
  }

  /** The payload bytes `emitData` writes for a value: the JSON text, or nothing when marshalling fails. */
  function PayloadOf(data: GoValue): Bytes
  {
    match data
    case GoString(s) => s
    case GoBytes(b) => b
    case GoOther(m) => if m.Some? then m.value else []
  }

  datatype Outgoing = Outgoing(frame: Bytes, msgType: int)

  /** `emitData`: every outgoing frame is `name SOH flag STX payload`. */
  function EmitData(eventName: Bytes, data: GoValue): (out: Outgoing)
    ensures out.frame == eventName + [SOH, FlagOf(data), STX] + PayloadOf(data)
    ensures out.msgType == (if data.GoBytes? then BinaryMessage else TextMessage)
  {
    var header := eventName + [SOH];
    match data
    case GoString(d) => Outgoing(header + [TypeStr, STX] + d, TextMessage)
    case GoBytes(d) => Outgoing(header + [TypeBin, STX] + d, BinaryMessage)
    case GoOther(json) =>
      var frame := header + [TypeJSON, STX];
      Outgoing(if json.Some? then frame + json.value else frame, TextMessage)
  }

  /** A value whose marshalling fails still yields a J text frame, ending right after STX. */
  lemma EmitDataMarshalFailure(eventName: Bytes)
    ensures EmitData(eventName, GoOther(None)).frame == eventName + [SOH, TypeJSON, STX]
    ensures EmitData(eventName, GoOther(None)).msgType == TextMessage
  {
    var out := EmitData(eventName, GoOther(None));
    assert out.frame == out.frame[..|eventName|] + out.frame[|eventName|..];
  }

  class Socket {
    const id: string
    /** The handle under which the hub stores this socket. */
    const ref: Hub.SocketRef
    const serv: SocketServer
    var closed: bool
    /** Whether the underlying WebSocket connection has been closed. */
    var connClosed: bool
    var rooms: set<string>

    predicate InRoom(room: string)
      reads this
    {
      room in rooms
    }

    /** `newSocket`: a fresh socket with a random ID, registered with the hub. */
    constructor (serv: SocketServer, idBuf: Bytes, ref: Hub.SocketRef)
      requires |idBuf| == IdLen && serv.hub.Valid()
      modifies serv.hub`sockets
      ensures serv.hub.Valid()
      ensures this.serv == serv && this.ref == ref && id == NewSocketID(idBuf)
      ensures !closed && !connClosed && rooms == {}
      ensures serv.hub.sockets == old(serv.hub.sockets)[id := ref]
    {
      this.id := NewSocketID(idBuf);
      this.ref := ref;
      this.serv := serv;
      closed := false;
      connClosed := false;
      rooms := {};
      new;
      serv.hub.AddSocket(id, ref);
    }

    /** `GetRooms`: the rooms this socket is in, each once, in the map's (unspecified) order. */
    method GetRooms() returns (list: seq<string>)
      ensures forall r :: r in list <==> r in rooms
      ensures Distinct(list)
    {
      var todo := rooms;
      list := [];
      while todo != {}
        invariant todo <= rooms
        invariant forall r :: r in list <==> r in rooms - todo
        invariant Distinct(list)
        decreases todo
      {
        var r :| r in todo;
        DistinctSnoc(list, r);
        list := list + [r];
        todo := todo - {r};
      }
    }

    /** `Join`: the hub adds the socket to the room, creating it when missing. */
    method Join(room: string)
      requires serv.hub.Valid()
      modifies this`rooms, serv.hub`rooms
      ensures serv.hub.Valid()
      ensures InRoom(room) && rooms == old(rooms) + {room}
      ensures serv.hub.rooms == Hub.AddMember(old(serv.hub.rooms), room, id, ref)
    {
      serv.hub.JoinRoom(room, id, ref);
      rooms := rooms + {room};
    }

    /** `Leave`: the hub removes the socket from the room; a room never joined is left alone. */
    method Leave(room: string)
      requires serv.hub.Valid()
      modifies this`rooms, serv.hub`rooms
      ensures serv.hub.Valid()
      ensures !InRoom(room) && rooms == old(rooms) - {room}
      ensures serv.hub.rooms == Hub.RemoveMember(old(serv.hub.rooms), room, id)
      ensures (room !in old(serv.hub.rooms) || id !in old(serv.hub.rooms)[room]) ==>
                serv.hub.rooms == old(serv.hub.rooms)
    {
      if room !in serv.hub.rooms || id !in serv.hub.rooms[room] {
        Hub.RemoveAbsentMember(serv.hub.rooms, room, id);
      }
      serv.hub.LeaveRoom(room, id);
      rooms := rooms - {room};
    }

    /**
      `Close`, up to the disconnect handler: only the first call has an
      effect (`firstClose`). It closes the connection, leaves every room and
      reports the disconnect handler (when one is set). The socket is still
      registered with the hub while that handler runs; the first close ends
      with `Unregister` once it returns.
     */
    method Close() returns (firstClose: bool, disconnect: Option<HandlerId>)
      requires serv.hub.Valid()
      modifies this, serv.hub
      ensures serv.hub.Valid()
      ensures firstClose <==> !old(closed)
      ensures !firstClose ==> disconnect == None && unchanged(this, serv.hub)
      ensures firstClose ==>
                && closed && connClosed && rooms == {}
                && serv.hub.rooms == Hub.LeaveAll(old(serv.hub.rooms), old(rooms), id)
                && disconnect == old(serv.onDisconnectFunc)
      ensures serv.hub.sockets == old(serv.hub.sockets)
      ensures serv.hub.emitted == old(serv.hub.emitted) && serv.hub.forwarded == old(serv.hub.forwarded)
      ensures serv.hub.multihomeEnabled == old(serv.hub.multihomeEnabled)
    {
      if closed {
        return false, None;
      }
      firstClose := true;
      closed := true;
      connClosed := true;
      var list := GetRooms();
      ghost var left: set<string> := {};
      Hub.LeaveNone(serv.hub.rooms, id);
      for i := 0 to |list|
        modifies this`rooms, serv.hub`rooms
        invariant serv.hub.Valid()
        invariant left <= old(rooms)
        invariant rooms == old(rooms) - left
        invariant serv.hub.rooms == Hub.LeaveAll(old(serv.hub.rooms), left, id)
        invariant forall r :: r in left <==> r in list[..i]
      {
        Hub.LeaveOneMore(old(serv.hub.rooms), left, list[i], id);
        Leave(list[i]);
        left := left + {list[i]};
        assert list[..i + 1] == list[..i] + [list[i]];
      }
      assert list[..|list|] == list;
      assert left == old(rooms);
      disconnect := serv.onDisconnectFunc;
    }

    /** The last step of the first `Close`, after the disconnect handler: the hub forgets the socket. */
    method Unregister()
      requires serv.hub.Valid()
      modifies serv.hub
      ensures serv.hub.Valid()
      ensures serv.hub.sockets == old(serv.hub.sockets) - {id}
      ensures serv.hub.rooms == old(serv.hub.rooms) && serv.hub.multihomeEnabled == old(serv.hub.multihomeEnabled)
      ensures serv.hub.emitted == old(serv.hub.emitted) && serv.hub.forwarded == old(serv.hub.forwarded)
    {
      serv.hub.RemoveSocket(id);
    }
  }
}
