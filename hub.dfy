/**
  The socket hub (hub.go): the server's table of live sockets and of rooms,
  and the fan-out of roomcasts and broadcasts. In the source one goroutine
  serves a channel per request kind; each `select` case is modelled here as
  one method, run to completion before the next.
 */
module Hub {
  import opened Wrappers
  import opened Text
  import opened GoData

  type SocketId = string

  /** A `*Socket` reference held by the hub, as an opaque handle. */
  type SocketRef = nat

  /** A registered multihome backend, as an opaque handle. */
  type BackendId = nat

  datatype RoomMsg = RoomMsg(roomName: string, eventName: Bytes, data: GoValue)

  datatype BroadcastMsg = BroadcastMsg(eventName: Bytes, data: GoValue)

  /** One `s.Emit(eventName, data)` call the hub makes on the socket `socket` known as `id`. */
  datatype Emission = Emission(id: SocketId, socket: SocketRef, eventName: Bytes, data: GoValue)

  /** One call of the backend's `RoomcastToBackend` or `BroadcastToBackend`. */
  datatype Forward = RoomcastToBackend(room: RoomMsg) | BroadcastToBackend(cast: BroadcastMsg)

  type Members = map<SocketId, SocketRef>

  /** `es` emits `eventName`/`data` to every member exactly once, and to nobody else. */
  ghost predicate EmitsToEachOnce(es: seq<Emission>, members: Members, eventName: Bytes, data: GoValue)
  {
    && (forall i :: 0 <= i < |es| ==>
          es[i].id in members && es[i].socket == members[es[i].id]
          && es[i].eventName == eventName && es[i].data == data)
    && (forall i, j :: 0 <= i < j < |es| ==> es[i].id != es[j].id)
    && (forall id :: id in members ==> exists i :: 0 <= i < |es| && es[i].id == id)
  }

  /** The loop of `EmitToAll` part way: every member outside `todo` has had its one emission. */
  ghost predicate EmittedExcept(sent: seq<Emission>, todo: set<SocketId>, members: Members, eventName: Bytes, data: GoValue)
  {
    && (forall i :: 0 <= i < |sent| ==>
          sent[i].id in members && sent[i].id !in todo && sent[i].socket == members[sent[i].id]
          && sent[i].eventName == eventName && sent[i].data == data)
    && (forall i, j :: 0 <= i < j < |sent| ==> sent[i].id != sent[j].id)
    && (forall id :: id in members && id !in todo ==> exists i :: 0 <= i < |sent| && sent[i].id == id)
  }

  /** Emitting to one more member of `todo` keeps the loop's account. */
  lemma EmitOneMore(sent: seq<Emission>, todo: set<SocketId>, members: Members, eventName: Bytes, data: GoValue, id: SocketId)
    requires id in todo && todo <= members.Keys
    requires EmittedExcept(sent, todo, members, eventName, data)
    ensures EmittedExcept(sent + [Emission(id, members[id], eventName, data)], todo - {id}, members, eventName, data)
  {
    var sent' := sent + [Emission(id, members[id], eventName, data)];
    forall id' | id' in members && id' !in todo - {id}
      ensures exists i :: 0 <= i < |sent'| && sent'[i].id == id'
    {
      if id' == id {
        assert sent'[|sent|].id == id';
      } else {
        var i :| 0 <= i < |sent| && sent[i].id == id';
        assert sent'[i].id == id';
      }
    }
  }

  /** With nothing left to do, each member has had exactly one emission. */
  lemma EmittedAll(sent: seq<Emission>, members: Members, eventName: Bytes, data: GoValue)
    requires EmittedExcept(sent, {}, members, eventName, data)
    ensures EmitsToEachOnce(sent, members, eventName, data)
  {
  }

  /** The rooms after `id` leaves `room`: the room loses the member and disappears once empty. */
  function RemoveMember(rooms: map<string, Members>, room: string, id: SocketId): (r: map<string, Members>)
    ensures room in r ==> id !in r[room]
    ensures room !in rooms ==> r == rooms
    ensures room in rooms && rooms[room] - {id} == map[] ==> room !in r
    ensures room in rooms && rooms[room] - {id} != map[] ==> room in r && r[room] == rooms[room] - {id}
    ensures forall q :: q != room ==> (q in r <==> q in rooms) && (q in r ==> r[q] == rooms[q])
  {
    if room in rooms then
      var left := rooms[room] - {id};
      if left == map[] then rooms - {room} else rooms[room := left]
    else rooms
  }

  /** The rooms after `id` joins `room`, creating it when missing. */
  function AddMember(rooms: map<string, Members>, room: string, id: SocketId, s: SocketRef): (r: map<string, Members>)
    ensures room in r && id in r[room] && r[room][id] == s
    ensures r[room] == (if room in rooms then rooms[room] else map[])[id := s]
    ensures forall q :: q != room ==> (q in r <==> q in rooms) && (q in r ==> r[q] == rooms[q])
  {
    var members := if room in rooms then rooms[room] else map[];
    rooms[room := members[id := s]]
  }

  /** No room is ever empty. */
  ghost predicate NoEmptyRooms(rooms: map<string, Members>)
  {
    forall r :: r in rooms ==> rooms[r] != map[]
  }

  /** Joining keeps every room non-empty. */
  lemma AddMemberNoEmptyRooms(rooms: map<string, Members>, room: string, id: SocketId, s: SocketRef)
    requires NoEmptyRooms(rooms)
    ensures NoEmptyRooms(AddMember(rooms, room, id, s))
  {
    var r := AddMember(rooms, room, id, s);
    forall q | q in r
      ensures r[q] != map[]
    {
      if q == room {
        assert id in r[q];
      }
    }
  }

  /** Leaving keeps every room non-empty: an emptied room is deleted. */
  lemma RemoveMemberNoEmptyRooms(rooms: map<string, Members>, room: string, id: SocketId)
    requires NoEmptyRooms(rooms)
    ensures NoEmptyRooms(RemoveMember(rooms, room, id))
  {
  }

  /** Leaving a room one never joined changes nothing. */
  lemma RemoveAbsentMember(rooms: map<string, Members>, room: string, id: SocketId)
    requires NoEmptyRooms(rooms)
    requires room !in rooms || id !in rooms[room]
    ensures RemoveMember(rooms, room, id) == rooms
  {
    if room in rooms {
      assert rooms[room] - {id} == rooms[room];
    }
  }

  /** Join followed by leave restores the rooms, when the socket was not already a member. */
  lemma JoinThenLeave(rooms: map<string, Members>, room: string, id: SocketId, s: SocketRef)
    requires NoEmptyRooms(rooms)
    requires room !in rooms || id !in rooms[room]
    ensures RemoveMember(AddMember(rooms, room, id, s), room, id) == rooms
  {
    var members: Members := if room in rooms then rooms[room] else map[];
    AddRemove(members, id, s);
    var joined := rooms[room := members[id := s]];
    if room in rooms {
      UpdateSame(rooms, room);
      assert joined[room := members] == rooms[room := members];
    } else {
      assert joined - {room} == rooms;
    }
  }

  /** Adding an absent key and removing it again gives back the map. */
  lemma AddRemove(members: Members, id: SocketId, s: SocketRef)
    requires id !in members
    ensures members[id := s] - {id} == members
  {
  }

  /** Writing back the value a key already has changes nothing. */
  lemma UpdateSame(rooms: map<string, Members>, room: string)
    requires room in rooms
    ensures rooms[room := rooms[room]] == rooms
  {
  }

  /** The rooms after `id` has left every room named in `names`. */
  function LeaveAll(rooms: map<string, Members>, names: set<string>, id: SocketId): (r: map<string, Members>)
    ensures forall q :: q in names && q in r ==> id !in r[q]
  {
    map q | q in rooms && (q !in names || rooms[q] - {id} != map[]) ::
      if q in names then rooms[q] - {id} else rooms[q]
  }

  lemma LeaveNone(rooms: map<string, Members>, id: SocketId)
    ensures LeaveAll(rooms, {}, id) == rooms
  {
  }

  /** Leaving the rooms one by one is leaving them all at once. */
  lemma LeaveOneMore(rooms: map<string, Members>, names: set<string>, room: string, id: SocketId)
    requires NoEmptyRooms(rooms)
    ensures RemoveMember(LeaveAll(rooms, names, id), room, id) == LeaveAll(rooms, names + {room}, id)
  {
    var before := LeaveAll(rooms, names, id);
    var lhs := RemoveMember(before, room, id);
    var rhs := LeaveAll(rooms, names + {room}, id);
    if room in rooms && room in names {
      assert room in before ==> before[room] - {id} == before[room];
    }
    forall q
      ensures (q in lhs <==> q in rhs) && (q in lhs ==> lhs[q] == rhs[q])
    {
      if q == room && room in rooms && room !in names {
        assert before[room] == rooms[room];
      }
    }
  }

  class Hub {
    var sockets: map<SocketId, SocketRef>
    var rooms: map<string, Members>
    var multihomeEnabled: bool
    var multihomeBackend: Option<BackendId>
    /** Every `s.Emit` call made so far, in order. */
    var emitted: seq<Emission>
    /** Every call forwarded to the multihome backend so far, in order. */
    var forwarded: seq<Forward>

    ghost predicate Valid()
      reads this
    {
      && NoEmptyRooms(rooms)
      && (multihomeEnabled <==> multihomeBackend.Some?)
    }

    /** `newHub`: no sockets, no rooms, no backend. */
    constructor ()
      ensures Valid()
      ensures sockets == map[] && rooms == map[] && !multihomeEnabled
      ensures emitted == [] && forwarded == []
    {
      sockets := map[];
      rooms := map[];
      multihomeEnabled := false;
      multihomeBackend := None;
      emitted := [];
      forwarded := [];
    }

    /** `setMultihomeBackend`: only the first backend is taken; later calls change nothing. */
    method SetMultihomeBackend(b: BackendId)
      requires Valid()
      modifies this
      ensures Valid()
      ensures old(multihomeEnabled) ==> multihomeBackend == old(multihomeBackend)
      ensures !old(multihomeEnabled) ==> multihomeBackend == Some(b)
      ensures multihomeEnabled
      ensures sockets == old(sockets) && rooms == old(rooms)
      ensures emitted == old(emitted) && forwarded == old(forwarded)
    {
      if multihomeEnabled {
        return;
      }
      multihomeBackend := Some(b);
      multihomeEnabled := true;
    }

    /** The `addCh` case: insert or replace the socket under its ID. */
    method AddSocket(id: SocketId, s: SocketRef)
      requires Valid()
      modifies this`sockets
      ensures Valid()
      ensures sockets == old(sockets)[id := s]
    {
      sockets := sockets[id := s];
    }

    /** The `delCh` case: remove the socket with this ID, if any. */
    method RemoveSocket(id: SocketId)
      requires Valid()
      modifies this`sockets
      ensures Valid()
      ensures sockets == old(sockets) - {id}
    {
      sockets := sockets - {id};
    }

    /** The `joinRoomCh` case: create the room when missing, then add the socket under its ID. */
    method JoinRoom(room: string, id: SocketId, s: SocketRef)
      requires Valid()
      modifies this`rooms
      ensures Valid()
      ensures rooms == AddMember(old(rooms), room, id, s)
    {
      var members: Members := if room in rooms then rooms[room] else map[];
      rooms := rooms[room := members[id := s]];
      AddMemberNoEmptyRooms(old(rooms), room, id, s);
    }

    /** The `leaveRoomCh` case: remove the socket; delete the room once empty; unknown rooms are ignored. */
    method LeaveRoom(room: string, id: SocketId)
      requires Valid()
      modifies this`rooms
      ensures Valid()
      ensures rooms == RemoveMember(old(rooms), room, id)
    {
      if room in rooms {
        var members: Members := rooms[room] - {id};
        if members == map[] {
          rooms := rooms - {room};
        } else {
          rooms := rooms[room := members];
        }
      }
      RemoveMemberNoEmptyRooms(old(rooms), room, id);
    }

    /** `s.Emit(eventName, data)` for every socket of `members`, in the map's (unspecified) order. */
    method EmitToAll(members: Members, eventName: Bytes, data: GoValue)
      modifies this`emitted
      ensures |emitted| >= |old(emitted)| && emitted[..|old(emitted)|] == old(emitted)
      ensures EmitsToEachOnce(emitted[|old(emitted)|..], members, eventName, data)
    {
      var todo := members.Keys;
      var sent: seq<Emission> := [];
      while todo != {}
        invariant todo <= members.Keys
        invariant emitted == old(emitted) + sent
        invariant EmittedExcept(sent, todo, members, eventName, data)
        decreases todo
      {
        var id :| id in todo;
        var e := Emission(id, members[id], eventName, data);
        EmitOneMore(sent, todo, members, eventName, data, id);
        sent := sent + [e];
        emitted := emitted + [e];
        todo := todo - {id};
      }
      assert emitted[|old(emitted)|..] == sent;
      EmittedAll(sent, members, eventName, data);
    }

    /** The `roomMsgCh` case: emit to the room's members, then forward when multihome is on. */
    method Roomcast(msg: RoomMsg)
      requires Valid()
      modifies this`emitted, this`forwarded
      ensures Valid()
      ensures |emitted| >= |old(emitted)| && emitted[..|old(emitted)|] == old(emitted)
      ensures EmitsToEachOnce(emitted[|old(emitted)|..],
                              if msg.roomName in rooms then rooms[msg.roomName] else map[],
                              msg.eventName, msg.data)
      ensures forwarded == old(forwarded) + (if multihomeEnabled then [RoomcastToBackend(msg)] else [])
    {
      if msg.roomName in rooms {
        EmitToAll(rooms[msg.roomName], msg.eventName, msg.data);
      } else {
        assert emitted[|old(emitted)|..] == [];
      }
      if multihomeEnabled {
        forwarded := forwarded + [RoomcastToBackend(msg)];
      }
    }

    /** The `broomcastCh` case: a roomcast that came from the backend is delivered locally, never forwarded. */
    method RoomcastFromBackend(msg: RoomMsg)
      requires Valid()
      modifies this`emitted
      ensures Valid()
      ensures |emitted| >= |old(emitted)| && emitted[..|old(emitted)|] == old(emitted)
      ensures EmitsToEachOnce(emitted[|old(emitted)|..],
                              if msg.roomName in rooms then rooms[msg.roomName] else map[],
                              msg.eventName, msg.data)
    {
      if msg.roomName in rooms {
        EmitToAll(rooms[msg.roomName], msg.eventName, msg.data);
      } else {
        assert emitted[|old(emitted)|..] == [];
      }
    }

    /** The `broadcastCh` case: emit to every socket, then forward when multihome is on. */
    method Broadcast(msg: BroadcastMsg)
      requires Valid()
      modifies this`emitted, this`forwarded
      ensures Valid()
      ensures |emitted| >= |old(emitted)| && emitted[..|old(emitted)|] == old(emitted)
      ensures EmitsToEachOnce(emitted[|old(emitted)|..], sockets, msg.eventName, msg.data)
      ensures forwarded == old(forwarded) + (if multihomeEnabled then [BroadcastToBackend(msg)] else [])
    {
      EmitToAll(sockets, msg.eventName, msg.data);
      if multihomeEnabled {
        forwarded := forwarded + [BroadcastToBackend(msg)];
      }
    }

    /** The `bbroadcastCh` case: a broadcast that came from the backend is delivered locally, never forwarded. */
    method BroadcastFromBackend(msg: BroadcastMsg)
      requires Valid()
      modifies this`emitted
      ensures Valid()
      ensures |emitted| >= |old(emitted)| && emitted[..|old(emitted)|] == old(emitted)
      ensures EmitsToEachOnce(emitted[|old(emitted)|..], sockets, msg.eventName, msg.data)
    {
      EmitToAll(sockets, msg.eventName, msg.data);
    }

    /** The `shutdownCh` case: the list of all registered sockets, one entry per ID. */
    method SocketList() returns (list: seq<SocketRef>)
      ensures |list| == |sockets|
      ensures forall s :: s in list <==> s in sockets.Values
    {
      var todo := sockets.Keys;
      list := [];
      assert |todo| == |sockets|;
      while todo != {}
        invariant todo <= sockets.Keys
        invariant |list| + |todo| == |sockets|
        invariant forall s :: s in list ==> s in sockets.Values
        invariant forall id :: id in sockets && id !in todo ==> sockets[id] in list
        decreases todo
      {
        var id :| id in todo;
        list := list + [sockets[id]];
        todo := todo - {id};
      }
    }
  }
}
