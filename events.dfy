/** `EventsGateway` (api/src/events/events.gateway.ts): the registry `instanceRooms`
    of which sockets follow which workflow instance, kept by join, leave and
    disconnect, and the socket.io calls the gateway makes. */
module Events {
  import opened Json

  type Rooms = map<string, set<string>>

  /** The registry never holds an empty set of sockets. */
  predicate NoEmptyRoom(rooms: Rooms)
  {
    forall id :: id in rooms ==> rooms[id] != {}
  }

  /** The socket.io room of an instance. */
  function RoomName(instanceId: string): (room: string)
    ensures |room| == |instanceId| + 9 && room[9..] == instanceId
  {
    "instance:" + instanceId
  }

  lemma RoomNameInjective(a: string, b: string)
    requires RoomName(a) == RoomName(b)
    ensures a == b
  {
    assert a == RoomName(a)[9..];
  }

  /** The registry after `client` joins the instance. */
  function Joined(rooms: Rooms, instanceId: string, client: string): (r: Rooms)
    ensures r.Keys == rooms.Keys + {instanceId}
    ensures r[instanceId] == (if instanceId in rooms then rooms[instanceId] else {}) + {client}
    ensures forall id :: id in rooms && id != instanceId ==> r[id] == rooms[id]
  {
    rooms[instanceId := (if instanceId in rooms then rooms[instanceId] else {}) + {client}]
  }

  /** The registry after `client` leaves the instance: an emptied entry is removed. */
  function Left(rooms: Rooms, instanceId: string, client: string): (r: Rooms)
    ensures instanceId !in rooms ==> r == rooms
    ensures instanceId in rooms && rooms[instanceId] - {client} == {} ==> r == rooms - {instanceId}
    ensures instanceId in rooms && rooms[instanceId] - {client} != {} ==> r == rooms[instanceId := rooms[instanceId] - {client}]
  {
    if instanceId !in rooms then rooms
    else
      var rest := rooms[instanceId] - {client};
      if rest == {} then rooms - {instanceId} else rooms[instanceId := rest]
  }

  /** The registry after `client` disconnects: it leaves every room, emptied entries go. */
  function Disconnected(rooms: Rooms, client: string): (r: Rooms)
  {
    map id | id in rooms && rooms[id] - {client} != {} :: rooms[id] - {client}
  }

  lemma JoinKeepsInvariant(rooms: Rooms, instanceId: string, client: string)
    requires NoEmptyRoom(rooms)
    ensures NoEmptyRoom(Joined(rooms, instanceId, client))
    ensures client in Joined(rooms, instanceId, client)[instanceId]
  {
  }

  lemma LeaveKeepsInvariant(rooms: Rooms, instanceId: string, client: string)
    requires NoEmptyRoom(rooms)
    ensures NoEmptyRoom(Left(rooms, instanceId, client))
    ensures var r := Left(rooms, instanceId, client); instanceId in r ==> client !in r[instanceId]
  {
  }

  /** After a disconnect no room holds the client and no room is empty. */
  lemma DisconnectKeepsInvariant(rooms: Rooms, client: string)
    ensures NoEmptyRoom(Disconnected(rooms, client))
    ensures forall id :: id in Disconnected(rooms, client) ==> client !in Disconnected(rooms, client)[id]
  {
  }

  /** Every other client's memberships survive a disconnect unchanged. */
  lemma DisconnectKeepsOthers(rooms: Rooms, client: string, other: string, id: string)
    requires other != client
    ensures (id in Disconnected(rooms, client) && other in Disconnected(rooms, client)[id])
            <==> (id in rooms && other in rooms[id])
  {
    if id in rooms && other in rooms[id] {
      assert other in rooms[id] - {client};
    }
  }

  /** Joining twice is joining once. */
  lemma JoinIdempotent(rooms: Rooms, instanceId: string, client: string)
    ensures Joined(Joined(rooms, instanceId, client), instanceId, client) == Joined(rooms, instanceId, client)
  {
  }

  /** Leaving undoes a join of a client that was not in the room. */
  lemma LeaveUndoesJoin(rooms: Rooms, instanceId: string, client: string)
    requires NoEmptyRoom(rooms)
    requires instanceId !in rooms || client !in rooms[instanceId]
    ensures Left(Joined(rooms, instanceId, client), instanceId, client) == rooms
  {
    var j := Joined(rooms, instanceId, client);
    if instanceId in rooms {
      assert j[instanceId] - {client} == rooms[instanceId];
    } else {
      assert j[instanceId] - {client} == {};
    }
  }

  /** Leaving a room one never entered changes nothing. */
  lemma LeaveUntracked(rooms: Rooms, instanceId: string, client: string)
    requires NoEmptyRoom(rooms) && (instanceId !in rooms || client !in rooms[instanceId])
    ensures Left(rooms, instanceId, client) == rooms
  {
    if instanceId in rooms {
      assert rooms[instanceId] - {client} == rooms[instanceId];
    }
  }

  /** Disconnecting is leaving every instance the client was in. */
  lemma DisconnectIsLeaveAll(rooms: Rooms, client: string, id: string)
    requires NoEmptyRoom(rooms)
    ensures id in rooms ==> Disconnected(Left(rooms, id, client), client) == Disconnected(rooms, client)
  {
    if id in rooms {
      var l := Left(rooms, id, client);
      var a, b := Disconnected(l, client), Disconnected(rooms, client);
      forall k | k in rooms
        ensures (k in a <==> k in b) && (k in a ==> a[k] == b[k])
      {
        if k == id && id in l {
          assert l[id] - {client} == rooms[id] - {client};
        }
      }
      assert a.Keys == b.Keys;
    }
  }

  /** The registry part-way through a disconnect: the entries in `done` have lost the
      client (and are gone when that emptied them), the others are untouched. */
  function DisconnectedOn(rooms: Rooms, client: string, done: set<string>): Rooms
  {
    map id | id in rooms && (id in done ==> rooms[id] - {client} != {}) ::
      if id in done then rooms[id] - {client} else rooms[id]
  }

  lemma DisconnectedOnStep(rooms: Rooms, client: string, todo: set<string>, id: string)
    requires NoEmptyRoom(rooms) && id in todo && todo <= rooms.Keys
    ensures var cur := DisconnectedOn(rooms, client, rooms.Keys - todo);
            var rest := cur[id] - {client};
            && id in cur && cur[id] == rooms[id]
            && DisconnectedOn(rooms, client, rooms.Keys - (todo - {id}))
                 == if client !in cur[id] then cur
                    else if rest == {} then cur[id := rest] - {id} else cur[id := rest]
  {
    var done := rooms.Keys - todo;
    assert rooms.Keys - (todo - {id}) == done + {id};
    var cur := DisconnectedOn(rooms, client, done);
    if client !in cur[id] {
      assert cur[id] - {client} == cur[id];
    } else if cur[id] - {client} == {} {
      assert cur[id := {}] - {id} == cur - {id};
    }
  }

  lemma DisconnectedOnAll(rooms: Rooms, client: string)
    ensures DisconnectedOn(rooms, client, rooms.Keys) == Disconnected(rooms, client)
  {
  }

  /** A call the gateway makes on socket.io. */
  datatype SocketCall =
    | JoinRoom(client: string, room: string)
    | LeaveRoom(client: string, room: string)
    | EmitToClient(client: string, event: string, payload: Json)
    | EmitToRoom(room: string, event: string, payload: Json)

  class EventsGateway {
    /** instanceId -> the ids of the sockets following it. */
    var instanceRooms: Rooms
    /** The socket.io calls made so far, oldest first. */
    var calls: seq<SocketCall>

    ghost predicate Valid()
      reads this
    {
      NoEmptyRoom(instanceRooms)
    }

    constructor ()
      ensures Valid() && instanceRooms == map[] && calls == []
    {
      instanceRooms := map[];
      calls := [];
    }

    /** `handleJoinInstance(client, instanceId)`. */
    method HandleJoinInstance(client: string, instanceId: string)
      requires Valid()
      modifies this
      ensures Valid()
      ensures instanceRooms == Joined(old(instanceRooms), instanceId, client)
      ensures calls == old(calls) + [JoinRoom(client, RoomName(instanceId)),
                                     EmitToClient(client, "joined-instance", JObj(map["instanceId" := JStr(instanceId)]))]
    {
      calls := calls + [JoinRoom(client, RoomName(instanceId))];
      if instanceId !in instanceRooms {
        instanceRooms := instanceRooms[instanceId := {}];
      }
      instanceRooms := instanceRooms[instanceId := instanceRooms[instanceId] + {client}];
      calls := calls + [EmitToClient(client, "joined-instance", JObj(map["instanceId" := JStr(instanceId)]))];
    }

    /** `handleLeaveInstance(client, instanceId)`. */
    method HandleLeaveInstance(client: string, instanceId: string)
      requires Valid()
      modifies this
      ensures Valid()
      ensures instanceRooms == Left(old(instanceRooms), instanceId, client)
      ensures calls == old(calls) + [LeaveRoom(client, RoomName(instanceId))]
    {
      calls := calls + [LeaveRoom(client, RoomName(instanceId))];
      if instanceId in instanceRooms {
        var socketIds := instanceRooms[instanceId] - {client};
        instanceRooms := instanceRooms[instanceId := socketIds];
        if socketIds == {} {
          instanceRooms := instanceRooms - {instanceId};
        }
      }
    }

    /** `handleDisconnect(client)`: the `forEach` over the registry, one entry at a time. */
    method HandleDisconnect(client: string)
      requires Valid()
      modifies this`instanceRooms
      ensures Valid()
      ensures instanceRooms == Disconnected(old(instanceRooms), client)
    {
      ghost var start := instanceRooms;
      var todo := instanceRooms.Keys;
      while todo != {}
        invariant todo <= start.Keys
        invariant instanceRooms == DisconnectedOn(start, client, start.Keys - todo)
        decreases |todo|
      {
        var instanceId :| instanceId in todo;
        DisconnectedOnStep(start, client, todo, instanceId);
        var socketIds := instanceRooms[instanceId];
        if client in socketIds {
          socketIds := socketIds - {client};
          instanceRooms := instanceRooms[instanceId := socketIds];
          if socketIds == {} {
            instanceRooms := instanceRooms - {instanceId};
          }
        }
        todo := todo - {instanceId};
      }
      DisconnectedOnAll(start, client);
      DisconnectKeepsInvariant(start, client);
    }

    /** `emitActivityUpdate(instanceId, data)`. */
    method EmitActivityUpdate(instanceId: string, activityData: Json)
      modifies this`calls
      ensures calls == old(calls) + [EmitToRoom(RoomName(instanceId), "activity-update", activityData)]
    {
      calls := calls + [EmitToRoom(RoomName(instanceId), "activity-update", activityData)];
    }

    /** `emitInstanceStatusUpdate(instanceId, data)`. */
    method EmitInstanceStatusUpdate(instanceId: string, statusData: Json)
      modifies this`calls
      ensures calls == old(calls) + [EmitToRoom(RoomName(instanceId), "instance-status-update", statusData)]
    {
      calls := calls + [EmitToRoom(RoomName(instanceId), "instance-status-update", statusData)];
    }
  }
}
