/** The gateway's room entries and hub as the objects they are. */
module RoomHubModule {
  import opened HubModel

  class RoomHubEntry {
    const room: Room
    var connections: set<Conn>
    var queue: seq<Message>
    var stopped: bool
    /** The queue with its numbering, and what has gone through it. */
    ghost var out: Outbound

    ghost predicate Valid()
      reads this
    {
      queue == Texts(out.queue) && stopped == out.stopped
    }

    constructor (room: Room)
      ensures Valid() && this.room == room && connections == {} && out == Idle()
    {
      this.room := room;
      connections, queue, stopped := {}, [], false;
      out := Idle();
    }

    method EnqueueRoomMessage(text: Message)
      requires Valid()
      modifies this`queue, this`out
      ensures Valid() && out == EnqueueStep(old(out), text)
      ensures stopped ==> queue == old(queue) && out == old(out)
      ensures !stopped ==> queue == (if |old(queue)| >= 256 then old(queue)[1..] else old(queue)) + [text]
    {
      if stopped {
        return;
      }
      if |queue| >= MAX_ROOM_QUEUE {
        queue := queue[1..];
      }
      queue := queue + [text];
      out := EnqueueStep(out, text);
    }

    /**
     The dispatcher from one wait to the next: it empties the queue, sending every message in order to the connections
     that are still connected, and has ended if the entry is stopped.
     */
    method RunDispatchLoop(connected: nat -> set<Conn>) returns (log: seq<(Message, set<Conn>)>, ended: bool)
      requires Valid()
      modifies this`queue, this`out
      ensures Valid() && queue == [] && ended == stopped
      ensures out == old(out).(queue := [], sent := old(out).sent + old(out).queue)
      ensures |log| == |old(queue)|
      ensures forall i | 0 <= i < |log| :: log[i] == (old(queue)[i], connections * connected(i))
    {
      log := [];
      ghost var k := 0;
      while queue != []
        invariant Valid() && 0 <= k <= |old(out).queue|
        invariant out == old(out).(queue := old(out).queue[k..], sent := old(out).sent + old(out).queue[..k])
        invariant k == |log| && queue == old(queue)[k..]
        invariant forall i | 0 <= i < k :: log[i] == (old(queue)[i], connections * connected(i))
        decreases |queue|
      {
        var text := queue[0];
        queue := queue[1..];
        log := log + [(text, connections * connected(|log|))];
        out := DispatchStep(out);
        k := k + 1;
      }
      ended := stopped;
    }

    method Insert(conn: Conn)
      modifies this`connections
      ensures connections == old(connections) + {conn}
    {
      connections := connections + {conn};
    }

    method Erase(conn: Conn)
      modifies this`connections
      ensures connections == old(connections) - {conn}
    {
      connections := connections - {conn};
    }

    method Stop()
      requires Valid()
      modifies this`stopped, this`out
      ensures Valid() && out == old(out).(stopped := true)
    {
      stopped := true;
      out := out.(stopped := true);
    }
  }

  class RoomHub {
    var rooms: map<Room, RoomHubEntry>

    /** Every registered entry is running and registered under its own room. */
    ghost predicate Valid()
      reads this, rooms.Values
    {
      forall room <- rooms :: rooms[room].room == room && rooms[room].Valid() && !rooms[room].stopped
    }

    constructor ()
      ensures Valid() && rooms == map[]
    {
      rooms := map[];
    }

    method AcquireRoomEntry(room: Room) returns (entry: RoomHubEntry)
      requires Valid()
      modifies this
      ensures Valid() && rooms == old(rooms)[room := entry] && entry.room == room
      ensures room in old(rooms) ==> entry == old(rooms)[room]
      ensures room !in old(rooms) ==> fresh(entry) && entry.connections == {} && entry.out == Idle()
    {
      if room in rooms {
        entry := rooms[room];
        assert rooms == rooms[room := entry];
      } else {
        entry := new RoomHubEntry(room);
        rooms := rooms[room := entry];
      }
    }

    method StopRoomIfEmpty(room: Room)
      requires Valid()
      modifies this, if room in rooms then {rooms[room]} else {}
      ensures Valid()
      ensures if room in old(rooms) && old(rooms[room].connections) == {}
              then rooms == old(rooms) - {room} && old(rooms)[room].stopped
                   && old(rooms)[room].out == old(rooms[room].out).(stopped := true)
                   && old(rooms)[room].connections == {}
              else rooms == old(rooms) && forall r <- rooms :: unchanged(rooms[r])
    {
      if room !in rooms {
        return;
      }
      var entry := rooms[room];
      if entry.connections != {} {
        return;
      }
      entry.Stop();
      rooms := rooms - {room};
    }

    /** Opening a connection while nobody else interferes puts it into the registered entry of its room. */
    method HandleNewConnection(conn: Conn, room: Room) returns (entry: RoomHubEntry)
      requires Valid()
      modifies this, if room in rooms then {rooms[room]} else {}
      ensures Valid() && rooms == old(rooms)[room := entry] && room in rooms
      ensures entry.connections == (if room in old(rooms) then old(rooms[room].connections) else {}) + {conn}
    {
      entry := AcquireRoomEntry(room);
      entry.Insert(conn);
    }

    /** Closing it takes it out, and the room with it if it was the last. */
    method HandleConnectionClosed(conn: Conn, room: Room)
      requires Valid()
      modifies this, if room in rooms then {rooms[room]} else {}
      ensures Valid()
      ensures room in rooms <==> room in old(rooms) && old(rooms[room].connections) - {conn} != {}
      ensures room in rooms ==> rooms == old(rooms) && rooms[room].connections == old(rooms[room].connections) - {conn}
      ensures room !in rooms ==> rooms == old(rooms) - {room}
    {
      if room !in rooms {
        return;
      }
      rooms[room].Erase(conn);
      StopRoomIfEmpty(room);
    }
  }
}
