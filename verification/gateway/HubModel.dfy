/**
 The WebSocket gateway's rooms: a bounded drop-oldest queue of outbound messages for each room entry, and the hub that
 registers entries, hands them to connections and stops them when their last connection leaves.

 A step is one section under a lock. Connections' handlers interleave freely; one connection's own run in order.
 */
module HubModel {
  type Message = string
  type Room = string
  type Conn = nat
  type Ref = nat

  const MAX_ROOM_QUEUE: nat := 256

  /** A message with the number under which the entry accepted it. */
  datatype Item = Item(number: nat, text: Message)

  /** An entry's queue and stop flag; `accepted`, `sent` and `dropped` record what went through it. */
  datatype Outbound = Outbound(queue: seq<Item>, stopped: bool, accepted: seq<Item>, sent: seq<Item>,
                               dropped: seq<Item>)

  datatype RoomEntry = RoomEntry(room: Room, connections: set<Conn>, out: Outbound)

  /** How far a connection's open and close handlers have come. `Joined` recalls whether the entry was then running. */
  datatype Phase = Opened | Acquired | Joined(live: bool) | Closing | Found(at: Ref) | Erased | Gone

  /** A connection, the entry it acquired, and what that entry's dispatcher has sent it. */
  datatype Session = Session(room: Room, home: Ref, phase: Phase, inbox: seq<Item>)

  datatype Hub = Hub(entries: map<Ref, RoomEntry>, nextRef: Ref, registry: map<Room, Ref>, conns: map<Conn, Session>)

  datatype Step =
    | Open(conn: Conn, room: Room)
    | Acquire(conn: Conn)
    | Insert(conn: Conn)
    | Close(conn: Conn)
    | Lookup(conn: Conn)
    | Erase(conn: Conn)
    | StopIfEmpty(conn: Conn)
    | Enqueue(ref: Ref, text: Message)
    | Dispatch(ref: Ref, connected: set<Conn>)

  // ----- one entry's queue -----

  function Texts(items: seq<Item>): seq<Message> {
    seq(|items|, i requires 0 <= i < |items| => items[i].text)
  }

  function Idle(): Outbound {
    Outbound([], false, [], [], [])
  }

  function EnqueueStep(o: Outbound, text: Message): Outbound {
    var item := Item(|o.accepted|, text);
    if o.stopped then o
    else if |o.queue| >= MAX_ROOM_QUEUE then
      o.(queue := o.queue[1..] + [item], accepted := o.accepted + [item], dropped := o.dropped + [o.queue[0]])
    else
      o.(queue := o.queue + [item], accepted := o.accepted + [item])
  }

  function DispatchStep(o: Outbound): Outbound
    requires o.queue != []
  {
    o.(queue := o.queue[1..], sent := o.sent + [o.queue[0]])
  }

  // ----- the hub -----

  function Initial(): Hub {
    Hub(map[], 0, map[], map[])
  }

  predicate AtPhase(h: Hub, c: Conn, phase: Phase) {
    c in h.conns && h.conns[c].phase == phase
  }

  predicate Enabled(h: Hub, step: Step) {
    match step
    case Open(c, _) => c !in h.conns
    case Acquire(c) => AtPhase(h, c, Opened)
    case Insert(c) => AtPhase(h, c, Acquired) && h.conns[c].home in h.entries
    case Close(c) => c in h.conns && h.conns[c].phase.Joined?
    case Lookup(c) => AtPhase(h, c, Closing)
    case Erase(c) => c in h.conns && h.conns[c].phase.Found? && h.conns[c].phase.at in h.entries
    case StopIfEmpty(c) => AtPhase(h, c, Erased)
    case Enqueue(r, _) => r in h.entries
    case Dispatch(r, _) => r in h.entries && h.entries[r].out.queue != []
  }

  function Move(h: Hub, c: Conn, phase: Phase): Hub
    requires c in h.conns
  {
    h.(conns := h.conns[c := h.conns[c].(phase := phase)])
  }

  /** `AcquireRoomEntry`. */
  function AcquireStep(h: Hub, c: Conn): Hub
    requires c in h.conns
  {
    var s := h.conns[c];
    if s.room in h.registry then
      h.(conns := h.conns[c := s.(home := h.registry[s.room], phase := Acquired)])
    else
      Hub(h.entries[h.nextRef := RoomEntry(s.room, {}, Idle())], h.nextRef + 1, h.registry[s.room := h.nextRef],
          h.conns[c := s.(home := h.nextRef, phase := Acquired)])
  }

  function InsertStep(h: Hub, c: Conn): Hub
    requires c in h.conns && h.conns[c].home in h.entries
  {
    var r := h.conns[c].home;
    var e := h.entries[r];
    Move(h.(entries := h.entries[r := e.(connections := e.connections + {c})]), c, Joined(!e.out.stopped))
  }

  function LookupStep(h: Hub, c: Conn): Hub
    requires c in h.conns
  {
    var room := h.conns[c].room;
    Move(h, c, if room in h.registry then Found(h.registry[room]) else Gone)
  }

  function EraseStep(h: Hub, c: Conn): Hub
    requires c in h.conns && h.conns[c].phase.Found? && h.conns[c].phase.at in h.entries
  {
    var r := h.conns[c].phase.at;
    var e := h.entries[r];
    Move(h.(entries := h.entries[r := e.(connections := e.connections - {c})]), c, Erased)
  }

  /** `StopRoomIfEmpty`, up to the joins. */
  function StopIfEmptyStep(h: Hub, c: Conn): Hub
    requires c in h.conns
  {
    var room := h.conns[c].room;
    var g := Move(h, c, Gone);
    if room !in h.registry || h.registry[room] !in h.entries then g
    else
      var e := h.entries[h.registry[room]];
      if e.connections != {} then g
      else
        g.(entries := g.entries[h.registry[room] := e.(out := e.out.(stopped := true))],
           registry := g.registry - {room})
  }

  /** The dispatcher sends the front message to those connections of the entry that are still connected. */
  function HubDispatch(h: Hub, r: Ref, connected: set<Conn>): Hub
    requires r in h.entries && h.entries[r].out.queue != []
  {
    var e := h.entries[r];
    h.(entries := h.entries[r := e.(out := DispatchStep(e.out))],
       conns := map c | c in h.conns :: if c in e.connections && c in connected
                                        then h.conns[c].(inbox := h.conns[c].inbox + [e.out.queue[0]]) else h.conns[c])
  }

  function Apply(h: Hub, step: Step): Hub
    requires Enabled(h, step)
  {
    match step
    case Open(c, room) => h.(conns := h.conns[c := Session(room, 0, Opened, [])])
    case Acquire(c) => AcquireStep(h, c)
    case Insert(c) => InsertStep(h, c)
    case Close(c) => Move(h, c, Closing)
    case Lookup(c) => LookupStep(h, c)
    case Erase(c) => EraseStep(h, c)
    case StopIfEmpty(c) => StopIfEmptyStep(h, c)
    case Enqueue(r, text) =>
      h.(entries := h.entries[r := h.entries[r].(out := EnqueueStep(h.entries[r].out, text))])
    case Dispatch(r, connected) => HubDispatch(h, r, connected)
  }
}
