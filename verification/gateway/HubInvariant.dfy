/** What holds of the gateway's rooms in every state, however connections and messages interleave. */
module HubInvariant {
  import opened HubModel

  // ----- one entry's queue -----

  function Head(o: Outbound): int {
    |o.accepted| - |o.queue|
  }

  function Numbers(items: seq<Item>): set<nat> {
    set i | 0 <= i < |items| :: items[i].number
  }

  /** Items in the order of their acceptance, none twice, each before `bound`. */
  ghost predicate InOrder(items: seq<Item>, accepted: seq<Item>, bound: int) {
    && (forall i | 0 <= i < |items| :: items[i].number < bound <= |accepted| && accepted[items[i].number] == items[i])
    && (forall i, j | 0 <= i < j < |items| :: items[i].number < items[j].number)
  }

  /** Exactly the numbers before the queue's are sent or dropped. */
  predicate PastOk(o: Outbound, n: nat) {
    (n in Numbers(o.sent) || n in Numbers(o.dropped)) <==> n < Head(o)
  }

  /** The queue is the newest part of what was accepted, and everything before it was either sent or dropped. */
  ghost predicate OutboundOk(o: Outbound) {
    && (forall i | 0 <= i < |o.accepted| :: o.accepted[i].number == i)
    && |o.queue| <= MAX_ROOM_QUEUE && 0 <= Head(o) && o.queue == o.accepted[Head(o)..]
    && InOrder(o.sent, o.accepted, Head(o)) && InOrder(o.dropped, o.accepted, |o.accepted| - MAX_ROOM_QUEUE)
    && Numbers(o.sent) !! Numbers(o.dropped)
    && (forall n: nat :: PastOk(o, n))
  }

  lemma NumbersGrow(items: seq<Item>, item: Item)
    ensures Numbers(items + [item]) == Numbers(items) + {item.number}
  {
    var more := items + [item];
    forall n ensures n in Numbers(more) <==> n in Numbers(items) + {item.number} {
      if n in Numbers(items) {
        var i :| 0 <= i < |items| && items[i].number == n;
        assert more[i].number == n;
      }
      assert more[|items|] == item;
    }
  }

  lemma EnqueueKeeps(o: Outbound, text: Message)
    requires OutboundOk(o)
    ensures OutboundOk(EnqueueStep(o, text))
  {
    if !o.stopped && |o.queue| >= MAX_ROOM_QUEUE {
      NumbersGrow(o.dropped, o.queue[0]);
      assert o.queue[0] == o.accepted[Head(o)];
    }
    forall n: nat ensures PastOk(EnqueueStep(o, text), n) { assert PastOk(o, n); }
  }

  lemma DispatchKeeps(o: Outbound)
    requires OutboundOk(o) && o.queue != []
    ensures OutboundOk(DispatchStep(o))
  {
    NumbersGrow(o.sent, o.queue[0]);
    assert o.queue[0] == o.accepted[Head(o)];
    forall n: nat ensures PastOk(DispatchStep(o), n) { assert PastOk(o, n); }
  }

  // ----- the hub -----

  /** Exactly the entries that are not stopped are registered, each for its own room. */
  ghost predicate EntryOk(h: Hub, r: Ref) {
    r in h.entries ==>
      && r < h.nextRef && OutboundOk(h.entries[r].out)
      && (!h.entries[r].out.stopped <==> h.entries[r].room in h.registry && h.registry[h.entries[r].room] == r)
  }

  predicate RegisteredOk(h: Hub, room: Room) {
    room in h.registry ==> h.registry[room] in h.entries && h.entries[h.registry[room]].room == room
  }

  /** Whether the entry is running. */
  predicate Running(h: Hub, r: Ref) {
    r in h.entries && !h.entries[r].out.stopped
  }

  predicate Holds(h: Hub, r: Ref, c: Conn) {
    r in h.entries && c in h.entries[r].connections
  }

  predicate ConnOk(h: Hub, c: Conn) {
    c in h.conns && !h.conns[c].phase.Opened? ==>
      var s := h.conns[c];
      && s.home in h.entries && h.entries[s.home].room == s.room
      && (s.phase.Joined? || s.phase.Closing? ==> Holds(h, s.home, c))
      && (s.phase.Joined? ==> (s.phase.live <==> Running(h, s.home)))
      && (s.phase.Found? ==> s.phase.at in h.entries && h.entries[s.phase.at].room == s.room)
      && (s.phase.Found? && Holds(h, s.home, c) && Running(h, s.home) ==> s.phase.at == s.home)
  }

  /** A connection sits in its own entry only, and in a running one only until its close handler erases it. */
  predicate MemberOk(h: Hub, r: Ref, c: Conn) {
    Holds(h, r, c) ==>
      && c in h.conns && h.conns[c].home == r && !h.conns[c].phase.Opened? && !h.conns[c].phase.Acquired?
      && (Running(h, r) ==> !h.conns[c].phase.Erased? && !h.conns[c].phase.Gone?)
  }

  /** Somebody will see to it that the room is stopped. */
  predicate Attends(h: Hub, room: Room, c: Conn) {
    && room in h.registry && c in h.conns && h.conns[c].room == room
    && (Holds(h, h.registry[room], c) || h.conns[c].phase.Erased?
        || (h.conns[c].phase.Acquired? && h.conns[c].home == h.registry[room]))
  }

  ghost predicate AttendedOk(h: Hub, room: Room) {
    room in h.registry ==> exists c :: Attends(h, room, c)
  }

  predicate InboxOk(h: Hub, c: Conn) {
    c in h.conns ==>
      var s := h.conns[c];
      && (s.phase.Opened? || s.phase.Acquired? ==> s.inbox == [])
      && (s.inbox != [] ==> s.home in h.entries)
      && (s.home in h.entries ==> forall item <- s.inbox :: item in h.entries[s.home].out.sent)
      && (forall i, j | 0 <= i < j < |s.inbox| :: s.inbox[i].number < s.inbox[j].number)
  }

  ghost predicate Entries(h: Hub) {
    (forall r: Ref :: EntryOk(h, r)) && (forall room: Room :: RegisteredOk(h, room))
  }

  ghost predicate Connections(h: Hub) {
    (forall c: Conn :: ConnOk(h, c)) && (forall r: Ref, c: Conn :: MemberOk(h, r, c))
  }

  ghost predicate Attendance(h: Hub) {
    forall room: Room :: AttendedOk(h, room)
  }

  ghost predicate Inboxes(h: Hub) {
    forall c: Conn :: InboxOk(h, c)
  }

  ghost predicate Inv(h: Hub) {
    Entries(h) && Connections(h) && Attendance(h) && Inboxes(h)
  }

  lemma StopKeeps(h: Hub, c: Conn)
    requires Entries(h) && AtPhase(h, c, Erased)
    ensures Entries(StopIfEmptyStep(h, c))
  {
    var t, room := StopIfEmptyStep(h, c), h.conns[c].room;
    assert RegisteredOk(h, room);
    if room in h.registry {
      var r := h.registry[room];
      assert EntryOk(h, r);
      forall n: nat ensures PastOk(t.entries[r].out, n) { assert PastOk(h.entries[r].out, n); }
    }
    hide OutboundOk;
    forall r ensures EntryOk(t, r) { assert EntryOk(h, r); }
    forall other ensures RegisteredOk(t, other) { assert RegisteredOk(h, other); }
  }

  lemma AcquireEntries(h: Hub, c: Conn)
    requires Entries(h) && AtPhase(h, c, Opened)
    ensures Entries(AcquireStep(h, c))
  {
    var t := AcquireStep(h, c);
    assert OutboundOk(Idle());
    assert RegisteredOk(h, h.conns[c].room) && EntryOk(h, h.nextRef);
    hide OutboundOk;
    forall r ensures EntryOk(t, r) { assert EntryOk(h, r); }
    forall room ensures RegisteredOk(t, room) { assert RegisteredOk(h, room); }
  }

  lemma QueueEntries(h: Hub, step: Step)
    requires Entries(h) && Enabled(h, step) && (step.Enqueue? || step.Dispatch?)
    ensures Entries(Apply(h, step))
  {
    var t := Apply(h, step);
    assert EntryOk(h, step.ref);
    if step.Enqueue? {
      EnqueueKeeps(h.entries[step.ref].out, step.text);
    } else {
      DispatchKeeps(h.entries[step.ref].out);
    }
    hide OutboundOk;
    forall r ensures EntryOk(t, r) { assert EntryOk(h, r); }
    forall room ensures RegisteredOk(t, room) { assert RegisteredOk(h, room); }
  }

  lemma EntriesKept(h: Hub, step: Step)
    requires Entries(h) && Enabled(h, step)
    ensures Entries(Apply(h, step))
  {
    hide AcquireStep, StopIfEmptyStep, EnqueueStep, DispatchStep, HubDispatch;
    if step.Acquire? {
      AcquireEntries(h, step.conn);
    } else if step.StopIfEmpty? {
      StopKeeps(h, step.conn);
    } else if step.Enqueue? || step.Dispatch? {
      QueueEntries(h, step);
    } else {
      hide OutboundOk;
      var t := Apply(h, step);
      forall r ensures EntryOk(t, r) { assert EntryOk(h, r); }
      forall room ensures RegisteredOk(t, room) { assert RegisteredOk(h, room); }
    }
  }

  lemma AcquireConnections(h: Hub, c: Conn)
    requires Entries(h) && Connections(h) && AtPhase(h, c, Opened)
    ensures Connections(AcquireStep(h, c))
  {
    hide OutboundOk;
    var t := AcquireStep(h, c);
    assert RegisteredOk(h, h.conns[c].room) && EntryOk(h, h.nextRef);
    forall d ensures ConnOk(t, d) { assert ConnOk(h, d); }
    forall r, d ensures MemberOk(t, r, d) { assert MemberOk(h, r, d) && ConnOk(h, d); }
  }

  lemma StopConnections(h: Hub, c: Conn)
    requires Entries(h) && Connections(h) && AtPhase(h, c, Erased)
    ensures Connections(StopIfEmptyStep(h, c))
  {
    hide OutboundOk;
    var t := StopIfEmptyStep(h, c);
    assert RegisteredOk(h, h.conns[c].room) && EntryOk(h, h.conns[c].home);
    forall d ensures ConnOk(t, d) { assert ConnOk(h, d); }
    forall r, d ensures MemberOk(t, r, d) { assert MemberOk(h, r, d) && ConnOk(h, d); }
  }

  lemma ConnectionsKept(h: Hub, step: Step)
    requires Entries(h) && Connections(h) && Enabled(h, step)
    ensures Connections(Apply(h, step))
  {
    if step.Acquire? {
      AcquireConnections(h, step.conn);
    } else if step.StopIfEmpty? {
      StopConnections(h, step.conn);
    } else {
      hide OutboundOk, AcquireStep, StopIfEmptyStep;
      var t := Apply(h, step);
      if step.Lookup? {
        assert RegisteredOk(h, h.conns[step.conn].room) && EntryOk(h, h.conns[step.conn].home);
      }
      forall c ensures ConnOk(t, c) { assert ConnOk(h, c); }
      forall r, c ensures MemberOk(t, r, c) { assert MemberOk(h, r, c) && ConnOk(h, c); }
    }
  }

  lemma StopAttended(h: Hub, c: Conn)
    requires Entries(h) && Connections(h) && Attendance(h) && AtPhase(h, c, Erased)
    ensures Attendance(StopIfEmptyStep(h, c))
  {
    hide OutboundOk;
    var t, mine := StopIfEmptyStep(h, c), h.conns[c].room;
    forall room ensures AttendedOk(t, room) {
      assert AttendedOk(h, room) && RegisteredOk(h, room);
      if room in t.registry && room == mine {
        var d :| d in h.entries[h.registry[room]].connections;
        assert MemberOk(h, h.registry[room], d) && ConnOk(h, d);
        assert Attends(t, room, d);
      } else if room in t.registry {
        var d :| Attends(h, room, d);
        assert Attends(t, room, d);
      }
    }
  }

  lemma AttendanceKept(h: Hub, step: Step)
    requires Entries(h) && Connections(h) && Attendance(h) && Enabled(h, step)
    ensures Attendance(Apply(h, step))
  {
    if step.StopIfEmpty? {
      StopAttended(h, step.conn);
    } else {
      hide OutboundOk, StopIfEmptyStep;
      var t := Apply(h, step);
      assert EntryOk(h, h.nextRef);
      forall room ensures AttendedOk(t, room) {
        assert AttendedOk(h, room) && RegisteredOk(h, room);
        if room in h.registry {
          var d :| Attends(h, room, d);
          assert MemberOk(h, h.registry[room], d) && ConnOk(h, d);
          assert Attends(t, room, d);
        } else if room in t.registry {
          assert Attends(t, room, step.conn);
        }
      }
    }
  }

  lemma DispatchInboxes(h: Hub, r: Ref, connected: set<Conn>)
    requires Entries(h) && Connections(h) && Inboxes(h) && Enabled(h, Dispatch(r, connected))
    ensures Inboxes(HubDispatch(h, r, connected))
  {
    var t, o := HubDispatch(h, r, connected), h.entries[r].out;
    assert EntryOk(h, r);
    assert o.queue[0] == o.accepted[Head(o)];
    forall c ensures InboxOk(t, c) {
      assert InboxOk(h, c) && MemberOk(h, r, c);
      if Holds(h, r, c) {
        forall i | 0 <= i < |h.conns[c].inbox| ensures h.conns[c].inbox[i].number < Head(o) {
          assert h.conns[c].inbox[i] in o.sent;
        }
      }
    }
  }

  lemma InboxesKept(h: Hub, step: Step)
    requires Entries(h) && Connections(h) && Inboxes(h) && Enabled(h, step)
    ensures Inboxes(Apply(h, step))
  {
    if step.Dispatch? {
      DispatchInboxes(h, step.ref, step.connected);
    } else {
      hide OutboundOk, HubDispatch;
      var t := Apply(h, step);
      assert EntryOk(h, h.nextRef);
      forall c ensures InboxOk(t, c) {
        assert InboxOk(h, c) && ConnOk(h, c);
      }
    }
  }

  lemma StepKeeps(h: Hub, step: Step)
    requires Inv(h) && Enabled(h, step)
    ensures Inv(Apply(h, step))
  {
    hide Entries, Connections, Attendance, Inboxes, Apply, Enabled;
    EntriesKept(h, step);
    ConnectionsKept(h, step);
    AttendanceKept(h, step);
    InboxesKept(h, step);
  }
}
