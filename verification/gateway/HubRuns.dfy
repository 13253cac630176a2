/** What is true of the gateway's rooms after any run. */
module HubRuns {
  import opened HubModel
  import opened HubInvariant

  ghost predicate Reaches(h: Hub, steps: seq<Step>, t: Hub)
    decreases steps
  {
    if steps == [] then h == t
    else Enabled(h, steps[0]) && Reaches(Apply(h, steps[0]), steps[1..], t)
  }

  ghost predicate Reachable(t: Hub) {
    exists steps :: Reaches(Initial(), steps, t)
  }

  lemma {:induction false} RunKeeps(h: Hub, steps: seq<Step>, t: Hub)
    requires Inv(h) && Reaches(h, steps, t)
    ensures Inv(t)
    decreases steps
  {
    hide Inv, Apply, Enabled;
    if steps != [] {
      StepKeeps(h, steps[0]);
      RunKeeps(Apply(h, steps[0]), steps[1..], t);
    }
  }

  lemma ReachableHolds(t: Hub)
    requires Reachable(t)
    ensures Inv(t)
  {
    var steps :| Reaches(Initial(), steps, t);
    RunKeeps(Initial(), steps, t);
  }

  // ----- messages -----

  /** Every accepted message is exactly one of sent, dropped and queued; the queued ones are the newest, at most 256. */
  lemma EveryMessageIsSomewhere(h: Hub, r: Ref, n: nat)
    requires Reachable(h) && r in h.entries
    ensures var o := h.entries[r].out;
            && |o.queue| <= MAX_ROOM_QUEUE && 0 <= Head(o) && o.queue == o.accepted[Head(o)..]
            && (n < |o.accepted| <==> n in Numbers(o.sent) + Numbers(o.dropped) + Numbers(o.queue))
            && Numbers(o.sent) !! Numbers(o.dropped) !! Numbers(o.queue)
  {
    ReachableHolds(h);
    assert EntryOk(h, r);
    var o := h.entries[r].out;
    forall m: nat ensures m in Numbers(o.queue) <==> Head(o) <= m < |o.accepted| {
      if Head(o) <= m < |o.accepted| { assert o.queue[m - Head(o)].number == m; }
    }
    forall m: nat ensures PastOk(o, m) { }
    assert PastOk(o, n);
    forall m: nat | m in Numbers(o.queue) ensures m !in Numbers(o.sent) + Numbers(o.dropped) { assert PastOk(o, m); }
  }

  /** A message is dropped only once 256 newer ones have been accepted. */
  lemma DroppedForNewerOnes(h: Hub, r: Ref, item: Item)
    requires Reachable(h) && r in h.entries && item in h.entries[r].out.dropped
    ensures var accepted := h.entries[r].out.accepted;
            item.number + MAX_ROOM_QUEUE < |accepted| && accepted[item.number] == item
  {
    ReachableHolds(h);
    assert EntryOk(h, r);
  }

  /**
   A running entry takes every message it is given as the newest of its queue; if that held 256, exactly its oldest is
   dropped for it. A stopped entry takes none. Nothing else changes.
   */
  lemma EnqueueTakesEffect(h: Hub, r: Ref, text: Message)
    requires Reachable(h) && Enabled(h, Enqueue(r, text))
    ensures var t := Apply(h, Enqueue(r, text));
            && r in t.entries
            && var before, after := h.entries[r].out, t.entries[r].out;
               && t == h.(entries := h.entries[r := h.entries[r].(out := after)])
               && if before.stopped then after == before
                  else
                    var item, full := Item(|before.accepted|, text), |before.queue| == 256;
                    && after.accepted == before.accepted + [item]
                    && after.queue == (if full then before.queue[1..] else before.queue) + [item]
                    && after.dropped == before.dropped + (if full then [before.queue[0]] else [])
                    && after.sent == before.sent && !after.stopped
  {
    hide OutboundOk;
    EveryMessageIsSomewhere(h, r, 0);
  }

  /** A dispatch sends the oldest queued message to those of the entry's connections that are connected, once each. */
  lemma DispatchTakesEffect(h: Hub, r: Ref, connected: set<Conn>)
    requires Enabled(h, Dispatch(r, connected))
    ensures var t, before := Apply(h, Dispatch(r, connected)), h.entries[r].out;
            && r in t.entries && t.conns.Keys == h.conns.Keys
            && t == h.(entries := h.entries[r := h.entries[r].(out := t.entries[r].out)], conns := t.conns)
            && before.queue == [before.queue[0]] + t.entries[r].out.queue
            && t.entries[r].out == before.(queue := before.queue[1..], sent := before.sent + [before.queue[0]])
            && forall c <- h.conns ::
                 t.conns[c] == h.conns[c].(inbox := h.conns[c].inbox +
                                 if c in h.entries[r].connections * connected then [before.queue[0]] else [])
  {
  }

  function GivenBy(step: Step, r: Ref): seq<Message> {
    if step.Enqueue? && step.ref == r then [step.text] else []
  }

  /** The texts given to an entry. */
  function Given(steps: seq<Step>, r: Ref): seq<Message> {
    if steps == [] then [] else GivenBy(steps[0], r) + Given(steps[1..], r)
  }

  /** How an entry's queue goes from `o` to `p` in a step that gives it these texts. */
  predicate Takes(o: Outbound, p: Outbound, texts: seq<Message>) {
    && (o.stopped ==> p.stopped)
    && (!p.stopped ==> Texts(p.accepted) == Texts(o.accepted) + texts)
  }

  lemma EnqueueTakes(o: Outbound, text: Message)
    ensures Takes(o, EnqueueStep(o, text), [text])
  {
    var p := EnqueueStep(o, text);
    if !o.stopped {
      assert Texts(p.accepted) == Texts(o.accepted) + [text];
    }
  }

  lemma RunningStep(h: Hub, r: Ref, step: Step)
    requires r in h.entries && h.nextRef !in h.entries && Enabled(h, step)
    ensures r in Apply(h, step).entries && Takes(h.entries[r].out, Apply(h, step).entries[r].out, GivenBy(step, r))
  {
    hide Texts, EnqueueStep;
    if step.Enqueue? {
      EnqueueTakes(h.entries[step.ref].out, step.text);
    }
  }

  lemma NextIsNew(h: Hub)
    requires Entries(h)
    ensures h.nextRef !in h.entries
  {
    hide OutboundOk;
    assert EntryOk(h, h.nextRef);
  }

  lemma TakesBoth(o: Outbound, p: Outbound, q: Outbound, some: seq<Message>, more: seq<Message>)
    requires Takes(o, p, some) && Takes(p, q, more)
    ensures Takes(o, q, some + more)
  {
  }

  lemma {:induction false} RunTakes(h: Hub, r: Ref, steps: seq<Step>, t: Hub)
    requires r in h.entries && Entries(h) && Reaches(h, steps, t)
    ensures r in t.entries && Takes(h.entries[r].out, t.entries[r].out, Given(steps, r))
    decreases steps
  {
    if steps != [] {
      hide Apply, Enabled, Entries, Takes, GivenBy;
      var g := Apply(h, steps[0]);
      NextIsNew(h);
      RunningStep(h, r, steps[0]);
      EntriesKept(h, steps[0]);
      RunTakes(g, r, steps[1..], t);
      TakesBoth(h.entries[r].out, g.entries[r].out, t.entries[r].out, GivenBy(steps[0], r), Given(steps[1..], r));
    }
  }

  /** An entry that runs all along has accepted exactly the messages it was given, in the order it was given them. */
  lemma RunningTakesAll(h: Hub, r: Ref, steps: seq<Step>, t: Hub)
    requires Reachable(h) && r in h.entries && Reaches(h, steps, t)
    ensures r in t.entries && (h.entries[r].out.stopped ==> t.entries[r].out.stopped)
    ensures !t.entries[r].out.stopped ==>
              Texts(t.entries[r].out.accepted) == Texts(h.entries[r].out.accepted) + Given(steps, r)
  {
    ReachableHolds(h);
    RunTakes(h, r, steps, t);
    hide Reachable, Reaches, Texts, Given;
  }

  /** Items of one numbering, in its order, none twice. */
  ghost predicate Subsequence(items: seq<Item>, accepted: seq<Item>) {
    InOrder(items, accepted, |accepted|)
  }

  /** What an entry sends is an in-order subsequence of what it accepted; so is what each of its connections gets. */
  lemma SentAndReceivedInOrder(h: Hub, c: Conn)
    requires Reachable(h) && c in h.conns && h.conns[c].home in h.entries
    ensures var s := h.conns[c];
            && Subsequence(h.entries[s.home].out.sent, h.entries[s.home].out.accepted)
            && Subsequence(s.inbox, h.entries[s.home].out.accepted)
            && forall item <- s.inbox :: item in h.entries[s.home].out.sent
  {
    ReachableHolds(h);
    var s := h.conns[c];
    assert EntryOk(h, s.home) && InboxOk(h, c);
    forall i | 0 <= i < |s.inbox| ensures s.inbox[i] in h.entries[s.home].out.sent { }
  }

  /** The connection is in an entry, its close handler has not begun, and it is connected at each of its dispatches. */
  predicate StaysFor(h: Hub, c: Conn, step: Step)
    requires c in h.conns
  {
    step != Close(c) && (step.Dispatch? && step.ref == h.conns[c].home ==> c in step.connected)
  }

  lemma DeliveryStep(h: Hub, c: Conn, step: Step)
    requires Inv(h) && Enabled(h, step) && c in h.conns && h.conns[c].phase.Joined? && StaysFor(h, c, step)
    ensures var t, r := Apply(h, step), h.conns[c].home;
            && c in t.conns && t.conns[c].phase.Joined? && t.conns[c].home == r && r in h.entries && r in t.entries
            && var before, after := h.entries[r].out, t.entries[r].out;
               if step.Dispatch? && step.ref == r
               then
                 && after.sent == before.sent + [before.queue[0]]
                 && t.conns[c].inbox == h.conns[c].inbox + [before.queue[0]]
               else after.sent == before.sent && t.conns[c].inbox == h.conns[c].inbox
  {
    hide OutboundOk, Attendance, Inboxes;
    assert ConnOk(h, c) && EntryOk(h, h.conns[c].home) && EntryOk(h, h.nextRef);
    assert step.Dispatch? ==> MemberOk(h, step.ref, c);
  }

  /** While a connection stays, it receives all that its entry sends, in that order. */
  lemma {:induction false} ReceivesAllThatIsSent(h: Hub, c: Conn, steps: seq<Step>, t: Hub)
    requires Inv(h) && Reaches(h, steps, t) && c in h.conns && h.conns[c].phase.Joined?
    requires forall step <- steps :: StaysFor(h, c, step)
    ensures c in t.conns && h.conns[c].home in h.entries && h.conns[c].home in t.entries
    ensures var before, after := h.entries[h.conns[c].home].out.sent, t.entries[h.conns[c].home].out.sent;
            before <= after && t.conns[c].inbox == h.conns[c].inbox + after[|before|..]
    decreases steps
  {
    if steps == [] {
      assert ConnOk(h, c);
    } else {
      var g := Apply(h, steps[0]);
      assert steps[0] in steps && forall step <- steps[1..] :: step in steps;
      hide Inv, Apply, Enabled;
      DeliveryStep(h, c, steps[0]);
      StepKeeps(h, steps[0]);
      assert forall step <- steps[1..] :: StaysFor(h, c, step) ==> StaysFor(g, c, step);
      ReceivesAllThatIsSent(g, c, steps[1..], t);
    }
  }

  function Dispatches(steps: seq<Step>, r: Ref): nat {
    if steps == [] then 0
    else (if steps[0].Dispatch? && steps[0].ref == r then 1 else 0) + Dispatches(steps[1..], r)
  }

  /**
   A stopped entry stays stopped and accepts nothing. Its dispatcher only sends what was left, in order, so it runs
   dry after as many dispatches as messages were left.
   */
  lemma {:induction false} StoppedRunsDry(h: Hub, r: Ref, steps: seq<Step>, t: Hub)
    requires r in h.entries && h.entries[r].out.stopped && Entries(h) && Reaches(h, steps, t)
    ensures r in t.entries
    ensures var o, p, k := h.entries[r].out, t.entries[r].out, Dispatches(steps, r);
            k <= |o.queue| && p == o.(queue := o.queue[k..], sent := o.sent + o.queue[..k])
    decreases steps
  {
    if steps != [] {
      var g := Apply(h, steps[0]);
      StoppedStep(h, r, steps[0]);
      EntriesKept(h, steps[0]);
      hide Apply, Enabled, Entries;
      StoppedRunsDry(g, r, steps[1..], t);
    }
  }

  lemma StoppedStep(h: Hub, r: Ref, step: Step)
    requires r in h.entries && h.entries[r].out.stopped && Entries(h) && Enabled(h, step)
    ensures r in Apply(h, step).entries
    ensures var o, p := h.entries[r].out, Apply(h, step).entries[r].out;
            if step.Dispatch? && step.ref == r then p == DispatchStep(o) else p == o
  {
    hide OutboundOk;
    assert EntryOk(h, r);
  }

  // ----- entries and connections -----

  /** An entry runs exactly while it is registered under its room, so no room has two running entries. */
  lemma RegisteredMeansRunning(h: Hub, r: Ref)
    requires Reachable(h) && r in h.entries
    ensures Running(h, r) <==> (exists room <- h.registry :: h.registry[room] == r)
    ensures forall b <- h.entries :: Running(h, r) && Running(h, b) && h.entries[r].room == h.entries[b].room ==> r == b
  {
    hide OutboundOk;
    ReachableHolds(h);
    assert EntryOk(h, r);
    forall b <- h.entries ensures EntryOk(h, b) { }
    forall room <- h.registry ensures RegisteredOk(h, room) { }
    if Running(h, r) {
      assert h.entries[r].room in h.registry && h.registry[h.entries[r].room] == r;
    }
  }

  /**
   An open connection is in the registered entry of its room exactly if the entry it acquired was still running when it
   was inserted; otherwise it is left in a stopped entry.
   */
  lemma InTheRoomIffInsertedInTime(h: Hub, c: Conn)
    requires Reachable(h) && c in h.conns && h.conns[c].phase.Joined?
    ensures var s := h.conns[c];
            && (s.phase.live <==> s.room in h.registry && Holds(h, h.registry[s.room], c))
            && (!s.phase.live ==> Holds(h, s.home, c) && h.entries[s.home].out.stopped)
  {
    hide OutboundOk;
    ReachableHolds(h);
    var s := h.conns[c];
    assert ConnOk(h, c) && EntryOk(h, s.home) && RegisteredOk(h, s.room);
    if s.room in h.registry {
      assert EntryOk(h, h.registry[s.room]) && MemberOk(h, h.registry[s.room], c);
    }
  }

  lemma NobodyAttends(h: Hub, room: Room, c: Conn)
    requires Inv(h) && (c in h.conns ==> h.conns[c].phase.Opened? || h.conns[c].phase.Gone?)
    ensures !Attends(h, room, c)
  {
    hide OutboundOk;
    if room in h.registry {
      assert RegisteredOk(h, room) && EntryOk(h, h.registry[room]) && MemberOk(h, h.registry[room], c);
    }
  }

  /** Once every connection has come and gone, no room is left registered and every entry is stopped. */
  lemma NoRoomIsLeft(h: Hub)
    requires Reachable(h) && forall c <- h.conns :: h.conns[c].phase.Opened? || h.conns[c].phase.Gone?
    ensures h.registry == map[] && forall r <- h.entries :: h.entries[r].out.stopped
  {
    hide OutboundOk;
    ReachableHolds(h);
    forall room ensures room !in h.registry {
      assert AttendedOk(h, room);
      forall c ensures !Attends(h, room, c) { NobodyAttends(h, room, c); }
    }
    forall r <- h.entries ensures h.entries[r].out.stopped { assert EntryOk(h, r); }
  }

  // ----- a connection that comes too late -----

  lemma {:induction false} RunThen(h: Hub, steps: seq<Step>, t: Hub, step: Step)
    requires Reaches(h, steps, t) && Enabled(t, step)
    ensures Reaches(h, steps + [step], Apply(t, step))
    decreases steps
  {
    hide Enabled, Apply;
    var more := steps + [step];
    if steps == [] {
      assert more == [step] && more[1..] == [];
      assert Reaches(Apply(h, step), [], Apply(h, step));
    } else {
      RunThen(Apply(h, steps[0]), steps[1..], t, step);
      assert more[1..] == steps[1..] + [step];
    }
  }

  lemma Next(t: Hub, step: Step)
    requires Reachable(t) && Enabled(t, step)
    ensures Reachable(Apply(t, step))
  {
    hide Enabled, Apply;
    var steps :| Reaches(Initial(), steps, t);
    RunThen(Initial(), steps, t, step);
  }

  lemma InitialReachable()
    ensures Reachable(Initial())
  {
    assert Reaches(Initial(), [], Initial());
  }

  lemma BothAcquired(room: Room) returns (h: Hub)
    ensures Reachable(h)
    ensures h == Hub(map[0 := RoomEntry(room, {}, Idle())], 1, map[room := 0],
                     map[0 := Session(room, 0, Acquired, []), 1 := Session(room, 0, Acquired, [])])
  {
    hide Reachable;
    h := Initial();
    assert Reachable(h) by { InitialReachable(); }
    Next(h, Open(0, room));
    h := Apply(h, Open(0, room));
    Next(h, Open(1, room));
    h := Apply(h, Open(1, room));
    Next(h, Acquire(0));
    h := AcquireStep(h, 0);
    Next(h, Acquire(1));
    h := AcquireStep(h, 1);
  }

  /**
   A connection can be inserted into a stopped entry: it acquires the entry, the last other connection leaves and stops
   it, and only then is it inserted. It is open, yet no registered entry holds it.
   */
  lemma InsertedTooLate(room: Room) returns (h: Hub)
    ensures Reachable(h) && 1 in h.conns && h.conns[1].phase == Joined(false)
    ensures Holds(h, h.conns[1].home, 1) && h.entries[h.conns[1].home].out.stopped && h.registry == map[]
  {
    hide Reachable;
    h := BothAcquired(room);
    Next(h, Insert(0));
    h := InsertStep(h, 0);
    Next(h, Close(0));
    h := Apply(h, Close(0));
    Next(h, Lookup(0));
    h := LookupStep(h, 0);
    Next(h, Erase(0));
    h := EraseStep(h, 0);
    Next(h, StopIfEmpty(0));
    h := StopIfEmptyStep(h, 0);
    Next(h, Insert(1));
    h := InsertStep(h, 1);
  }
}
