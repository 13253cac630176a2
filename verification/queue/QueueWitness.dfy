/** Runs in which an update is acknowledged although nobody handled it, nor ever will. */
module QueueWitness {
  import opened QueueModel
  import opened QueueRuns
  import opened QueueServing

  lemma Next(c: Config, t: Queue, step: Step)
    requires Reachable(c, t) && Enabled(c, t, step)
    ensures Reachable(c, Apply(c, t, step))
  {
    hide Enabled, Apply;
    var steps :| Reaches(c, Initial(), steps, t);
    RunThen(c, Initial(), steps, t, step);
  }

  lemma InitialReachable(c: Config)
    ensures Reachable(c, Initial())
  {
    assert Reaches(c, Initial(), [], Initial());
  }

  /** Two deliveries of one update, each read by a runner of its own; the first has a permit of each kind. */
  ghost predicate FirstClaiming(c: Config, q: Queue, bot: Id, update: int, payload: string) {
    && Reachable(c, q)
    && var entry := Entry(bot, update, payload, 0, if c.partitions > 0 then c.hash(bot) % c.partitions else 0);
    && q.stream == Stream(map[0 := entry, 1 := entry], 2, {1}, {0}, {}, {})
    && q.keys == map[] && q.tasks == map[0 := Task(0, Claiming)]
    && q.permits.overall == map[0 := c.globalLimit - 1, 1 := c.globalLimit] && (1, bot) !in q.permits.perBot
    && q.history == History({}, {}, {}, map[], map[], map[], map[0 := 0, 1 := 1], map[])
  }

  lemma TwoDeliveries(c: Config, bot: Id, update: int, payload: string) returns (q: Queue)
    requires c.partitions > 0 && c.globalLimit > 0 && c.perBotLimit > 0
    ensures FirstClaiming(c, q, bot, update, payload)
  {
    hide Reachable;
    q := Initial();
    assert Reachable(c, q) by { InitialReachable(c); }
    Next(c, q, Enqueue(bot, update, payload));
    q := EnqueueStep(c, q, bot, update, payload);
    Next(c, q, Enqueue(bot, update, payload));
    q := EnqueueStep(c, q, bot, update, payload);
    Next(c, q, StartRunner(0));
    q := Apply(c, q, StartRunner(0));
    Next(c, q, StartRunner(1));
    q := Apply(c, q, StartRunner(1));
    Next(c, q, Read(0, 0));
    q := Apply(c, q, Read(0, 0));
    Next(c, q, AcquireGlobal(0));
    q := AcquireGlobalStep(q, 0);
    Next(c, q, AcquireBot(0));
    q := AcquireBotStep(c, q, 0);
  }

  /** The first delivery has taken the key and its task is gone; the second waits for its permits. */
  ghost predicate KeyLeftBehind(c: Config, q: Queue, bot: Id, update: int, payload: string) {
    && Reachable(c, q)
    && var entry := Entry(bot, update, payload, 0, if c.partitions > 0 then c.hash(bot) % c.partitions else 0);
    && q.stream == Stream(map[0 := entry, 1 := entry], 2, {}, {0, 1}, {}, {})
    && q.keys == map[Key(bot, update) := 0] && q.tasks == map[1 := Task(1, WaitGlobal)]
    && 1 in q.permits.overall && q.permits.overall[1] == c.globalLimit && (1, bot) !in q.permits.perBot
    && q.history.skipped == map[] && q.history.handled == {} && q.history.dead == map[]
  }

  lemma CrashWithKey(c: Config, q: Queue, bot: Id, update: int, payload: string) returns (t: Queue)
    requires c.partitions > 0 && c.globalLimit > 0 && c.perBotLimit > 0 && FirstClaiming(c, q, bot, update, payload)
    ensures KeyLeftBehind(c, t, bot, update, payload)
  {
    hide Reachable;
    t := q;
    Next(c, t, SetOnce(0, Replied));
    t := SetOnceStep(c, t, 0, Replied);
    assert t.tasks == map[0 := Task(0, Handling)];
    Next(c, t, Crash(0));
    t := CrashStep(t, 0);
    assert t.tasks == map[];
    Next(c, t, Read(1, 1));
    t := Apply(c, t, Read(1, 1));
  }

  /** The task takes the key, the reply is lost, and the task returns with an error. */
  lemma ReplyLostWithKey(c: Config, q: Queue, bot: Id, update: int, payload: string) returns (t: Queue)
    requires c.partitions > 0 && c.globalLimit > 0 && c.perBotLimit > 0 && FirstClaiming(c, q, bot, update, payload)
    ensures KeyLeftBehind(c, t, bot, update, payload)
  {
    hide Reachable;
    t := q;
    Next(c, t, SetOnce(0, ReplyLost));
    t := SetOnceStep(c, t, 0, ReplyLost);
    assert t.tasks == map[];
    Next(c, t, Read(1, 1));
    t := Apply(c, t, Read(1, 1));
  }

  ghost predicate SecondClaiming(c: Config, q: Queue, bot: Id, update: int) {
    && Reachable(c, q) && q.stream.entries.Keys == {0, 1}
    && KeyOf(q.stream.entries[0]) == Key(bot, update) == KeyOf(q.stream.entries[1])
    && q.stream.pending == {0, 1} && q.stream.acked == {} && q.keys == map[Key(bot, update) := 0]
    && q.tasks == map[1 := Task(1, Claiming)]
    && q.history.skipped == map[] && q.history.handled == {} && q.history.dead == map[]
  }

  lemma SecondDelivery(c: Config, q: Queue, bot: Id, update: int, payload: string) returns (t: Queue)
    requires c.partitions > 0 && c.globalLimit > 0 && c.perBotLimit > 0 && KeyLeftBehind(c, q, bot, update, payload)
    ensures SecondClaiming(c, t, bot, update)
  {
    hide Reachable;
    Next(c, q, AcquireGlobal(1));
    t := AcquireGlobalStep(q, 1);
    Next(c, t, AcquireBot(1));
    t := AcquireBotStep(c, t, 1);
  }

  lemma SecondSkipped(c: Config, p: Queue, bot: Id, update: int, payload: string) returns (q: Queue)
    requires c.partitions > 0 && c.globalLimit > 0 && c.perBotLimit > 0 && KeyLeftBehind(c, p, bot, update, payload)
    ensures Reachable(c, q) && q.stream.acked == {1} && EntryFor(q, Key(bot, update), 1)
    ensures Stranded(c, q, Key(bot, update)) && Key(bot, update) in q.keys
  {
    hide Reachable;
    q := SecondDelivery(c, p, bot, update, payload);
    hide KeyLeftBehind;
    Next(c, q, SetOnce(1, Replied));
    q := SetOnceStep(c, q, 1, Replied);
    Next(c, q, Ack(1, Replied));
    q := AckStep(c, q, 1, Replied);
  }

  /**
   Acknowledging an entry does not mean its update was handled: a second delivery is skipped and acknowledged because
   the key is held for a first whose task is gone, after a crash or after a lost reply. The update is then stranded with
   its key held, so that no run serves it, not even one that enqueues it anew.
   */
  lemma AckedYetNeverHandled(c: Config, bot: Id, update: int, payload: string, crash: bool) returns (q: Queue)
    requires c.partitions > 0 && c.globalLimit > 0 && c.perBotLimit > 0
    ensures Reachable(c, q) && q.stream.acked == {1} && EntryFor(q, Key(bot, update), 1)
    ensures Stranded(c, q, Key(bot, update)) && Key(bot, update) in q.keys
  {
    hide Reachable, FirstClaiming, KeyLeftBehind, Stranded;
    q := TwoDeliveries(c, bot, update, payload);
    if crash {
      q := CrashWithKey(c, q, bot, update, payload);
    } else {
      q := ReplyLostWithKey(c, q, bot, update, payload);
    }
    q := SecondSkipped(c, q, bot, update, payload);
  }
}
