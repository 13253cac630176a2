/** The ingress and the runners as programs: one method for the code between two awaits, over the shared state. */
module BotQueueModule {
  import opened QueueModel
  import opened QueueInvariant
  import opened QueueRuns
  import opened QueueTask

  /** The tasks of every reachable queue are live, and those that have not asked for their key have done nothing. */
  lemma EveryTaskIsLive(c: Config, q: Queue, e: EntryId)
    requires Reachable(c, q) && e in q.tasks
    ensures Live(q, e)
    ensures Early(q.tasks[e].phase) ==>
              && e !in q.history.entered + q.history.handled + q.history.skipped.Keys
              && e !in q.history.copies.Keys + q.history.dead.Keys
  {
    hide AllEntriesOk, SkipsOk, DeadOk, CopiesOk, RootsOk, KeysOk, AllAlive, PermitsOk, Reachable;
    ReachableHolds(c, q);
    assert OutcomeOk(q.stream, q.history, e);
  }

  /** Asking for a semaphore creates it; short of that nothing has changed. */
  predicate SameButSemaphore(c: Config, q: Queue, t: Queue) {
    t.(permits := q.permits) == q && t.permits.overall == q.permits.overall && (c.perBotLimit > 0 ==> t == q)
  }

  class BotQueue {
    const config: Config
    var entries: map<EntryId, Entry>
    var nextId: EntryId
    var unread: set<EntryId>
    var pending: set<EntryId>
    var acked: set<EntryId>
    var trimmed: set<EntryId>
    var keys: map<Key, EntryId>
    var tasks: map<EntryId, Task>
    var overall: map<Runner, nat>
    var perBot: map<(Runner, Id), nat>
    ghost var history: History

    ghost function View(): Queue
      reads this
    {
      Queue(Stream(entries, nextId, unread, pending, acked, trimmed), keys, tasks, Permits(overall, perBot), history)
    }

    constructor (config: Config)
      ensures View() == Initial() && this.config == config
    {
      this.config := config;
      entries, nextId := map[], 0;
      unread, pending, acked, trimmed := {}, {}, {}, {};
      keys, tasks, overall, perBot := map[], map[], map[], map[];
      history := History({}, {}, {}, map[], map[], map[], map[], map[]);
    }

    // ----- ingress -----

    method Append(entry: Entry) returns (id: EntryId)
      modifies this`entries, this`nextId, this`unread
      ensures View() == old(View()).(stream := QueueModel.Append(old(View()).stream, entry)) && id == old(nextId)
    {
      id := nextId;
      entries := entries[id := entry];
      unread := unread + {id};
      nextId := nextId + 1;
    }

    method EnqueueUpdate(bot: Id, update: int, payload: string)
      requires config.partitions > 0
      modifies this
      ensures View() == EnqueueStep(config, old(View()), bot, update, payload)
      ensures var entry := Entry(bot, update, payload, 0, config.hash(bot) % config.partitions);
              entries == old(entries)[old(nextId) := entry]
      ensures unread == old(unread) + {old(nextId)} && nextId == old(nextId) + 1
    {
      var partition := config.hash(bot) % config.partitions;
      var id := Append(Entry(bot, update, payload, 0, partition));
      history := history.(root := history.root[id := id]);
    }

    // ----- a runner process -----

    method StartRunner(r: Runner)
      requires r !in overall
      modifies this`overall
      ensures View() == Apply(config, old(View()), Step.StartRunner(r))
    {
      overall := overall[r := config.globalLimit];
    }

    method Crash(r: Runner)
      modifies this`tasks, this`overall, this`perBot
      ensures View() == CrashStep(old(View()), r)
    {
      tasks := map e | e in tasks && tasks[e].runner != r :: tasks[e];
      overall := overall - {r};
      perBot := map k | k in perBot && k.0 != r :: perBot[k];
    }

    /** One entry of a reply to a group read, for which `run_loop` spawns a task. */
    method ReadEntry(r: Runner, e: EntryId)
      requires r in overall && e in unread
      modifies this`unread, this`pending, this`tasks
      ensures View() == Apply(config, old(View()), Read(r, e))
    {
      unread := unread - {e};
      pending := pending + {e};
      tasks := tasks[e := Task(r, WaitGlobal)];
    }

    /**
     A turn of `run_loop`: with no global permit free it reads nothing; otherwise it spawns a task for each entry that
     the group read delivers.
     */
    method RunLoopTurn(r: Runner, batch: seq<EntryId>) returns (ghost steps: seq<Step>)
      requires r in overall && (forall e <- batch :: e in unread)
      requires forall i, j | 0 <= i < j < |batch| :: batch[i] != batch[j]
      modifies this`unread, this`pending, this`tasks
      ensures Reaches(config, old(View()), steps, View())
      ensures overall[r] == 0 ==> View() == old(View())
      ensures overall[r] > 0 ==> unread == old(unread) - (set e | e in batch)
      ensures overall[r] > 0 ==> pending == old(pending) + (set e | e in batch)
      ensures overall[r] > 0 ==> forall e <- batch :: e in tasks && tasks[e] == Task(r, WaitGlobal)
      ensures forall e <- old(tasks) :: e !in batch ==> e in tasks && tasks[e] == old(tasks)[e]
    {
      steps := [];
      if overall[r] == 0 {
        return;
      }
      for i := 0 to |batch|
        invariant Reaches(config, old(View()), steps, View())
        invariant unread == old(unread) - set e | e in batch[..i]
        invariant pending == old(pending) + set e | e in batch[..i]
        invariant forall e <- batch[..i] :: e in tasks && tasks[e] == Task(r, WaitGlobal)
        invariant forall e <- old(tasks) :: e !in batch ==> e in tasks && tasks[e] == old(tasks)[e]
      {
        ghost var before := View();
        assert batch[i] !in batch[..i] && batch[..i + 1] == batch[..i] + [batch[i]];
        ReadEntry(r, batch[i]);
        RunThen(config, old(View()), steps, before, Read(r, batch[i]));
        steps := steps + [Read(r, batch[i])];
      }
      assert batch[..|batch|] == batch;
    }

    // ----- the awaits of `process_entry` -----

    method Advance(e: EntryId, phase: Phase)
      requires e in tasks
      modifies this`tasks
      ensures View() == Move(old(View()), e, phase)
    {
      tasks := tasks[e := tasks[e].(phase := phase)];
    }

    method GetBotSemaphore(r: Runner, bot: Id) returns (free: nat)
      modifies this`perBot
      ensures perBot == old(perBot)[(r, bot) := free] && free == BotFree(config, old(View()).permits, r, bot)
    {
      if (r, bot) !in perBot {
        perBot := perBot[(r, bot) := config.perBotLimit];
      }
      free := perBot[(r, bot)];
      assert perBot == old(perBot)[(r, bot) := free];
    }

    /** The task returns, dropping its permits. */
    method Return(e: EntryId)
      requires Live(View(), e)
      modifies this`tasks, this`overall, this`perBot
      ensures View() == End(config, old(View()), e)
    {
      var r, bot := tasks[e].runner, entries[e].bot;
      tasks := tasks - {e};
      overall := overall[r := overall[r] + 1];
      var free := GetBotSemaphore(r, bot);
      perBot := perBot[(r, bot) := free + 1];
    }

    /** After a Redis command: the next statement if the reply came, `?` otherwise. */
    method Await(e: EntryId, outcome: Outcome, phase: Phase)
      requires Live(View(), e)
      modifies this`tasks, this`overall, this`perBot
      ensures View() == Proceed(config, old(View()), e, outcome, phase)
    {
      if outcome == Replied {
        Advance(e, phase);
      } else {
        Return(e);
      }
    }

    method AcquireGlobal(e: EntryId) returns (moved: bool)
      requires Live(View(), e)
      modifies this`tasks, this`overall
      ensures moved == (old(overall)[old(tasks)[e].runner] > 0)
      ensures View() == if moved then AcquireGlobalStep(old(View()), e) else old(View())
    {
      var r := tasks[e].runner;
      moved := overall[r] > 0;
      if moved {
        overall := overall[r := overall[r] - 1];
        Advance(e, WaitBot);
      }
    }

    method AcquireBot(e: EntryId) returns (moved: bool)
      requires Live(View(), e)
      modifies this`tasks, this`perBot
      ensures moved == (BotFree(config, old(View()).permits, old(tasks)[e].runner, entries[e].bot) > 0)
      ensures moved ==> View() == AcquireBotStep(config, old(View()), e)
      ensures !moved ==> SameButSemaphore(config, old(View()), View())
    {
      var r, bot := tasks[e].runner, entries[e].bot;
      var free := GetBotSemaphore(r, bot);
      moved := free > 0;
      if moved {
        perBot := perBot[(r, bot) := free - 1];
        Advance(e, Claiming);
      }
    }

    method SetOnce(e: EntryId, outcome: Outcome)
      requires Live(View(), e)
      modifies this
      ensures View() == SetOnceStep(config, old(View()), e, outcome)
    {
      var key := Key(entries[e].bot, entries[e].update);
      if outcome == NotSent {
        Return(e);
      } else if key !in keys {
        history := Claimed(View(), e, outcome == Replied).history;
        keys := keys[key := e];
        Await(e, outcome, Handling);
      } else {
        if outcome == Replied {
          history := history.(skipped := history.skipped[e := keys[key]]);
        }
        Await(e, outcome, Skipping);
      }
    }

    method HandlerReturns(e: EntryId, ok: bool)
      requires Live(View(), e)
      modifies this`tasks, this`history
      ensures View() == HandlerReturnsStep(old(View()), e, ok)
    {
      if ok {
        history := history.(handled := history.handled + {e});
        Advance(e, Succeeded);
      } else {
        Advance(e, Failed);
      }
    }

    method DeleteKey(e: EntryId, outcome: Outcome)
      requires Live(View(), e)
      modifies this
      ensures View() == DeleteKeyStep(config, old(View()), e, outcome)
    {
      if outcome != NotSent {
        keys := keys - {Key(entries[e].bot, entries[e].update)};
      }
      Await(e, outcome, Retrying);
    }

    method RetryOrDeadLetter(e: EntryId, outcome: Outcome)
      requires Live(View(), e)
      modifies this
      ensures View() == RepublishStep(config, old(View()), e, outcome)
    {
      var entry := entries[e];
      if outcome != NotSent {
        if entry.attempt + 1 >= config.maxAttempts {
          history := DeadLettered(View(), e).history;
        } else {
          history := Copied(View(), e).history;
          var id := Append(entry.(attempt := entry.attempt + 1));
        }
      }
      Await(e, outcome, Settled);
    }

    method Ack(e: EntryId, outcome: Outcome)
      requires Live(View(), e)
      modifies this`pending, this`acked, this`tasks, this`overall, this`perBot
      ensures View() == AckStep(config, old(View()), e, outcome)
    {
      if outcome != NotSent {
        pending := pending - {e};
        acked := acked + {e};
      }
      Return(e);
    }

    /** Resumes a task at its await; without a permit to take it stays where it is. */
    method Resume(e: EntryId, answers: Answers) returns (moved: bool)
      requires Live(View(), e)
      modifies this
      ensures moved <==> Enabled(config, old(View()), StepAt(e, old(tasks)[e].phase, answers))
      ensures moved ==> View() == Apply(config, old(View()), StepAt(e, old(tasks)[e].phase, answers))
      ensures !moved ==> SameButSemaphore(config, old(View()), View())
      ensures old(tasks)[e].phase == Handling ==>
                && e in tasks && tasks[e].phase == (if answers.handlerOk then Succeeded else Failed)
                && history.handled == old(history.handled) + if answers.handlerOk then {e} else {}
    {
      hide AcquireGlobalStep, AcquireBotStep, SetOnceStep, DeleteKeyStep, RepublishStep, AckStep, BotFree;
      moved := true;
      match tasks[e].phase
      case WaitGlobal => moved := AcquireGlobal(e);
      case WaitBot => moved := AcquireBot(e);
      case Claiming => SetOnce(e, answers.claim);
      case Handling => HandlerReturns(e, answers.handlerOk);
      case Failed => DeleteKey(e, answers.delete);
      case Retrying => RetryOrDeadLetter(e, answers.republish);
      case _ => Ack(e, answers.ack);
    }

    /**
     A task by itself: it goes through `process_entry` as the queue's steps allow, and either returns, having done what
     its answers imply, or is left waiting for a permit, having done nothing.
     */
    method ProcessEntry(e: EntryId, answers: Answers) returns (ghost steps: seq<Step>, ghost reached: Queue)
      requires Live(View(), e)
      modifies this
      ensures Reaches(config, old(View()), steps, reached) && SameButSemaphore(config, reached, View())
      ensures e in tasks ==>
                Live(reached, e) && !Enabled(config, reached, StepAt(e, reached.tasks[e].phase, answers))
      ensures AllReplied(answers) && e !in tasks ==> e in acked
      ensures Early(old(tasks)[e].phase) && e !in tasks ==> Processed(config, old(View()), View(), e, answers)
      ensures Early(old(tasks)[e].phase) && e in tasks ==>
                && (tasks[e].phase == WaitGlobal || tasks[e].phase == WaitBot)
                && View().stream == old(View()).stream && keys == old(keys) && history == old(history)
    {
      assert e in tasks;
      ghost var start := View();
      if Early(tasks[e].phase) { StartsOnTheWay(config, start, e, answers); }
      hide Enabled, Apply, StepAt, Rank, Live, OnTheWay, OnTheWayOrDone, Processed;
      steps, reached := [], start;
      var moved := true;
      while moved && e in tasks
        invariant Reaches(config, old(View()), steps, reached)
        invariant if moved then View() == reached else SameButSemaphore(config, reached, View())
        invariant e in tasks ==> Live(reached, e)
        invariant !moved ==> e in tasks && !Enabled(config, reached, StepAt(e, reached.tasks[e].phase, answers))
        invariant AllReplied(answers) && e !in tasks ==> e in acked
        invariant Early(start.tasks[e].phase) ==> OnTheWayOrDone(config, start, reached, e, answers)
        invariant Early(start.tasks[e].phase) && !moved ==> UntouchedSince(start, reached, e)
        decreases Rank(tasks, e) + if moved then 1 else 0
      {
        ghost var step := StepAt(e, tasks[e].phase, answers);
        moved := Resume(e, answers);
        if moved {
          TaskMoves(config, reached, e, answers);
          if Early(start.tasks[e].phase) { StepIsOnTheWay(config, start, reached, e, answers); }
          RunThen(config, old(View()), steps, reached, step);
          steps, reached := steps + [step], View();
        } else if Early(start.tasks[e].phase) {
          WaitingHasDoneNothing(config, start, reached, e, answers);
        }
      }
      if Early(start.tasks[e].phase) && e !in tasks { ReturnedIsProcessed(config, start, reached, e, answers); }
    }
  }
}
