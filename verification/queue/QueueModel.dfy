/**
 The bot update queue: the ingress that appends updates, several runner processes that read them through one consumer
 group, and the Redis keys and streams between them.

 A step is what happens between two awaits. Every Redis command may be answered, may take effect without its reply
 arriving, or may fail before taking effect; a runner may crash at any moment, losing its tasks and semaphores.
 An unread entry may also leave the stream unread: the stream is capped, and a group starts at the stream's end.
 */
module QueueModel {

  type Id = string
  type EntryId = nat
  type Runner = nat

  datatype Entry = Entry(bot: Id, update: int, payload: string, attempt: nat, partition: nat)

  datatype DeadLetter = DeadLetter(bot: Id, update: int, payload: string, attempt: nat)

  /** The idempotency key of an update. */
  datatype Key = Key(bot: Id, update: int)

  /** Where `process_entry` stands: the await it is at. */
  datatype Phase = WaitGlobal | WaitBot | Claiming | Skipping | Handling | Succeeded | Failed | Retrying | Settled

  datatype Task = Task(runner: Runner, phase: Phase)

  /** All partitions' entries ever appended, and where each now is. */
  datatype Stream = Stream(entries: map<EntryId, Entry>, nextId: EntryId, unread: set<EntryId>, pending: set<EntryId>,
                           acked: set<EntryId>, trimmed: set<EntryId>)

  /** Semaphore permits left: one count a runner, and one a runner and bot once that semaphore is created. */
  datatype Permits = Permits(overall: map<Runner, nat>, perBot: map<(Runner, Id), nat>)

  /**
   What has become of entries: those that have set their key, those that learned so and entered their handler, those
   whose handler returned Ok, those skipped (with the holder of the key at that moment), those copied (with the copy)
   and those dead-lettered. `root` and `parent` tell which entry a copy descends from.
   */
  datatype History = History(claimed: set<EntryId>, entered: set<EntryId>, handled: set<EntryId>,
                             skipped: map<EntryId, EntryId>, copies: map<EntryId, EntryId>,
                             dead: map<EntryId, DeadLetter>, root: map<EntryId, EntryId>,
                             parent: map<EntryId, EntryId>)

  /** `keys` maps each idempotency key held in Redis to the entry that set it. */
  datatype Queue = Queue(stream: Stream, keys: map<Key, EntryId>, tasks: map<EntryId, Task>, permits: Permits,
                         history: History)

  datatype Config = Config(hash: Id -> nat, partitions: nat, maxAttempts: nat, globalLimit: nat, perBotLimit: nat)

  datatype Outcome = Replied | ReplyLost | NotSent

  datatype Step =
    | Enqueue(bot: Id, update: int, payload: string)
    | Trim(entry: EntryId)
    | StartRunner(runner: Runner)
    | Crash(runner: Runner)
    | Read(runner: Runner, entry: EntryId)
    | ReadLost(entry: EntryId)
    | AcquireGlobal(entry: EntryId)
    | AcquireBot(entry: EntryId)
    | SetOnce(entry: EntryId, outcome: Outcome)
    | HandlerReturns(entry: EntryId, ok: bool)
    | DeleteKey(entry: EntryId, outcome: Outcome)
    | Republish(entry: EntryId, outcome: Outcome)
    | Ack(entry: EntryId, outcome: Outcome)

  function Initial(): Queue {
    Queue(Stream(map[], 0, {}, {}, {}, {}), map[], map[], Permits(map[], map[]),
          History({}, {}, {}, map[], map[], map[], map[], map[]))
  }

  function MaxRuns(c: Config): nat {
    if c.maxAttempts <= 1 then 1 else c.maxAttempts
  }

  function KeyOf(entry: Entry): Key {
    Key(entry.bot, entry.update)
  }

  function BotFree(c: Config, permits: Permits, runner: Runner, bot: Id): nat {
    if (runner, bot) in permits.perBot then permits.perBot[(runner, bot)] else c.perBotLimit
  }

  // ----- when a step can happen -----

  predicate AtPhase(q: Queue, e: EntryId, phase: Phase) {
    e in q.tasks && q.tasks[e].phase == phase && e in q.stream.entries
  }

  predicate Enabled(c: Config, q: Queue, step: Step) {
    match step
    case Enqueue(_, _, _) => c.partitions > 0
    case Trim(e) => e in q.stream.unread
    case StartRunner(r) => r !in q.permits.overall
    case Crash(r) => r in q.permits.overall
    case Read(r, e) => r in q.permits.overall && e in q.stream.unread
    case ReadLost(e) => e in q.stream.unread
    case AcquireGlobal(e) =>
      AtPhase(q, e, WaitGlobal) && q.tasks[e].runner in q.permits.overall && q.permits.overall[q.tasks[e].runner] > 0
    case AcquireBot(e) =>
      AtPhase(q, e, WaitBot) && BotFree(c, q.permits, q.tasks[e].runner, q.stream.entries[e].bot) > 0
    case SetOnce(e, _) => AtPhase(q, e, Claiming)
    case HandlerReturns(e, _) => AtPhase(q, e, Handling)
    case DeleteKey(e, _) => AtPhase(q, e, Failed)
    case Republish(e, _) => AtPhase(q, e, Retrying)
    case Ack(e, _) => AtPhase(q, e, Skipping) || AtPhase(q, e, Succeeded) || AtPhase(q, e, Settled)
  }

  // ----- what it does -----

  function Move(q: Queue, e: EntryId, phase: Phase): Queue
    requires e in q.tasks
  {
    q.(tasks := q.tasks[e := q.tasks[e].(phase := phase)])
  }

  function Release(c: Config, permits: Permits, runner: Runner, bot: Id): Permits {
    Permits(if runner in permits.overall then permits.overall[runner := permits.overall[runner] + 1]
            else permits.overall,
            permits.perBot[(runner, bot) := BotFree(c, permits, runner, bot) + 1])
  }

  /** A task returns, by `Ok` or by `?`; its permits are dropped. */
  function End(c: Config, q: Queue, e: EntryId): Queue
    requires e in q.tasks && e in q.stream.entries
  {
    q.(tasks := q.tasks - {e}, permits := Release(c, q.permits, q.tasks[e].runner, q.stream.entries[e].bot))
  }

  /** After a Redis command: go on if the reply came, give up otherwise. */
  function Proceed(c: Config, q: Queue, e: EntryId, outcome: Outcome, phase: Phase): Queue
    requires e in q.tasks && e in q.stream.entries
  {
    if outcome == Replied then Move(q, e, phase) else End(c, q, e)
  }

  function Append(stream: Stream, entry: Entry): Stream {
    stream.(entries := stream.entries[stream.nextId := entry],
            nextId := stream.nextId + 1,
            unread := stream.unread + {stream.nextId})
  }

  function EnqueueStep(c: Config, q: Queue, bot: Id, update: int, payload: string): Queue
    requires c.partitions > 0
  {
    var id := q.stream.nextId;
    q.(stream := Append(q.stream, Entry(bot, update, payload, 0, c.hash(bot) % c.partitions)),
       history := q.history.(root := q.history.root[id := id]))
  }

  function CrashStep(q: Queue, r: Runner): Queue {
    q.(tasks := map e | e in q.tasks && q.tasks[e].runner != r :: q.tasks[e],
       permits := Permits(q.permits.overall - {r}, map k | k in q.permits.perBot && k.0 != r :: q.permits.perBot[k]))
  }

  function Deliver(stream: Stream, e: EntryId): Stream {
    stream.(unread := stream.unread - {e}, pending := stream.pending + {e})
  }

  function AcquireGlobalStep(q: Queue, e: EntryId): Queue
    requires e in q.tasks && q.tasks[e].runner in q.permits.overall && q.permits.overall[q.tasks[e].runner] > 0
  {
    var r := q.tasks[e].runner;
    Move(q.(permits := q.permits.(overall := q.permits.overall[r := q.permits.overall[r] - 1])), e, WaitBot)
  }

  /** The bot's semaphore is created when it is first asked for. */
  function AcquireBotStep(c: Config, q: Queue, e: EntryId): Queue
    requires e in q.tasks && e in q.stream.entries
    requires BotFree(c, q.permits, q.tasks[e].runner, q.stream.entries[e].bot) > 0
  {
    var r, bot := q.tasks[e].runner, q.stream.entries[e].bot;
    var left := BotFree(c, q.permits, r, bot) - 1;
    Move(q.(permits := q.permits.(perBot := q.permits.perBot[(r, bot) := left])), e, Claiming)
  }

  /** The key is set; whoever hears of it enters the handler. */
  function Claimed(q: Queue, e: EntryId, heard: bool): Queue
    requires e in q.stream.entries
  {
    var h := q.history;
    q.(keys := q.keys[KeyOf(q.stream.entries[e]) := e],
       history := h.(claimed := h.claimed + {e}, entered := h.entered + if heard then {e} else {}))
  }

  function SetOnceStep(c: Config, q: Queue, e: EntryId, outcome: Outcome): Queue
    requires e in q.tasks && e in q.stream.entries
  {
    var key := KeyOf(q.stream.entries[e]);
    if outcome == NotSent then End(c, q, e)
    else if key !in q.keys then
      Proceed(c, Claimed(q, e, outcome == Replied), e, outcome, Handling)
    else if outcome == Replied then
      Move(q.(history := q.history.(skipped := q.history.skipped[e := q.keys[key]])), e, Skipping)
    else End(c, q, e)
  }

  function HandlerReturnsStep(q: Queue, e: EntryId, ok: bool): Queue
    requires e in q.tasks
  {
    if ok then Move(q.(history := q.history.(handled := q.history.handled + {e})), e, Succeeded)
    else Move(q, e, Failed)
  }

  function DeleteKeyStep(c: Config, q: Queue, e: EntryId, outcome: Outcome): Queue
    requires e in q.tasks && e in q.stream.entries
  {
    if outcome == NotSent then End(c, q, e)
    else Proceed(c, q.(keys := q.keys - {KeyOf(q.stream.entries[e])}), e, outcome, Retrying)
  }

  function Copied(q: Queue, e: EntryId): Queue
    requires e in q.stream.entries
  {
    var id, h := q.stream.nextId, q.history;
    var entry := q.stream.entries[e];
    q.(stream := Append(q.stream, entry.(attempt := entry.attempt + 1)),
       history := h.(copies := h.copies[e := id], parent := h.parent[id := e],
                     root := h.root[id := if e in h.root then h.root[e] else e]))
  }

  function DeadLettered(q: Queue, e: EntryId): Queue
    requires e in q.stream.entries
  {
    var entry := q.stream.entries[e];
    var letter := DeadLetter(entry.bot, entry.update, entry.payload, entry.attempt + 1);
    q.(history := q.history.(dead := q.history.dead[e := letter]))
  }

  /** `retry_or_dead_letter` up to its acknowledgement. */
  function RepublishStep(c: Config, q: Queue, e: EntryId, outcome: Outcome): Queue
    requires e in q.tasks && e in q.stream.entries
  {
    if outcome == NotSent then End(c, q, e)
    else if q.stream.entries[e].attempt + 1 >= c.maxAttempts then Proceed(c, DeadLettered(q, e), e, outcome, Settled)
    else Proceed(c, Copied(q, e), e, outcome, Settled)
  }

  function AckStep(c: Config, q: Queue, e: EntryId, outcome: Outcome): Queue
    requires e in q.tasks && e in q.stream.entries
  {
    if outcome == NotSent then End(c, q, e)
    else End(c, q.(stream := q.stream.(pending := q.stream.pending - {e}, acked := q.stream.acked + {e})), e)
  }

  function Apply(c: Config, q: Queue, step: Step): Queue
    requires Enabled(c, q, step)
  {
    match step
    case Enqueue(bot, update, payload) => EnqueueStep(c, q, bot, update, payload)
    case Trim(e) => q.(stream := q.stream.(unread := q.stream.unread - {e}, trimmed := q.stream.trimmed + {e}))
    case StartRunner(r) => q.(permits := q.permits.(overall := q.permits.overall[r := c.globalLimit]))
    case Crash(r) => CrashStep(q, r)
    case Read(r, e) => q.(stream := Deliver(q.stream, e), tasks := q.tasks[e := Task(r, WaitGlobal)])
    case ReadLost(e) => q.(stream := Deliver(q.stream, e))
    case AcquireGlobal(e) => AcquireGlobalStep(q, e)
    case AcquireBot(e) => AcquireBotStep(c, q, e)
    case SetOnce(e, outcome) => SetOnceStep(c, q, e, outcome)
    case HandlerReturns(e, ok) => HandlerReturnsStep(q, e, ok)
    case DeleteKey(e, outcome) => DeleteKeyStep(c, q, e, outcome)
    case Republish(e, outcome) => RepublishStep(c, q, e, outcome)
    case Ack(e, outcome) => AckStep(c, q, e, outcome)
  }
}
