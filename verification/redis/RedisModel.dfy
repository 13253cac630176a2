/**
 The retrying Redis operations shared by the services. A call sends its command, and again after each error or timeout,
 up to a bound. A command once sent may take effect at any later time, even after its caller has timed out, or never;
 and its reply reaches the caller only if the caller is still waiting for it.
 */
module RedisModel {

  type Key = string
  type Life = nat
  type Caller = nat
  type CommandId = nat

  /** What a key holds. `life` tells apart the times the key has existed. */
  datatype Slot = Text(value: string, life: Life) | Count(count: nat, life: Life)

  datatype Op =
    | SetUnique(key: Key, value: string)
    | SetWithTtl(key: Key, value: string)
    | Delete(key: Key)
    | Consume(key: Key)
    | Increment(key: Key)

  /** A reply; `life` and `holder` note which life of the key it speaks of. */
  datatype Answer =
    | Won(life: Life) | Lost(holder: Life) | Stored | Deleted | Value(slot: Slot) | NoValue
    | Number(n: nat, life: Life) | WrongType

  datatype Call =
    | Ready(op: Op, attempt: nat)
    | Waiting(op: Op, attempt: nat, command: CommandId)
    | Returned(op: Op, command: CommandId)
    | Failed(op: Op)

  /** The keys, and which command began each life. */
  datatype Store = Store(slots: map<Key, Slot>, nextLife: Life, born: map<Life, CommandId>)

  /** `ops` and `callers` recall every command sent, `answers` every one carried out. */
  datatype Redis = Redis(store: Store, ops: map<CommandId, Op>, callers: map<CommandId, Caller>, nextCommand: CommandId,
                         travelling: set<CommandId>, answers: map<CommandId, Answer>, calls: map<Caller, Call>)

  datatype Step =
    | Begin(caller: Caller, op: Op)
    | NoConnection(caller: Caller)
    | Send(caller: Caller)
    | Execute(command: CommandId)
    | Lose(command: CommandId)
    | Receive(caller: Caller)
    | GiveUp(caller: Caller)
    | Expire(key: Key)

  function Initial(): Redis {
    Redis(Store(map[], 0, map[]), map[], map[], 0, {}, map[], map[])
  }

  // ----- what a command does -----

  function Fresh(s: Store, key: Key, value: string, command: CommandId): Store {
    Store(s.slots[key := Text(value, s.nextLife)], s.nextLife + 1, s.born[s.nextLife := command])
  }

  function RunIncrement(s: Store, key: Key, command: CommandId): (Store, Answer) {
    if key !in s.slots then
      (Store(s.slots[key := Count(1, s.nextLife)], s.nextLife + 1, s.born[s.nextLife := command]),
       Number(1, s.nextLife))
    else match s.slots[key]
      case Count(n, life) => (s.(slots := s.slots[key := Count(n + 1, life)]), Number(n + 1, life))
      case Text(_, _) => (s, WrongType)
  }

  function Run(s: Store, op: Op, command: CommandId): (Store, Answer) {
    match op
    case SetUnique(key, value) =>
      if key in s.slots then (s, Lost(s.slots[key].life)) else (Fresh(s, key, value, command), Won(s.nextLife))
    case SetWithTtl(key, value) => (Fresh(s, key, value, command), Stored)
    case Delete(key) => (s.(slots := s.slots - {key}), Deleted)
    case Consume(key) =>
      if key in s.slots then (s.(slots := s.slots - {key}), Value(s.slots[key])) else (s, NoValue)
    case Increment(key) => RunIncrement(s, key, command)
  }

  // ----- steps -----

  predicate Enabled(q: Redis, step: Step) {
    match step
    case Begin(a, _) => a !in q.calls
    case NoConnection(a) => a in q.calls && q.calls[a].Ready?
    case Send(a) => a in q.calls && q.calls[a].Ready?
    case Execute(i) => i in q.travelling && i in q.ops
    case Lose(i) => i in q.travelling
    case Receive(a) =>
      && a in q.calls && q.calls[a].Waiting? && q.calls[a].command in q.answers
      && !q.answers[q.calls[a].command].WrongType?
    case GiveUp(a) => a in q.calls && q.calls[a].Waiting?
    case Expire(key) => key in q.store.slots
  }

  function CallTo(q: Redis, a: Caller, call: Call): Redis {
    q.(calls := q.calls[a := call])
  }

  function SendStep(q: Redis, a: Caller): Redis
    requires a in q.calls && q.calls[a].Ready?
  {
    var i, op := q.nextCommand, q.calls[a].op;
    q.(ops := q.ops[i := op], callers := q.callers[i := a], nextCommand := i + 1, travelling := q.travelling + {i},
       calls := q.calls[a := Waiting(op, q.calls[a].attempt, i)])
  }

  function ExecuteStep(q: Redis, i: CommandId): Redis
    requires i in q.ops
  {
    var (store, answer) := Run(q.store, q.ops[i], i);
    q.(store := store, travelling := q.travelling - {i}, answers := q.answers[i := answer])
  }

  /** An error or a timeout: the next attempt, or the end of the call. */
  function GiveUpStep(q: Redis, a: Caller, maxRetries: nat): Redis
    requires a in q.calls && q.calls[a].Waiting?
  {
    var call := q.calls[a];
    CallTo(q, a, if call.attempt < maxRetries then Ready(call.op, call.attempt + 1) else Failed(call.op))
  }

  function Apply(maxRetries: nat, q: Redis, step: Step): Redis
    requires Enabled(q, step)
  {
    match step
    case Begin(a, op) => CallTo(q, a, Ready(op, 0))
    // `get_connection` failing ends the call without another attempt
    case NoConnection(a) => CallTo(q, a, Failed(q.calls[a].op))
    case Send(a) => SendStep(q, a)
    case Execute(i) => ExecuteStep(q, i)
    case Lose(i) => q.(travelling := q.travelling - {i})
    case Receive(a) => CallTo(q, a, Returned(q.calls[a].op, q.calls[a].command))
    case GiveUp(a) => GiveUpStep(q, a, maxRetries)
    case Expire(key) => q.(store := q.store.(slots := q.store.slots - {key}))
  }
}
