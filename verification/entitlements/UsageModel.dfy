/**
 The entitlement service's usage accounting: the stored counters, the cache over them, and the requests that check and
 report usage.

 A step is what a request does between two awaits. A cache write may land at any time after it was sent, also again,
 or never, until it has settled.
 */
module UsageModel {
  import opened Prelude

  type Uuid = u: nat | u < 0x1_0000_0000_0000_0000_0000_0000_0000_0000
  /** A month of the years 0 to 9999. */
  type Period = p: nat | p < 120_000
  type Feature = string
  type CacheKey = string
  type TaskId = nat

  const I32_MAX: int := 0x7FFF_FFFF

  /** A row of counters: its columns are 32-bit integers. */
  datatype Counters = Counters(roomsCreated: int, roomsStarted: int, botsRegistered: int, aiJobsStarted: int,
                               quizzesCreated: int, messagesSent: int)

  /** How users and months are written: reading and writing of user ids, and a month's text. */
  datatype Config = Config(parse: string -> Option<Uuid>, render: Uuid -> string, month: Period -> string)

  datatype Request =
    | Check(user: string, feature: Feature)
    | Report(user: string, feature: Feature, units: nat)

  /** A usage; `of` and `asOf` recall the month it was counted for and how many increments had been carried out. */
  datatype Figure = Figure(value: int, of: Period, asOf: nat)

  /**
   `Missed` to `Resolved` are inside `resolve_usage`; they carry the month it read from the clock. `at` recalls how many
   increments had been carried out when a check decided.
   */
  datatype Phase =
    | Started | Counted
    | Missed(period: Period) | Read(period: Period, figure: Figure) | Resolved(period: Period, figure: Figure)
    | Decided(period: Period, figure: Figure, quota: int, at: nat) | Accepted | Failed

  /** `begun` is the month a report read when it began. */
  datatype Task = Task(request: Request, user: Uuid, begun: Period, phase: Phase)

  datatype Write = Write(key: CacheKey, figure: Figure)

  datatype Posting = Posting(user: Uuid, period: Period, feature: Feature, units: nat)

  /** A figure that a report of the feature, begun in one month, resolved in another and wrote as the first month's. */
  datatype Stray = Stray(user: Uuid, feature: Feature, begun: Period, figure: Figure)

  /**
   `now` is the current month and `writes` are the cache writes still in flight; `postings` recalls every increment that
   was carried out, and `strays` what strayed.
   */
  datatype Usage = Usage(now: Period, counters: map<(Uuid, Period), Counters>, cache: map<CacheKey, Figure>,
                         writes: set<Write>, tasks: map<TaskId, Task>, postings: seq<Posting>, strays: set<Stray>)

  datatype Outcome = Replied | ReplyLost | NotDone

  datatype Step =
    | NewMonth(period: Period)
    | Begin(task: TaskId, request: Request)
    | Increment(task: TaskId, outcome: Outcome)
    | Lookup(task: TaskId, ok: bool)
    | Query(task: TaskId, ok: bool)
    | Refill(task: TaskId)
    | Finish(task: TaskId, quota: int)
    | Land(write: Write)
    | Settle(write: Write)
    | Expire(key: CacheKey)

  // ----- columns -----

  const ZERO := Counters(0, 0, 0, 0, 0, 0)

  function UsageUnits(feature: Feature, units: nat): Counters {
    var units := if units < I32_MAX then units else I32_MAX;
    if feature == "CREATE_ROOM" then ZERO.(roomsCreated := units)
    else if feature == "START_GAME" then ZERO.(roomsStarted := units)
    else if feature == "REGISTER_BOT" then ZERO.(botsRegistered := units)
    else if feature == "AI_GENERATE" then ZERO.(aiJobsStarted := units)
    else if feature == "CREATE_QUIZ" then ZERO.(quizzesCreated := units)
    else ZERO.(messagesSent := units)
  }

  function UsageForFeature(feature: Feature, row: Counters): int {
    if feature == "CREATE_ROOM" then row.roomsCreated
    else if feature == "START_GAME" then row.roomsStarted
    else if feature == "REGISTER_BOT" then row.botsRegistered
    else if feature == "AI_GENERATE" then row.aiJobsStarted
    else if feature == "CREATE_QUIZ" then row.quizzesCreated
    else row.messagesSent
  }

  function Add(a: Counters, b: Counters): Counters {
    Counters(a.roomsCreated + b.roomsCreated, a.roomsStarted + b.roomsStarted, a.botsRegistered + b.botsRegistered,
             a.aiJobsStarted + b.aiJobsStarted, a.quizzesCreated + b.quizzesCreated, a.messagesSent + b.messagesSent)
  }

  /** Whether every column fits its type; the database refuses an update that does not. */
  predicate Fits(row: Counters) {
    && row.roomsCreated <= I32_MAX && row.roomsStarted <= I32_MAX && row.botsRegistered <= I32_MAX
    && row.aiJobsStarted <= I32_MAX && row.quizzesCreated <= I32_MAX && row.messagesSent <= I32_MAX
  }

  function RowAt(counters: map<(Uuid, Period), Counters>, user: Uuid, period: Period): Counters {
    if (user, period) in counters then counters[(user, period)] else ZERO
  }

  /** The usage that is true. */
  function Used(q: Usage, user: Uuid, feature: Feature, period: Period): int {
    UsageForFeature(feature, RowAt(q.counters, user, period))
  }

  // ----- keys -----

  const PREFIX := "ratelimit:usage:"

  function UsageKey(c: Config, user: string, feature: Feature, period: Period): CacheKey {
    PREFIX + user + ":" + feature + ":" + c.month(period)
  }

  // ----- steps -----

  function Initial(now: Period): Usage {
    Usage(now, map[], map[], {}, map[], [], {})
  }

  predicate AtPhase(q: Usage, t: TaskId, phase: Phase) {
    t in q.tasks && q.tasks[t].phase == phase
  }

  predicate Enabled(c: Config, q: Usage, step: Step) {
    match step
    case NewMonth(period) => q.now < period
    case Begin(t, _) => t !in q.tasks
    case Increment(t, _) => AtPhase(q, t, Started) && q.tasks[t].request.Report?
    case Lookup(t, _) => t in q.tasks && q.tasks[t].phase == if q.tasks[t].request.Report? then Counted else Started
    case Query(t, _) => t in q.tasks && q.tasks[t].phase.Missed?
    case Refill(t) => t in q.tasks && q.tasks[t].phase.Read?
    case Finish(t, _) => t in q.tasks && q.tasks[t].phase.Resolved?
    case Land(w) => w in q.writes
    case Settle(w) => w in q.writes
    case Expire(key) => key in q.cache
  }

  function Move(q: Usage, t: TaskId, phase: Phase): Usage
    requires t in q.tasks
  {
    q.(tasks := q.tasks[t := q.tasks[t].(phase := phase)])
  }

  function BeginStep(c: Config, q: Usage, t: TaskId, request: Request): Usage {
    q.(tasks := q.tasks[t := match c.parse(request.user)
                             case Some(user) => Task(request, user, q.now, Started)
                             case None => Task(request, 0, q.now, Failed)])
  }

  function IncrementStep(q: Usage, t: TaskId, outcome: Outcome): Usage
    requires t in q.tasks && q.tasks[t].request.Report?
  {
    var task := q.tasks[t];
    var row := Add(RowAt(q.counters, task.user, task.begun), UsageUnits(task.request.feature, task.request.units));
    if outcome == NotDone || !Fits(row) then Move(q, t, Failed)
    else
      Move(q.(counters := q.counters[(task.user, task.begun) := row],
              postings := q.postings + [Posting(task.user, task.begun, task.request.feature, task.request.units)]),
           t, if outcome == Replied then Counted else Failed)
  }

  function LookupStep(c: Config, q: Usage, t: TaskId, ok: bool): Usage
    requires t in q.tasks
  {
    var key := UsageKey(c, c.render(q.tasks[t].user), q.tasks[t].request.feature, q.now);
    Move(q, t, if !ok then Failed else if key in q.cache then Resolved(q.now, q.cache[key]) else Missed(q.now))
  }

  function QueryStep(q: Usage, t: TaskId, ok: bool): Usage
    requires t in q.tasks && q.tasks[t].phase.Missed?
  {
    var task, period := q.tasks[t], q.tasks[t].phase.period;
    var figure := Figure(Used(q, task.user, task.request.feature, period), period, |q.postings|);
    Move(q, t, if ok then Read(period, figure) else Failed)
  }

  function RefillStep(c: Config, q: Usage, t: TaskId): Usage
    requires t in q.tasks && q.tasks[t].phase.Read?
  {
    var task := q.tasks[t];
    var key := UsageKey(c, c.render(task.user), task.request.feature, task.phase.period);
    Move(q.(writes := q.writes + {Write(key, task.phase.figure)}), t, Resolved(task.phase.period, task.phase.figure))
  }

  /** A check decides; a report writes what it resolved under the user text it was given and the month it began in. */
  function FinishStep(c: Config, q: Usage, t: TaskId, quota: int): Usage
    requires t in q.tasks && q.tasks[t].phase.Resolved?
  {
    var task := q.tasks[t];
    if task.request.Check? then Move(q, t, Decided(task.phase.period, task.phase.figure, quota, |q.postings|))
    else
      var key := UsageKey(c, task.request.user, task.request.feature, task.begun);
      var stray := Stray(task.user, task.request.feature, task.begun, task.phase.figure);
      Move(q.(writes := q.writes + {Write(key, task.phase.figure)},
              strays := q.strays + if task.phase.period != task.begun then {stray} else {}), t, Accepted)
  }

  function Apply(c: Config, q: Usage, step: Step): Usage
    requires Enabled(c, q, step)
  {
    match step
    case NewMonth(period) => q.(now := period)
    case Begin(t, request) => BeginStep(c, q, t, request)
    case Increment(t, outcome) => IncrementStep(q, t, outcome)
    case Lookup(t, ok) => LookupStep(c, q, t, ok)
    case Query(t, ok) => QueryStep(q, t, ok)
    case Refill(t) => RefillStep(c, q, t)
    case Finish(t, quota) => FinishStep(c, q, t, quota)
    case Land(w) => q.(cache := q.cache[w.key := w.figure])
    case Settle(w) => q.(writes := q.writes - {w})
    case Expire(key) => q.(cache := q.cache - {key})
  }

  /** A decision's answer: whether the request is allowed. */
  predicate Allows(phase: Phase)
    requires phase.Decided?
  {
    phase.figure.value < phase.quota
  }
}
