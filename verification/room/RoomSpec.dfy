/** What each command does to a room, as a function from state to state; `RoomActor` refines these functions. */
module RoomSpec {
  import opened Prelude
  import opened RoomTypes

  function AddScore(score: nat, delta: nat): nat {
    if score + delta <= U32_MAX then score + delta else U32_MAX
  }

  function Created(owner: Id, clock: int): Room {
    Room(owner, Lobby, map[], map[TeamA := 0, TeamB := 0], [], None, None, None, None,
         Runtime(None, map[], 0, multiset{}), clock, Snoc(Empty, RoomCreated), 0)
  }

  function Emit(s: Room, e: Event): Room {
    s.(log := Snoc(s.log, e))
  }

  function Members(players: map<Id, Player>, team: TeamId): set<Id> {
    set p | p in players && players[p].team == team
  }

  function PickTeam(players: map<Id, Player>): TeamId {
    if |Members(players, TeamA)| <= |Members(players, TeamB)| then TeamA else TeamB
  }

  function NextTeam(team: TeamId): TeamId {
    if team == TeamA then TeamB else TeamA
  }

  function Remaining(round: Round, now: int): nat {
    if round.endsAt <= now then 0 else round.endsAt - now
  }

  // ----- timer tasks -----

  function Spawn(rt: Runtime, question: Id, wakeAt: int): Runtime {
    Runtime(Some(rt.nextTask), rt.tasks[rt.nextTask := Sleeper(question, wakeAt)], rt.nextTask + 1, rt.mailbox)
  }

  /** Aborting removes a task that still sleeps; it cannot recall a message already queued. */
  function Cancel(rt: Runtime): Runtime {
    match rt.timeoutTask
    case None => rt
    case Some(t) => rt.(tasks := rt.tasks - {t}, timeoutTask := None)
  }

  function SpawnForCurrent(s: Room): Room {
    match s.current
    case None => s
    case Some(round) => s.(runtime := Spawn(s.runtime, round.id, s.clock + Remaining(round, s.clock)))
  }

  // ----- rounds -----

  function RoundOf(q: Question, index: nat, team: TeamId, now: int): Round {
    Round(index, q.id, q.text, q.options, now, now + ROUND, {}, team)
  }

  /** The error is the reply to the client; it leaves the room unchanged. */
  function StartRound(s: Room, index: nat, team: TeamId): (Room, Reply) {
    if index >= |s.bank| then (s, Refused("question index out of range")) else
    var q := s.bank[index];
    var round := RoundOf(q, index, team, s.clock);
    (Emit(s.(current := Some(round), timer := Some(RoundTimer(s.clock, 30)), unpaused := 0),
          QuestionStarted(q.id, q.text, q.options, round.endsAt)),
     Done)
  }

  /** The last key of `order` among those whose score nothing seen before exceeds. */
  function Best<K(==)>(order: seq<K>, score: map<K, nat>): (Option<K>, nat)
    requires forall k <- order :: k in score
  {
    if order == [] then (None, 0) else
    var (winner, best) := Best(order[..|order| - 1], score);
    var k := order[|order| - 1];
    if score[k] >= best then (Some(k), score[k]) else (winner, best)
  }

  function Scores(players: map<Id, Player>): map<Id, nat> {
    map p | p in players :: players[p].score
  }

  predicate IsOrder<K(==)>(order: seq<K>, keys: set<K>) {
    && (forall k <- order :: k in keys)
    && (forall k <- keys :: k in order)
    && |order| == |keys|
  }

  predicate OrderFits(s: Room, order: MapOrder) {
    IsOrder(order.players, s.players.Keys) && IsOrder(order.teams, s.teams.Keys)
  }

  function Conclude(s: Room, winner: Option<Id>, winnerTeam: Option<TeamId>): Room {
    Emit(s.(lifecycle := Finished,
            result := Some(GameResult(winner, winnerTeam, Scores(s.players), s.teams))),
         GameEnded(winner, s.teams))
  }

  function FinishGame(s: Room, order: MapOrder): Room
    requires OrderFits(s, order)
  {
    Conclude(s, Best(order.players, Scores(s.players)).0, Best(order.teams, s.teams).0)
  }

  function CloseRoundAndProgress(s: Room, order: MapOrder): (Room, Reply)
    requires OrderFits(s, order)
  {
    match s.current
    case None => (s, Done)
    case Some(round) =>
      var ended := Emit(s, RoundEnded(round.id, s.teams));
      if round.index + 1 >= |s.bank| then (FinishGame(ended, order), Done)
      else StartRound(ended, round.index + 1, NextTeam(round.activeTeam))
  }

  // ----- commands -----

  function JoinStep(s: Room, userId: Id, displayName: string, freshId: Id): (Room, Reply) {
    if s.lifecycle != Lobby then (s, Refused("room no longer accepts players")) else
    var team := PickTeam(s.players);
    (Emit(Emit(s.(players := s.players[freshId := Player(userId, displayName, 0, team)]),
               PlayerJoined(freshId, displayName)),
          TeamsAssigned(freshId, team, s.teams)),
     Joined(freshId))
  }

  function LeaveStep(s: Room, player: Id): (Room, Reply) {
    if player !in s.players then (s, Refused("player not found")) else
    var left := Emit(s.(players := s.players - {player}), PlayerLeft(player));
    if left.players == map[] && s.lifecycle == Lobby then (Emit(left.(lifecycle := Closed), RoomClosed), Done)
    else (left, Done)
  }

  function KickStep(s: Room, requestedBy: Id, player: Id): (Room, Reply) {
    if requestedBy != s.owner then (s, Refused("only owner can kick players"))
    else if player !in s.players then (s, Refused("player not found"))
    else (Emit(s.(players := s.players - {player}), PlayerLeft(player)), Done)
  }

  function StoreBank(s: Room, questions: seq<Question>): Room {
    Emit(s.(lifecycle := InProgress, bank := questions, result := None), GameStarted(questions))
  }

  function BeginGame(s: Room, questions: seq<Question>): (Room, Reply) {
    var (started, reply) := StartRound(StoreBank(s, questions), 0, TeamA);
    if reply.Refused? then (started, reply) else (ArmFull(started).(pausedRemaining := None), Done)
  }

  function ArmFull(s: Room): Room {
    match s.current
    case None => s
    case Some(round) => s.(runtime := Spawn(Cancel(s.runtime), round.id, s.clock + ROUND))
  }

  function StartGameStep(s: Room, requestedBy: Id, questions: seq<Question>): (Room, Reply) {
    if requestedBy != s.owner then (s, Refused("only owner can start game"))
    else if s.players == map[] then (s, Refused("no players in room"))
    else if questions == [] then (s, Refused("quiz has no questions"))
    else BeginGame(s, questions)
  }

  function PauseStep(s: Room, requestedBy: Id): (Room, Reply) {
    if requestedBy != s.owner then (s, Refused("only owner can pause game"))
    else if s.lifecycle == Paused then (s, Done)
    else if s.lifecycle != InProgress then (s, Refused("game is not in progress"))
    else
      var noted := match s.current
        case None => s
        case Some(round) =>
          var remaining := Remaining(round, s.clock);
          s.(pausedRemaining := Some(remaining), timer := Some(RoundTimer(s.clock, WholeSeconds(remaining))));
      (noted.(runtime := Cancel(s.runtime), lifecycle := Paused), Done)
  }

  function WholeSeconds(duration: nat): nat {
    var secs := duration / SECOND;
    if secs <= U32_MAX then secs else U32_MAX
  }

  function ResumeStep(s: Room, requestedBy: Id): (Room, Reply) {
    if requestedBy != s.owner then (s, Refused("only owner can resume game"))
    else if s.lifecycle == InProgress then (s, Done)
    else if s.lifecycle != Paused then (s, Refused("game is not paused"))
    else (Extend(s).(lifecycle := InProgress), Done)
  }

  /** The round, if any, gets the time it had left, and a timer for it. */
  function Extend(s: Room): Room {
    match s.current
    case None => s
    case Some(round) =>
      var remaining := if s.pausedRemaining.Some? then s.pausedRemaining.value else Remaining(round, s.clock);
      s.(pausedRemaining := None,
         current := Some(round.(endsAt := s.clock + remaining)),
         timer := Some(RoundTimer(s.clock, WholeSeconds(remaining))),
         runtime := Spawn(Cancel(s.runtime), round.id, s.clock + remaining))
  }

  function NextQuestionStep(s: Room, requestedBy: Id, order: MapOrder): (Room, Reply)
    requires OrderFits(s, order)
  {
    if requestedBy != s.owner then (s, Refused("only owner can move to next question"))
    else if s.lifecycle != InProgress then (s, Refused("game is not in progress"))
    else
      var cancelled := s.(runtime := Cancel(s.runtime), pausedRemaining := None);
      var (progressed, reply) := CloseRoundAndProgress(cancelled, order);
      if reply.Refused? then (progressed, reply) else (SpawnForCurrent(progressed), Done)
  }

  /** Handling one queued `RoundTimeout`. Dropping the handle detaches the task: it stays in `tasks`. */
  function TimeoutStep(s: Room, question: Id, order: MapOrder): Room
    requires OrderFits(s, order)
  {
    var taken := s.(runtime := s.runtime.(mailbox := s.runtime.mailbox - multiset{question}, timeoutTask := None));
    if s.lifecycle != InProgress || s.current.None? || s.current.value.id != question then taken
    else if Remaining(s.current.value, s.clock) != 0 then SpawnForCurrent(taken)
    else SpawnForCurrent(CloseRoundAndProgress(taken.(pausedRemaining := None), order).0)
  }

  function IsCorrect(answer: Answer, correct: Option<nat>): bool {
    if answer.option.Some? && correct.Some? then answer.option.value == correct.value else answer.saysCorrect
  }

  function ScoreDelta(s: Room, answer: Answer): nat
    requires s.current.Some?
  {
    var index := s.current.value.index;
    if IsCorrect(answer, if index < |s.bank| then s.bank[index].correct else None) then 100 else 0
  }

  /** The checks of `SubmitAnswer` in their order; `None` when the answer is accepted. */
  function SubmitRefusal(s: Room, player: Id, question: Id): Option<string> {
    if s.lifecycle != InProgress then Some("game is not in progress")
    else if s.current.None? then Some("no active question")
    else if player !in s.players then Some("player not found")
    else if s.players[player].team != s.current.value.activeTeam then Some("not your team turn")
    else if s.clock > s.current.value.endsAt then Some("round timed out")
    else if s.current.value.id != question then Some("invalid question")
    else if player in s.current.value.locked then Some("answer already submitted")
    else None
  }

  function LockAndScore(s: Room, player: Id, question: Id, delta: nat): Room
    requires s.current.Some? && player in s.players && s.players[player].team in s.teams
  {
    var round := s.current.value;
    var scored := s.players[player].(score := AddScore(s.players[player].score, delta));
    Emit(Emit(s.(current := Some(round.(locked := round.locked + {player})),
                 players := s.players[player := scored],
                 teams := s.teams[scored.team := AddScore(s.teams[scored.team], delta)]),
              AnswerLocked(player, question)),
         ScoreUpdated(player, scored.score, delta))
  }

  predicate AllAnswered(s: Room)
    requires s.current.Some?
  {
    var expected := |Members(s.players, s.current.value.activeTeam)|;
    expected > 0 && |s.current.value.locked| >= expected
  }

  function SubmitStep(s: Room, player: Id, question: Id, answer: Answer, order: MapOrder): (Room, Reply)
    requires OrderFits(s, order)
    requires s.teams.Keys == {TeamA, TeamB}
  {
    match SubmitRefusal(s, player, question)
    case Some(reason) => (s, Refused(reason))
    case None =>
      var delta := ScoreDelta(s, answer);
      var scored := LockAndScore(s, player, question, delta);
      if !AllAnswered(scored) then (scored, Scored(delta)) else
      var cancelled := scored.(runtime := Cancel(s.runtime), pausedRemaining := None);
      (SpawnForCurrent(CloseRoundAndProgress(cancelled, order).0), Scored(delta))
  }

  function HandleStep(s: Room, command: Command): (Room, Reply)
    requires s.teams.Keys == {TeamA, TeamB}
    requires command.NextQuestion? || command.SubmitAnswer? ==> OrderFits(s, command.order)
  {
    match command
    case Join(userId, displayName, freshId) => JoinStep(s, userId, displayName, freshId)
    case Leave(player) => LeaveStep(s, player)
    case KickPlayer(requestedBy, player) => KickStep(s, requestedBy, player)
    case StartGame(requestedBy, questions) => StartGameStep(s, requestedBy, questions)
    case PauseGame(requestedBy) => PauseStep(s, requestedBy)
    case ResumeGame(requestedBy) => ResumeStep(s, requestedBy)
    case NextQuestion(requestedBy, order) => NextQuestionStep(s, requestedBy, order)
    case SubmitAnswer(player, question, answer, order) => SubmitStep(s, player, question, answer, order)
    case GetState => (s, Done)
  }

  // ----- the runtime -----

  function FireStep(s: Room, task: nat): Room
    requires task in s.runtime.tasks
  {
    var rt := s.runtime;
    s.(runtime := rt.(tasks := rt.tasks - {task}, mailbox := rt.mailbox + multiset{rt.tasks[task].question}))
  }

  /** Only time spent in progress counts towards the round. */
  function TickStep(s: Room, elapsed: nat): Room {
    s.(clock := s.clock + elapsed,
       unpaused := if s.lifecycle == InProgress then s.unpaused + elapsed else s.unpaused)
  }

  function Apply(s: Room, step: Step): Room
    requires s.teams.Keys == {TeamA, TeamB}
    requires step.Handle? && (step.command.NextQuestion? || step.command.SubmitAnswer?) ==>
               OrderFits(s, step.command.order)
    requires step.Timeout? ==> OrderFits(s, step.order)
    requires step.Fire? ==> step.task in s.runtime.tasks
  {
    match step
    case Handle(command) => HandleStep(s, command).0
    case Timeout(question, order) => TimeoutStep(s, question, order)
    case Fire(task) => FireStep(s, task)
    case Tick(elapsed) => TickStep(s, elapsed)
  }
}
