/**
 The state of one quiz room, its event log, and the runtime around the room's mailbox.

 Times are integers counted in nanoseconds. Scores are `nat`s kept in the `u32` range by `AddScore`.
 */
module RoomTypes {
  import opened Prelude

  type Id = string

  const SECOND: nat := 1_000_000_000
  const ROUND: nat := 30 * SECOND
  const U32_MAX: nat := 0xFFFF_FFFF

  datatype TeamId = TeamA | TeamB

  datatype Lifecycle = Lobby | InProgress | Paused | Finished | Closed

  datatype Player = Player(userId: Id, displayName: string, score: nat, team: TeamId)

  datatype Question = Question(id: Id, text: string, options: seq<string>, correct: Option<nat>)

  datatype Round = Round(index: nat, id: Id, text: string, options: seq<string>,
                         startedAt: int, endsAt: int, locked: set<Id>, activeTeam: TeamId)

  datatype RoundTimer = RoundTimer(startedAt: int, durationSecs: nat)

  datatype GameResult = GameResult(winnerPlayer: Option<Id>, winnerTeam: Option<TeamId>,
                                   finalScores: map<Id, nat>, finalTeamScores: map<TeamId, nat>)

  /** What the actor broadcasts. `GameStarted` also carries the question bank stored in the same step. */
  datatype Event =
    | RoomCreated
    | PlayerJoined(player: Id, name: string)
    | TeamsAssigned(player: Id, team: TeamId, teamScores: map<TeamId, nat>)
    | PlayerLeft(player: Id)
    | RoomClosed
    | GameStarted(bank: seq<Question>)
    | QuestionStarted(question: Id, text: string, options: seq<string>, endsAt: int)
    | AnswerLocked(player: Id, question: Id)
    | ScoreUpdated(player: Id, score: nat, delta: nat)
    | RoundEnded(question: Id, teamScores: map<TeamId, nat>)
    | GameEnded(winner: Option<Id>, teamScores: map<TeamId, nat>)

  /** The events broadcast so far, newest last. */
  datatype Log = Empty | Snoc(past: Log, last: Event)

  /** A spawned timer task that has not yet put its `RoundTimeout` into the mailbox. */
  datatype Sleeper = Sleeper(question: Id, wakeAt: int)

  /** The stored task handle, the live timer tasks, and the `RoundTimeout` messages waiting in the mailbox. */
  datatype Runtime = Runtime(timeoutTask: Option<nat>, tasks: map<nat, Sleeper>, nextTask: nat, mailbox: multiset<Id>)

  /**
   The actor's variables, the runtime around it, the clock, the log, and the time the current round has spent
   un-paused.
   */
  datatype Room = Room(
    owner: Id,
    lifecycle: Lifecycle,
    players: map<Id, Player>,
    teams: map<TeamId, nat>,
    bank: seq<Question>,
    current: Option<Round>,
    timer: Option<RoundTimer>,
    result: Option<GameResult>,
    pausedRemaining: Option<nat>,
    runtime: Runtime,
    clock: int,
    log: Log,
    unpaused: nat)

  datatype Reply =
    | Joined(player: Id)
    | Done
    | Scored(delta: nat)
    | Refused(reason: string)

  /** An answer's text as far as marking looks at it: its value as a `u32`, and whether it reads "correct". */
  datatype Answer = Answer(option: Option<nat>, saysCorrect: bool)

  /** The order in which the two hash maps yield their keys when a game is finished. */
  datatype MapOrder = MapOrder(players: seq<Id>, teams: seq<TeamId>)

  datatype Command =
    | Join(userId: Id, displayName: string, freshId: Id)
    | Leave(player: Id)
    | KickPlayer(requestedBy: Id, player: Id)
    | StartGame(requestedBy: Id, questions: seq<Question>)
    | PauseGame(requestedBy: Id)
    | ResumeGame(requestedBy: Id)
    | NextQuestion(requestedBy: Id, order: MapOrder)
    | SubmitAnswer(player: Id, question: Id, answer: Answer, order: MapOrder)
    | GetState

  /** One step of a run: a client's command, a queued timeout being handled, a timer firing, or time passing. */
  datatype Step =
    | Handle(command: Command)
    | Timeout(question: Id, order: MapOrder)
    | Fire(task: nat)
    | Tick(elapsed: nat)
}
