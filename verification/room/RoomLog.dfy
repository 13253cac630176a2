/**
 What an event log says, read without looking at any room: the game's grammar, the ledgers, who answered and who left.
 */
module RoomLog {
  import opened RoomTypes

  // ----- grammar -----

  /** Where a log stands. `Broken` once an event comes out of turn. */
  datatype Phase =
    | Unborn
    | Waiting
    | Opening(bank: seq<Question>)
    | Asking(bank: seq<Question>, index: nat)
    | Between(bank: seq<Question>, index: nat)
    | Over(bank: seq<Question>)
    | Shut
    | Broken

  function Advance(phase: Phase, e: Event): Phase {
    match e
    case RoomCreated => if phase == Unborn then Waiting else Broken
    case PlayerJoined(_, _) => if phase == Waiting then Waiting else Broken
    case TeamsAssigned(_, _, _) => if phase == Waiting then Waiting else Broken
    case PlayerLeft(_) => if phase.Waiting? || phase.Asking? || phase.Over? then phase else Broken
    case RoomClosed => if phase == Waiting then Shut else Broken
    case GameStarted(bank) =>
      if bank != [] && (phase.Waiting? || phase.Asking? || phase.Over?) then Opening(bank) else Broken
    case QuestionStarted(question, text, options, _) =>
      if phase.Opening? && phase.bank != [] && Asks(phase.bank[0], question, text, options) then Asking(phase.bank, 0)
      else if phase.Between? && phase.index + 1 < |phase.bank|
              && Asks(phase.bank[phase.index + 1], question, text, options)
      then Asking(phase.bank, phase.index + 1)
      else Broken
    case AnswerLocked(_, question) =>
      if phase.Asking? && phase.index < |phase.bank| && phase.bank[phase.index].id == question then phase else Broken
    case ScoreUpdated(_, _, _) => if phase.Asking? then phase else Broken
    case RoundEnded(question, _) =>
      if phase.Asking? && phase.index < |phase.bank| && phase.bank[phase.index].id == question
      then Between(phase.bank, phase.index) else Broken
    case GameEnded(_, _) => if phase.Between? && phase.index + 1 == |phase.bank| then Over(phase.bank) else Broken
  }

  predicate Asks(q: Question, question: Id, text: string, options: seq<string>) {
    q.id == question && q.text == text && q.options == options
  }

  function PhaseOf(log: Log): Phase {
    match log
    case Empty => Unborn
    case Snoc(past, last) => Advance(PhaseOf(past), last)
  }

  /** A log's round events since the last `GameStarted`. */
  datatype Mark = Started(question: Id) | Ended(question: Id) | GameOver

  function Marks(log: Log): seq<Mark> {
    match log
    case Empty => []
    case Snoc(past, last) =>
      match last
      case GameStarted(_) => []
      case QuestionStarted(question, _, _, _) => Marks(past) + [Started(question)]
      case RoundEnded(question, _) => Marks(past) + [Ended(question)]
      case GameEnded(_, _) => Marks(past) + [GameOver]
      case _ => Marks(past)
  }

  /** The first `rounds` questions of a bank, each started and then ended. */
  function Script(bank: seq<Question>, rounds: nat): seq<Mark>
    requires rounds <= |bank|
  {
    if rounds == 0 then []
    else Script(bank, rounds - 1) + [Started(bank[rounds - 1].id), Ended(bank[rounds - 1].id)]
  }

  // ----- ledgers -----

  /** The team each player was ever assigned to, whether or not still present. */
  function TeamOf(log: Log): map<Id, TeamId> {
    match log
    case Empty => map[]
    case Snoc(past, TeamsAssigned(player, team, _)) => TeamOf(past)[player := team]
    case Snoc(past, _) => TeamOf(past)
  }

  /** The exact sum of the deltas credited to one player. */
  function Total(log: Log, player: Id): nat {
    match log
    case Empty => 0
    case Snoc(past, ScoreUpdated(p, _, delta)) => Total(past, player) + (if p == player then delta else 0)
    case Snoc(past, _) => Total(past, player)
  }

  /** The exact sum of the deltas credited to players who were in `team` at that moment. */
  function TeamTotal(log: Log, team: TeamId): nat {
    match log
    case Empty => 0
    case Snoc(past, ScoreUpdated(p, _, delta)) =>
      TeamTotal(past, team) + (if p in TeamOf(past) && TeamOf(past)[p] == team then delta else 0)
    case Snoc(past, _) => TeamTotal(past, team)
  }

  function Capped(sum: nat): nat {
    if sum <= U32_MAX then sum else U32_MAX
  }

  /** The team scores an event announces are what the log before it credits to each team. */
  predicate Announces(past: Log, scores: map<TeamId, nat>) {
    && scores.Keys == {TeamA, TeamB}
    && scores[TeamA] == Capped(TeamTotal(past, TeamA))
    && scores[TeamB] == Capped(TeamTotal(past, TeamB))
  }

  /** Players are assigned a team once and credited only afterwards, and every announced score is the credited sum. */
  predicate Orderly(log: Log) {
    match log
    case Empty => true
    case Snoc(past, TeamsAssigned(player, _, scores)) =>
      Orderly(past) && player !in TeamOf(past) && Announces(past, scores)
    case Snoc(past, ScoreUpdated(player, score, delta)) =>
      Orderly(past) && player in TeamOf(past) && score == Capped(Total(past, player) + delta)
    case Snoc(past, RoundEnded(_, scores)) => Orderly(past) && Announces(past, scores)
    case Snoc(past, GameEnded(_, scores)) => Orderly(past) && Announces(past, scores)
    case Snoc(past, _) => Orderly(past)
  }

  /** What one player gained since the last `GameStarted`. */
  function GameGain(log: Log, player: Id): nat {
    match log
    case Empty => 0
    case Snoc(past, GameStarted(_)) => 0
    case Snoc(past, ScoreUpdated(p, _, delta)) => GameGain(past, player) + (if p == player then delta else 0)
    case Snoc(past, _) => GameGain(past, player)
  }

  /** How many answers one player locked since the last `QuestionStarted`. */
  function RoundLocks(log: Log, player: Id): nat {
    match log
    case Empty => 0
    case Snoc(past, QuestionStarted(_, _, _, _)) => 0
    case Snoc(past, AnswerLocked(p, _)) => RoundLocks(past, player) + (if p == player then 1 else 0)
    case Snoc(past, _) => RoundLocks(past, player)
  }

  // ----- departures -----

  function Departures(log: Log): nat {
    match log
    case Empty => 0
    case Snoc(past, PlayerLeft(_)) => Departures(past) + 1
    case Snoc(past, _) => Departures(past)
  }

  /** Whether somebody left or was kicked since the last `QuestionStarted`. */
  predicate DepartedInRound(log: Log) {
    match log
    case Empty => false
    case Snoc(past, QuestionStarted(_, _, _, _)) => false
    case Snoc(past, PlayerLeft(_)) => true
    case Snoc(past, _) => DepartedInRound(past)
  }
}
