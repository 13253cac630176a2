/** The parts of the room's invariant that speak about its log, and how each kind of event keeps them. */
module RoomLedger {
  import opened RoomTypes
  import opened RoomSpec
  import opened RoomLog

  // ----- scores -----

  /** Every score is the capped sum of what the log credits to that player or team. */
  ghost predicate LedgerOf(players: map<Id, Player>, teams: map<TeamId, nat>, log: Log) {
    && teams.Keys == {TeamA, TeamB}
    && (forall t <- teams :: teams[t] == Capped(TeamTotal(log, t)))
    && (forall p <- players :: p in TeamOf(log) && TeamOf(log)[p] == players[p].team)
    && (forall p <- players :: players[p].score == Capped(Total(log, p)))
    && Orderly(log)
  }

  /** A player never assigned a team was never credited. */
  lemma {:induction false} NothingBeforeJoining(log: Log, player: Id)
    requires Orderly(log) && player !in TeamOf(log)
    ensures Total(log, player) == 0
  {
    if log.Snoc? {
      NothingBeforeJoining(log.past, player);
    }
  }

  lemma LedgerQuiet(players: map<Id, Player>, teams: map<TeamId, nat>, log: Log, e: Event)
    requires LedgerOf(players, teams, log) && !e.TeamsAssigned? && !e.ScoreUpdated?
    requires e.RoundEnded? || e.GameEnded? ==> e.teamScores == teams
    ensures LedgerOf(players, teams, Snoc(log, e))
  {
  }

  lemma LedgerDeparts(players: map<Id, Player>, teams: map<TeamId, nat>, log: Log, player: Id)
    requires LedgerOf(players, teams, log)
    ensures LedgerOf(players - {player}, teams, log)
  {
  }

  lemma LedgerJoins(players: map<Id, Player>, teams: map<TeamId, nat>, log: Log, id: Id, player: Player)
    requires LedgerOf(players, teams, log) && id !in TeamOf(log) && player.score == 0
    ensures LedgerOf(players[id := player], teams, Snoc(log, TeamsAssigned(id, player.team, teams)))
  {
    var l := Snoc(log, TeamsAssigned(id, player.team, teams));
    NothingBeforeJoining(log, id);
    forall t <- teams ensures TeamTotal(l, t) == TeamTotal(log, t) {}
    forall p ensures Total(l, p) == Total(log, p) {}
  }

  lemma TotalsAfterScore(log: Log, id: Id, score: nat, delta: nat)
    requires id in TeamOf(log)
    ensures var l := Snoc(log, ScoreUpdated(id, score, delta));
            && TeamOf(l) == TeamOf(log)
            && (forall t :: TeamTotal(l, t) == TeamTotal(log, t) + (if t == TeamOf(log)[id] then delta else 0))
            && (forall p :: Total(l, p) == Total(log, p) + (if p == id then delta else 0))
            && (Orderly(log) && score == Capped(Total(log, id) + delta) ==> Orderly(l))
  {
  }

  lemma LedgerScores(players: map<Id, Player>, teams: map<TeamId, nat>, log: Log, id: Id, score: nat, delta: nat)
    requires LedgerOf(players, teams, log) && id in players && players[id].team in teams
    requires score == AddScore(players[id].score, delta)
    ensures var scored := players[id].(score := AddScore(players[id].score, delta));
            LedgerOf(players[id := scored], teams[scored.team := AddScore(teams[scored.team], delta)],
                     Snoc(log, ScoreUpdated(id, score, delta)))
  {
    hide TeamOf, TeamTotal, Total, Orderly;
    TotalsAfterScore(log, id, score, delta);
  }

  // ----- credits -----

  /** The team that answers question `index`; team A begins. */
  function ActiveTeam(index: nat): TeamId {
    if index == 0 then TeamA else NextTeam(ActiveTeam(index - 1))
  }

  /** How many of the questions `0 .. rounds - 1` belong to `team`. */
  function RoundsOf(team: TeamId, rounds: nat): nat {
    if rounds == 0 then 0 else RoundsOf(team, rounds - 1) + (if ActiveTeam(rounds - 1) == team then 1 else 0)
  }

  /** No player gained more this game than 100 a round of their team among the first `rounds`. */
  ghost predicate GainsOf(log: Log, rounds: nat) {
    forall p <- TeamOf(log) :: GameGain(log, p) <= 100 * RoundsOf(TeamOf(log)[p], rounds)
  }

  /** As `GainsOf`, while round `index` is open and `locked` holds those who have answered it. */
  ghost predicate CreditsOf(log: Log, index: nat, locked: set<Id>) {
    && (forall p <- locked :: p in TeamOf(log) && TeamOf(log)[p] == ActiveTeam(index))
    && (forall p <- TeamOf(log) ::
          GameGain(log, p) <= 100 * (RoundsOf(TeamOf(log)[p], index) + if p in locked then 1 else 0))
    && (forall p :: RoundLocks(log, p) == if p in locked then 1 else 0)
  }

  lemma GainsQuiet(log: Log, rounds: nat, e: Event)
    requires GainsOf(log, rounds) && !e.TeamsAssigned? && !e.ScoreUpdated?
    ensures GainsOf(Snoc(log, e), rounds)
  {
  }

  lemma GainsBegin(log: Log, bank: seq<Question>)
    ensures GainsOf(Snoc(log, GameStarted(bank)), 0)
  {
  }

  lemma CreditsBegin(log: Log, index: nat, e: Event)
    requires GainsOf(log, index) && e.QuestionStarted?
    ensures CreditsOf(Snoc(log, e), index, {})
  {
  }

  lemma CreditsQuiet(log: Log, index: nat, locked: set<Id>, e: Event)
    requires CreditsOf(log, index, locked) && (e.PlayerLeft? || e.RoundEnded?)
    ensures CreditsOf(Snoc(log, e), index, locked)
  {
  }

  lemma CreditsLock(log: Log, index: nat, locked: set<Id>, id: Id, question: Id, score: nat, delta: nat)
    requires CreditsOf(log, index, locked) && delta <= 100
    requires id !in locked && id in TeamOf(log) && TeamOf(log)[id] == ActiveTeam(index)
    ensures CreditsOf(Snoc(Snoc(log, AnswerLocked(id, question)), ScoreUpdated(id, score, delta)), index, locked + {id})
  {
    var l := Snoc(log, AnswerLocked(id, question));
    var m := Snoc(l, ScoreUpdated(id, score, delta));
    assert TeamOf(m) == TeamOf(l) == TeamOf(log);
    forall p ensures GameGain(m, p) == GameGain(log, p) + (if p == id then delta else 0) {
      assert GameGain(l, p) == GameGain(log, p);
    }
    forall p ensures RoundLocks(m, p) == RoundLocks(log, p) + (if p == id then 1 else 0) {
      assert RoundLocks(m, p) == RoundLocks(l, p);
    }
  }

  /** Closing a round turns the credit for answering it into one more round of the active team. */
  lemma CreditsEnd(log: Log, index: nat, locked: set<Id>)
    requires CreditsOf(log, index, locked)
    ensures GainsOf(log, index + 1)
  {
  }
}
