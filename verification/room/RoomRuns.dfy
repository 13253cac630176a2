/** What is true of a room after any run: any commands, timers firing at any moment, messages handled in any order. */
module RoomRuns {
  import opened Prelude
  import opened RoomTypes
  import opened RoomSpec
  import opened RoomLog
  import opened RoomLedger
  import opened RoomInvariant

  predicate CanStep(s: Room, step: Step) {
    s.teams.Keys == {TeamA, TeamB} && StepOk(s, step)
  }

  ghost predicate Reaches(s: Room, steps: seq<Step>, t: Room)
    decreases steps
  {
    if steps == [] then s == t
    else CanStep(s, steps[0]) && Reaches(Apply(s, steps[0]), steps[1..], t)
  }

  ghost predicate Reachable(t: Room) {
    exists owner, clock, steps :: Reaches(Created(owner, clock), steps, t)
  }

  lemma {:induction false} RunKeeps(s: Room, steps: seq<Step>, t: Room)
    requires Inv(s) && Reaches(s, steps, t)
    ensures Inv(t)
    decreases steps
  {
    hide Game, Waited, Timers, Apply;
    if steps != [] {
      StepKeeps(s, steps[0]);
      RunKeeps(Apply(s, steps[0]), steps[1..], t);
    }
  }

  /** The invariant holds in every reachable room. */
  lemma ReachableHolds(t: Room)
    requires Reachable(t)
    ensures Inv(t)
  {
    var owner, clock, steps :| Reaches(Created(owner, clock), steps, t);
    CreatedHolds(owner, clock);
    RunKeeps(Created(owner, clock), steps, t);
  }

  // ----- a round never gets stuck -----

  lemma RoundNeverStuck(t: Room)
    requires Reachable(t) && t.lifecycle == InProgress
    ensures t.current.Some? && Awake(t.runtime, t.current.value)
  {
    ReachableHolds(t);
  }

  // ----- the log is a game -----

  ghost predicate IsPrefix(p: Log, log: Log) {
    p == log || (log.Snoc? && IsPrefix(p, log.past))
  }

  lemma {:induction false} PrefixUnbroken(p: Log, log: Log)
    requires IsPrefix(p, log) && PhaseOf(log) != Broken
    ensures PhaseOf(p) != Broken
  {
    if p != log {
      PrefixUnbroken(p, log.past);
    }
  }

  /** The round events of a game that has come as far as `phase`. */
  predicate Follows(phase: Phase, marks: seq<Mark>) {
    match phase
    case Asking(bank, i) => i < |bank| && marks == Script(bank, i) + [Started(bank[i].id)]
    case Between(bank, i) => i < |bank| && marks == Script(bank, i + 1)
    case Over(bank) => marks == Script(bank, |bank|) + [GameOver]
    case _ => marks == []
  }

  lemma AdvanceFollows(past: Log, phase: Phase, e: Event)
    requires Follows(phase, Marks(past)) && Advance(phase, e) != Broken
    ensures Follows(Advance(phase, e), Marks(Snoc(past, e)))
  {
  }

  /** In an unbroken log the round events of the game follow the question bank, question after question. */
  lemma {:induction false} UnbrokenFollowsScript(log: Log)
    requires PhaseOf(log) != Broken
    ensures Follows(PhaseOf(log), Marks(log))
  {
    if log.Snoc? {
      hide Follows, Marks;
      UnbrokenFollowsScript(log.past);
      AdvanceFollows(log.past, PhaseOf(log.past), log.last);
    }
  }

  lemma EventLogFollowsGame(t: Room)
    requires Reachable(t)
    ensures InGame(t) ==> t.current.Some? && t.current.value.index < |t.bank|
    ensures InGame(t) ==> Marks(t.log) == Script(t.bank, t.current.value.index) + [Started(t.current.value.id)]
    ensures t.lifecycle == Finished ==> Marks(t.log) == Script(t.bank, |t.bank|) + [GameOver]
    ensures t.lifecycle == Lobby || t.lifecycle == Closed ==> Marks(t.log) == []
  {
    ReachableHolds(t);
    UnbrokenFollowsScript(t.log);
  }

  /** Answers and scores are logged only between the start and the end of a round. */
  lemma AnswersWithinRounds(t: Room, p: Log, e: Event)
    requires Reachable(t) && IsPrefix(Snoc(p, e), t.log)
    requires e.AnswerLocked? || e.ScoreUpdated?
    ensures Marks(p) != [] && Marks(p)[|Marks(p)| - 1].Started?
  {
    hide FairTime, Ledger, Credits, Balanced, Recorded, Waited, Timers, Marks;
    ReachableHolds(t);
    PrefixUnbroken(Snoc(p, e), t.log);
    UnbrokenFollowsScript(p);
  }

  // ----- scores are conserved -----

  ghost function SumTotals(log: Log, players: set<Id>): nat {
    if players == {} then 0 else
    var p :| p in players;
    Total(log, p) + SumTotals(log, players - {p})
  }

  lemma {:induction false} SumWithout(log: Log, players: set<Id>, x: Id)
    requires x in players
    ensures SumTotals(log, players) == Total(log, x) + SumTotals(log, players - {x})
    decreases players
  {
    var p :| p in players && SumTotals(log, players) == Total(log, p) + SumTotals(log, players - {p});
    if p != x {
      SumWithout(log, players - {p}, x);
      SumWithout(log, players - {x}, p);
      assert players - {p} - {x} == players - {x} - {p};
    }
  }

  lemma {:induction false} SumSplits(log: Log, a: set<Id>, b: set<Id>)
    requires a !! b
    ensures SumTotals(log, a + b) == SumTotals(log, a) + SumTotals(log, b)
    decreases a
  {
    if a == {} {
      assert a + b == b;
    } else {
      var x :| x in a;
      SumWithout(log, a + b, x);
      SumWithout(log, a, x);
      assert a + b - {x} == (a - {x}) + b;
      SumSplits(log, a - {x}, b);
    }
  }

  /** One more event adds its delta to the sum over any set that has the player. */
  lemma {:induction false} SumAfter(log: Log, e: Event, players: set<Id>)
    ensures SumTotals(Snoc(log, e), players) ==
            SumTotals(log, players) + (if e.ScoreUpdated? && e.player in players then e.delta else 0)
    decreases players
  {
    if players != {} {
      var x :| x in players;
      SumWithout(log, players, x);
      SumWithout(Snoc(log, e), players, x);
      SumAfter(log, e, players - {x});
    }
  }

  /** Everyone ever assigned to `team`. */
  function Roster(log: Log, team: TeamId): set<Id> {
    set p | p in TeamOf(log) && TeamOf(log)[p] == team
  }

  lemma {:induction false} TeamTotalIsRosterSum(log: Log, team: TeamId)
    requires Orderly(log)
    ensures TeamTotal(log, team) == SumTotals(log, Roster(log, team))
  {
    match log
    case Empty =>
    case Snoc(past, e) =>
      TeamTotalIsRosterSum(past, team);
      var roster := Roster(past, team);
      SumAfter(past, e, roster);
      if e.TeamsAssigned? {
        NothingBeforeJoining(past, e.player);
        if e.team == team {
          assert Roster(log, team) == roster + {e.player};
          SumWithout(log, roster + {e.player}, e.player);
          assert roster + {e.player} - {e.player} == roster;
        } else {
          assert Roster(log, team) == roster;
        }
      } else {
        assert Roster(log, team) == roster;
      }
  }

  /** Every score ever announced is the sum credited by then, capped. */
  lemma {:induction false} AnnouncedScoresAreRight(log: Log, p: Log, e: Event)
    requires Orderly(log) && IsPrefix(Snoc(p, e), log)
    ensures e.ScoreUpdated? ==> e.score == Capped(Total(Snoc(p, e), e.player))
    ensures e.RoundEnded? || e.GameEnded? ==> e.teamScores.Keys == {TeamA, TeamB}
    ensures e.RoundEnded? || e.GameEnded? ==> forall t <- e.teamScores :: e.teamScores[t] == Capped(TeamTotal(p, t))
  {
    if Snoc(p, e) != log {
      AnnouncedScoresAreRight(log.past, p, e);
    }
  }

  /**
   A team's score is the capped sum of every delta ever credited to its members, and a player's score that of their
   own deltas. Uncapped, a team's score is what its present and its departed members earned.
   */
  lemma ScoresConserved(t: Room, team: TeamId)
    requires Reachable(t)
    ensures team in t.teams && Orderly(t.log)
    ensures forall p <- t.players :: t.players[p].score == Capped(Total(t.log, p))
    ensures Members(t.players, team) <= Roster(t.log, team)
    ensures var present := Members(t.players, team);
            var departed := Roster(t.log, team) - present;
            t.teams[team] == Capped(SumTotals(t.log, present) + SumTotals(t.log, departed))
  {
    hide Structure, Grammar, FairTime, Credits, Balanced, Recorded, Waited, Timers, TeamTotal, Total;
    ReachableHolds(t);
    var present, roster := Members(t.players, team), Roster(t.log, team);
    TeamTotalIsRosterSum(t.log, team);
    SumSplits(t.log, present, roster - present);
    assert present + (roster - present) == roster;
  }

  // ----- time -----

  /** A timeout ends a round only after thirty seconds of un-paused play. */
  lemma TimeoutIsFair(s: Room, question: Id, order: MapOrder)
    requires Reachable(s) && CanStep(s, Timeout(question, order))
    requires TimeoutStep(s, question, order).log != s.log
    ensures s.lifecycle == InProgress && s.unpaused >= ROUND
  {
    ReachableHolds(s);
  }

  /** Un-paused time and time left always make up the round, whatever pauses came between. */
  lemma TimeAddsUp(t: Room)
    requires Reachable(t) && InGame(t)
    ensures t.current.Some? && t.unpaused + TimeLeft(t) >= ROUND
    ensures TimeLeft(t) > 0 ==> t.unpaused + TimeLeft(t) == ROUND
  {
    ReachableHolds(t);
  }

  // ----- credit -----

  lemma {:induction false} TeamsAlternate(index: nat)
    ensures ActiveTeam(index) == if index % 2 == 0 then TeamA else TeamB
  {
    if index > 0 {
      TeamsAlternate(index - 1);
    }
  }

  lemma {:induction false} HalfTheRounds(rounds: nat)
    ensures RoundsOf(TeamA, rounds) == (rounds + 1) / 2
    ensures RoundsOf(TeamB, rounds) == rounds / 2
  {
    if rounds > 0 {
      HalfTheRounds(rounds - 1);
      TeamsAlternate(rounds - 1);
    }
  }

  lemma {:induction false} RoundsGrow(team: TeamId, few: nat, many: nat)
    requires few <= many
    ensures RoundsOf(team, few) <= RoundsOf(team, many)
  {
    if few < many {
      RoundsGrow(team, few, many - 1);
    }
  }

  /**
   Within one game of `n` questions a player of team A gains at most 100 * ceil(n / 2), of team B 100 * floor(n / 2).
   */
  lemma GainsBounded(t: Room, player: Id)
    requires Reachable(t) && (InGame(t) || t.lifecycle == Finished) && player in TeamOf(t.log)
    ensures GameGain(t.log, player) <=
            100 * (if TeamOf(t.log)[player] == TeamA then (|t.bank| + 1) / 2 else |t.bank| / 2)
    ensures InGame(t) ==> RoundLocks(t.log, player) <= 1
    ensures InGame(t) ==> t.current.Some?
    ensures InGame(t) ==> t.current.value.activeTeam == if t.current.value.index % 2 == 0 then TeamA else TeamB
  {
    hide Grammar, FairTime, Ledger, Balanced, Recorded, Waited, Timers, Reachable;
    ReachableHolds(t);
    HalfTheRounds(|t.bank|);
    if InGame(t) {
      CreditsEnd(t.log, t.current.value.index, t.current.value.locked);
      RoundsGrow(TeamOf(t.log)[player], t.current.value.index + 1, |t.bank|);
      TeamsAlternate(t.current.value.index);
    }
  }

  // ----- what a reply means -----

  /** The user on whose behalf a command only the owner may give is given. */
  function Requester(command: Command): Option<Id> {
    match command
    case KickPlayer(user, _) => Some(user)
    case StartGame(user, _) => Some(user)
    case PauseGame(user) => Some(user)
    case ResumeGame(user) => Some(user)
    case NextQuestion(user, _) => Some(user)
    case _ => None
  }

  /** A refused command leaves the room as it was, and anybody but the owner is refused the owner's commands. */
  lemma RefusalsChangeNothing(s: Room, command: Command)
    requires CanStep(s, Handle(command))
    ensures HandleStep(s, command).1.Refused? ==> HandleStep(s, command).0 == s
    ensures Requester(command).Some? && Requester(command).value != s.owner ==> HandleStep(s, command).1.Refused?
  {
    hide TeamOf, ScoreDelta, LockAndScore, PickTeam, Extend, SpawnForCurrent, FinishGame;
  }

  /**
   An accepted answer is the player's first to the question being asked, from the team whose turn it is, with less than
   thirty seconds played un-paused, or at the very instant the round ends; it scores 100 if right and 0 if not.
   */
  lemma AcceptedAnswersAreFair(s: Room, player: Id, question: Id, answer: Answer, order: MapOrder)
    requires Reachable(s) && CanStep(s, Handle(SubmitAnswer(player, question, answer, order)))
    requires SubmitStep(s, player, question, answer, order).1.Scored?
    ensures s.current.Some? && s.current.value.index < |s.bank| && player in s.players
    ensures question == s.bank[s.current.value.index].id && RoundLocks(s.log, player) == 0
    ensures s.players[player].team == if s.current.value.index % 2 == 0 then TeamA else TeamB
    ensures s.unpaused < ROUND || s.clock == s.current.value.endsAt
    ensures var correct := s.bank[s.current.value.index].correct;
            var right := if answer.option.None? || correct.None? then answer.saysCorrect else answer.option == correct;
            SubmitStep(s, player, question, answer, order).1 == Scored(if right then 100 else 0)
  {
    hide Grammar, Ledger, Balanced, Recorded, Waited, Timers, TeamOf, CloseRoundAndProgress, LockAndScore, AllAnswered;
    ReachableHolds(s);
    TeamsAlternate(s.current.value.index);
  }

  // ----- closing by the last answer -----

  ghost predicate Accepts(s: Room, player: Id, question: Id, order: MapOrder) {
    s.teams.Keys == {TeamA, TeamB} && OrderFits(s, order) && SubmitRefusal(s, player, question).None?
  }

  /** Active players who have not answered once `player` has. */
  function Unanswered(s: Room, player: Id): set<Id>
    requires s.current.Some?
  {
    Members(s.players, s.current.value.activeTeam) - s.current.value.locked - {player}
  }

  /** Those who answered this round and are no longer in the room. */
  function Gone(s: Room): set<Id>
    requires s.current.Some?
  {
    s.current.value.locked - Members(s.players, s.current.value.activeTeam)
  }

  /** Whether the answer ends the round: a `RoundEnded` follows in the log. */
  ghost predicate EndsRound(s: Room, player: Id, question: Id, answer: Answer, order: MapOrder)
    requires Accepts(s, player, question, order)
  {
    Marks(s.log) + [Ended(question)] <= Marks(SubmitStep(s, player, question, answer, order).0.log)
  }

  /** Closing a round marks its end before anything else. */
  lemma ClosingMarks(s: Room, order: MapOrder)
    requires OrderFits(s, order) && s.current.Some? && RoundFits(s.current.value, s.bank)
    ensures Marks(s.log) + [Ended(s.current.value.id)] <= Marks(CloseRoundAndProgress(s, order).0.log)
  {
    CloseIs(s, order);
    var ended := Emit(s, RoundEnded(s.current.value.id, s.teams));
    assert Marks(ended.log) == Marks(s.log) + [Ended(s.current.value.id)];
  }

  lemma EndsRoundIffAllAnswered(s: Room, player: Id, question: Id, answer: Answer, order: MapOrder)
    requires Inv(s) && Accepts(s, player, question, order)
    ensures EndsRound(s, player, question, answer, order) <==>
            AllAnswered(LockAndScore(s, player, question, ScoreDelta(s, answer)))
  {
    hide Grammar, FairTime, Ledger, Credits, Balanced, Recorded, Waited, Timers, CloseRoundAndProgress, ScoreDelta;
    var scored := LockAndScore(s, player, question, ScoreDelta(s, answer));
    assert Marks(scored.log.past) == Marks(s.log);
    if AllAnswered(scored) {
      ClosingMarks(scored.(runtime := Cancel(s.runtime), pausedRemaining := None), order);
    }
  }

  lemma Counting(members: set<Id>, locked: set<Id>, player: Id)
    requires player in members && player !in locked
    ensures |locked + {player}| >= |members| <==> |members - locked - {player}| <= |locked - members|
  {
    assert members == (members - locked - {player}) + (members * locked) + {player};
    assert locked == (locked - members) + (members * locked);
  }

  /**
   An accepted answer ends the round exactly when at most as many active players are left unanswered as players have
   answered and gone: the locked set still counts those.
   */
  lemma RoundEndsWhen(s: Room, player: Id, question: Id, answer: Answer, order: MapOrder)
    requires Reachable(s) && Accepts(s, player, question, order)
    ensures EndsRound(s, player, question, answer, order) <==> |Unanswered(s, player)| <= |Gone(s)|
  {
    hide Grammar, FairTime, Credits, Balanced, Recorded, Waited, Timers, SubmitStep, ScoreDelta;
    ReachableHolds(s);
    EndsRoundIffAllAnswered(s, player, question, answer, order);
    MembersAfterScoring(s.players, player, AddScore(s.players[player].score, ScoreDelta(s, answer)));
    Counting(Members(s.players, s.current.value.activeTeam), s.current.value.locked, player);
  }

  /** While nobody has left the round, it ends exactly when the locked set becomes the active team. */
  lemma RoundEndsWithLastAnswer(s: Room, player: Id, question: Id, answer: Answer, order: MapOrder)
    requires Reachable(s) && Accepts(s, player, question, order) && !DepartedInRound(s.log)
    ensures EndsRound(s, player, question, answer, order) <==>
            s.current.value.locked + {player} == Members(s.players, s.current.value.activeTeam)
  {
    hide Grammar, FairTime, Ledger, Credits, Balanced, Recorded, Timers, SubmitStep, EndsRound, Reachable;
    RoundEndsWhen(s, player, question, answer, order);
    ReachableHolds(s);
    LastOne(Members(s.players, s.current.value.activeTeam), s.current.value.locked, player);
  }

  lemma LastOne(members: set<Id>, locked: set<Id>, player: Id)
    requires player in members && locked <= members
    ensures |members - locked - {player}| <= |locked - members| <==> locked + {player} == members
  {
    assert locked - members == {};
    assert locked + {player} == members <==> members - locked - {player} == {};
  }

  /** Until then somebody of a non-empty active team has not answered. */
  lemma SomebodyIsUnanswered(t: Room)
    requires Reachable(t) && InGame(t) && !DepartedInRound(t.log)
    ensures t.current.Some?
    ensures var members := Members(t.players, t.current.value.activeTeam);
            t.current.value.locked <= members && (members != {} ==> exists p <- members :: p !in t.current.value.locked)
  {
    ReachableHolds(t);
  }

  // ----- results -----

  /** Whatever order the maps yield their keys in, a finished game records every score and winners nobody beats. */
  lemma ResultIsRight(s: Room, order: MapOrder)
    requires s.teams.Keys == {TeamA, TeamB} && OrderFits(s, order)
    ensures var t := FinishGame(s, order);
            && t.lifecycle == Finished && t.result.Some?
            && t.result.value.finalScores.Keys == s.players.Keys
            && (forall p <- s.players :: t.result.value.finalScores[p] == s.players[p].score)
            && t.result.value.finalTeamScores == s.teams
            && Wins(t.result.value.winnerPlayer, t.result.value.finalScores)
            && Wins(t.result.value.winnerTeam, s.teams)
            && t.log == Snoc(s.log, GameEnded(t.result.value.winnerPlayer, s.teams))
  {
    assert Scores(s.players).Keys == s.players.Keys;
    BestWins(order.players, Scores(s.players));
    BestWins(order.teams, s.teams);
  }

  /** A reachable room has a result exactly when it is finished, and while it stays so the result stays right. */
  lemma ResultIffFinished(t: Room)
    requires Reachable(t)
    ensures t.result.Some? <==> t.lifecycle == Finished
    ensures t.result.Some? ==>
              && Wins(t.result.value.winnerPlayer, t.result.value.finalScores)
              && Wins(t.result.value.winnerTeam, t.teams)
              && t.result.value.finalTeamScores == t.teams
              && (forall p <- t.players ::
                    p in t.result.value.finalScores && t.result.value.finalScores[p] == t.players[p].score)
  {
    ReachableHolds(t);
  }

  // ----- lifecycle -----

  /** The moves a room's lifecycle can make, and the step that makes each. */
  predicate Moves(from: Lifecycle, step: Step, to: Lifecycle) {
    || from == to
    || (from == Lobby && to == Closed && step.Handle? && step.command.Leave?)
    || (from != Closed && to == InProgress && step.Handle? && step.command.StartGame?)
    || (from == InProgress && to == Paused && step.Handle? && step.command.PauseGame?)
    || (from == Paused && to == InProgress && step.Handle? && step.command.ResumeGame?)
    || (from == InProgress && to == Finished &&
        (step.Timeout? || (step.Handle? && (step.command.NextQuestion? || step.command.SubmitAnswer?))))
  }

  predicate FinishesOnly(s: Room, t: Room) {
    s.lifecycle == t.lifecycle || (s.lifecycle == InProgress && t.lifecycle == Finished)
  }

  lemma ClosingMoves(s: Room, order: MapOrder)
    requires OrderFits(s, order) && s.lifecycle == InProgress
    ensures FinishesOnly(s, SpawnForCurrent(CloseRoundAndProgress(s, order).0))
  {
  }

  lemma NextQuestionMoves(s: Room, requestedBy: Id, order: MapOrder)
    requires OrderFits(s, order)
    ensures FinishesOnly(s, NextQuestionStep(s, requestedBy, order).0)
  {
    hide CloseRoundAndProgress;
    if s.lifecycle == InProgress {
      ClosingMoves(s.(runtime := Cancel(s.runtime), pausedRemaining := None), order);
    }
  }

  lemma SubmitMoves(s: Room, player: Id, question: Id, answer: Answer, order: MapOrder)
    requires OrderFits(s, order) && s.teams.Keys == {TeamA, TeamB}
    ensures FinishesOnly(s, SubmitStep(s, player, question, answer, order).0)
  {
    hide CloseRoundAndProgress, ScoreDelta;
    if SubmitRefusal(s, player, question).None? {
      var scored := LockAndScore(s, player, question, ScoreDelta(s, answer));
      ClosingMoves(scored.(runtime := Cancel(s.runtime), pausedRemaining := None), order);
    }
  }

  lemma TimeoutMoves(s: Room, question: Id, order: MapOrder)
    requires OrderFits(s, order)
    ensures FinishesOnly(s, TimeoutStep(s, question, order))
  {
    hide CloseRoundAndProgress;
    if s.lifecycle == InProgress {
      var rt := s.runtime.(mailbox := s.runtime.mailbox - multiset{question}, timeoutTask := None);
      ClosingMoves(s.(runtime := rt, pausedRemaining := None), order);
    }
  }

  lemma LifecycleMoves(s: Room, step: Step)
    requires Inv(s) && StepOk(s, step)
    ensures Moves(s.lifecycle, step, Apply(s, step).lifecycle)
  {
    hide Grammar, FairTime, Ledger, Credits, Balanced, Recorded, Waited, Timers, TeamOf, Members,
         NextQuestionStep, SubmitStep, TimeoutStep;
    match step
    case Handle(NextQuestion(requestedBy, order)) => NextQuestionMoves(s, requestedBy, order);
    case Handle(SubmitAnswer(player, question, answer, order)) => SubmitMoves(s, player, question, answer, order);
    case Timeout(question, order) => TimeoutMoves(s, question, order);
    case _ =>
  }

  /** The lobby is never re-entered; a closed room stays closed, with nobody in it. */
  lemma {:induction false} NoWayBack(s: Room, steps: seq<Step>, t: Room)
    requires Inv(s) && Reaches(s, steps, t)
    ensures s.lifecycle != Lobby ==> t.lifecycle != Lobby
    ensures s.lifecycle == Closed ==> t.lifecycle == Closed && t.players == map[]
    decreases steps
  {
    hide Grammar, FairTime, Ledger, Credits, Balanced, Recorded, Waited, Timers, Apply;
    if steps != [] {
      LifecycleMoves(s, steps[0]);
      StepKeeps(s, steps[0]);
      NoWayBack(Apply(s, steps[0]), steps[1..], t);
    }
  }

  /** In a game there is a round, it is the bank's entry at its index, and starting the next cannot fail. */
  lemma RoundMatchesBank(t: Room, order: MapOrder)
    requires Reachable(t) && OrderFits(t, order)
    ensures t.pausedRemaining.Some? <==> t.lifecycle == Paused
    ensures InGame(t) ==> t.current.Some? && RoundFits(t.current.value, t.bank)
    ensures InGame(t) ==> CloseRoundAndProgress(t, order).1 == Done
    ensures StartGameStep(t, t.owner, t.bank).1 != Refused("question index out of range")
  {
    hide Grammar, FairTime, Ledger, Credits, Balanced, Recorded, Waited, Timers, Reachable, FinishGame;
    ReachableHolds(t);
  }

  /** The teams differ by at most one more than the number of departures so far. */
  lemma TeamsStayBalanced(t: Room)
    requires Reachable(t)
    ensures Imbalance(t.players) <= 1 + Departures(t.log)
  {
    ReachableHolds(t);
  }

  // ----- map orders -----

  lemma {:induction false} SomeOrder<K>(keys: set<K>) returns (order: seq<K>)
    ensures IsOrder(order, keys)
    decreases keys
  {
    if keys == {} {
      order := [];
    } else {
      var k :| k in keys;
      var rest := SomeOrder(keys - {k});
      order := [k] + rest;
      assert forall x <- keys :: x == k || x in rest;
    }
  }
}
