/**
 What each command does, and when: read off the room, its timers and its events before and after, for every reachable
 room. A command that is due but does nothing, or something else, meets none of these.
 */
module RoomEffects {
  import opened Prelude
  import opened RoomTypes
  import opened RoomSpec
  import opened RoomLog
  import opened RoomLedger
  import opened RoomInvariant
  import opened RoomRuns

  function TeamAsked(index: nat): TeamId {
    if index % 2 == 0 then TeamA else TeamB
  }

  function Later(a: int, b: int): int {
    if a <= b then b else a
  }

  /** The handle the actor stores, if any. */
  function Stored(rt: Runtime): set<nat> {
    if rt.timeoutTask.Some? then {rt.timeoutTask.value} else {}
  }

  /** The runtime while a `RoundTimeout` is handled: the message is taken, the handle dropped. */
  function Taken(rt: Runtime, question: Id): Runtime {
    rt.(mailbox := rt.mailbox - multiset{question}, timeoutTask := None)
  }

  /** One more task sleeps, stored and for the round being asked, until that ends; `aborted` sleep no more. */
  ghost predicate Rearmed(s: Room, t: Room, aborted: set<nat>) {
    && t.current.Some? && t.runtime.timeoutTask.Some?
    && var k, round := t.runtime.timeoutTask.value, t.current.value;
       && k !in s.runtime.tasks && t.runtime.tasks.Keys == s.runtime.tasks.Keys - aborted + {k}
       && t.runtime.tasks[k].question == round.id
       && t.runtime.tasks[k].wakeAt == Later(round.endsAt, t.clock)
  }

  ghost predicate SamePeople(s: Room, t: Room) {
    s.owner == t.owner && s.players == t.players && s.teams == t.teams && s.clock == t.clock
  }

  /** Question `index` is asked from now on for thirty seconds, of its team, and is announced with its end. */
  ghost predicate Begins(t: Room, index: nat) {
    && index < |t.bank| && t.lifecycle == InProgress && t.pausedRemaining == None && t.result == None && t.unpaused == 0
    && var q := t.bank[index];
       && t.current == Some(Round(index, q.id, q.text, q.options, t.clock, t.clock + ROUND, {}, TeamAsked(index)))
       && t.timer == Some(RoundTimer(t.clock, 30))
       && t.log.Snoc? && t.log.last == QuestionStarted(q.id, q.text, q.options, t.clock + ROUND)
  }

  /** The round has ended, after the events of `log`: the next question is asked, or after the last the game is over. */
  ghost predicate RoundIsOver(round: Round, log: Log, t: Room) {
    var ended := Snoc(log, RoundEnded(round.id, t.teams));
    if round.index + 1 < |t.bank| then Begins(t, round.index + 1) && t.log.past == ended
    else
      && t.lifecycle == Finished && t.current == Some(round) && t.result.Some?
      && t.log == Snoc(ended, GameEnded(t.result.value.winnerPlayer, t.teams))
  }

  // ----- the room and its owner -----

  lemma ClosingKeepsOwner(s: Room, order: MapOrder)
    requires OrderFits(s, order)
    ensures CloseRoundAndProgress(s, order).0.owner == s.owner
  {
    hide Best, Scores, IsOrder;
  }

  lemma RoundsKeepOwner(s: Room, step: Step)
    requires CanStep(s, step)
    requires step.Timeout? || (step.Handle? && (step.command.NextQuestion? || step.command.SubmitAnswer?))
    ensures Apply(s, step).owner == s.owner
  {
    hide CloseRoundAndProgress, IsOrder, SubmitRefusal, ScoreDelta, AllAnswered, TeamOf, Cancel, Spawn, Remaining;
    var cancelled := s.(runtime := Cancel(s.runtime), pausedRemaining := None);
    match step
    case Handle(NextQuestion(_, order)) => ClosingKeepsOwner(cancelled, order);
    case Handle(SubmitAnswer(player, question, answer, order)) =>
      if SubmitRefusal(s, player, question).None? {
        RefusedWithout(s, player, question);
        OrderStillFits(s, player, question, ScoreDelta(s, answer), order);
        var scored := LockAndScore(s, player, question, ScoreDelta(s, answer));
        ClosingKeepsOwner(scored.(runtime := Cancel(s.runtime), pausedRemaining := None), order);
      }
    case Timeout(question, order) =>
      ClosingKeepsOwner(s.(runtime := Taken(s.runtime, question), pausedRemaining := None), order);
  }

  lemma RefusedWithout(s: Room, player: Id, question: Id)
    requires SubmitRefusal(s, player, question).None? && s.teams.Keys == {TeamA, TeamB}
    ensures s.current.Some? && player in s.players && s.players[player].team in s.teams
  {
  }

  lemma StepKeepsOwner(s: Room, step: Step)
    requires CanStep(s, step)
    ensures Apply(s, step).owner == s.owner
  {
    hide TeamOf, PickTeam, Members, NextQuestionStep, SubmitStep, TimeoutStep, IsOrder;
    if step.Timeout? || (step.Handle? && (step.command.NextQuestion? || step.command.SubmitAnswer?)) {
      hide Apply;
      RoundsKeepOwner(s, step);
    }
  }

  lemma {:induction false} OwnerStays(s: Room, steps: seq<Step>, t: Room)
    requires Reaches(s, steps, t)
    ensures t.owner == s.owner
    decreases steps
  {
    if steps != [] {
      hide Apply;
      StepKeepsOwner(s, steps[0]);
      OwnerStays(Apply(s, steps[0]), steps[1..], t);
    }
  }

  /** A room is created as an empty lobby without points, and whoever created it owns it for good. */
  lemma CreatorOwnsTheRoom(owner: Id, clock: int, steps: seq<Step>, t: Room)
    requires Reaches(Created(owner, clock), steps, t)
    ensures var s := Created(owner, clock);
            && s.lifecycle == Lobby && s.players == map[] && s.teams == map[TeamA := 0, TeamB := 0]
            && s.current == None && s.runtime.tasks == map[] && s.log == Snoc(Empty, RoomCreated)
    ensures t.owner == owner
  {
    OwnerStays(Created(owner, clock), steps, t);
  }

  // ----- players coming and going -----

  /** Whoever joins a lobby is told their id and is in the smaller team, team A if they are equal, with no points. */
  lemma JoinTakesEffect(s: Room, userId: Id, displayName: string, freshId: Id)
    requires Reachable(s) && CanStep(s, Handle(Join(userId, displayName, freshId)))
    ensures var (t, reply) := HandleStep(s, Join(userId, displayName, freshId));
            if s.lifecycle != Lobby then t == s && reply == Refused("room no longer accepts players")
            else
              && reply == Joined(freshId) && freshId !in s.players && freshId in t.players
              && var team := t.players[freshId].team;
                 && t == s.(players := s.players[freshId := Player(userId, displayName, 0, team)], log := t.log)
                 && t.log == Snoc(Snoc(s.log, PlayerJoined(freshId, displayName)),
                                  TeamsAssigned(freshId, team, s.teams))
                 && |Members(s.players, team)| <= |Members(s.players, NextTeam(team))|
                 && (team == TeamB ==> |Members(s.players, TeamB)| < |Members(s.players, TeamA)|)
  {
    hide Structure, Grammar, FairTime, Credits, Balanced, Recorded, Waited, Timers;
    ReachableHolds(s);
    if freshId in s.players { Registered(s, freshId); }
  }

  /** Without `player`, and as it was otherwise; that is announced. */
  ghost predicate Departs(s: Room, player: Id, t: Room) {
    && player in s.players && player !in t.players
    && t.players.Keys == s.players.Keys - {player} && (forall p <- t.players :: t.players[p] == s.players[p])
    && t.(players := s.players, log := s.log, lifecycle := s.lifecycle) == s
  }

  /** A player who is there leaves; with the last of a lobby the room closes. */
  lemma LeaveTakesEffect(s: Room, player: Id)
    requires Reachable(s) && CanStep(s, Handle(Leave(player)))
    ensures var (t, reply) := HandleStep(s, Leave(player));
            if player !in s.players then t == s && reply == Refused("player not found")
            else
              && reply == Done && Departs(s, player, t)
              && var left := Snoc(s.log, PlayerLeft(player));
                 if s.lifecycle == Lobby && s.players.Keys == {player}
                 then t.lifecycle == Closed && t.log == Snoc(left, RoomClosed)
                 else t.lifecycle == s.lifecycle && t.log == left
  {
    hide Reachable, PickTeam;
    if player in s.players { LastOfAll(s.players, player); }
  }

  lemma LastOfAll(players: map<Id, Player>, player: Id)
    requires player in players
    ensures players - {player} == map[] <==> players.Keys == {player}
  {
    assert (players - {player}).Keys == players.Keys - {player};
    assert players.Keys == players.Keys - {player} + {player};
  }

  /** The owner kicks a player who is there; the room stays open. */
  lemma KickTakesEffect(s: Room, requestedBy: Id, player: Id)
    requires Reachable(s) && CanStep(s, Handle(KickPlayer(requestedBy, player)))
    ensures var (t, reply) := HandleStep(s, KickPlayer(requestedBy, player));
            if requestedBy != s.owner then t == s && reply == Refused("only owner can kick players")
            else if player !in s.players then t == s && reply == Refused("player not found")
            else
              && reply == Done && Departs(s, player, t) && t.lifecycle == s.lifecycle
              && t.log == Snoc(s.log, PlayerLeft(player))
  {
    hide Reachable;
  }

  // ----- starting, pausing and resuming -----

  /** The owner of a room with players starts a game of any questions, at any time: the first of them is asked. */
  lemma StartTakesEffect(s: Room, requestedBy: Id, questions: seq<Question>)
    requires Reachable(s) && CanStep(s, Handle(StartGame(requestedBy, questions)))
    ensures var (t, reply) := HandleStep(s, StartGame(requestedBy, questions));
            if requestedBy != s.owner then t == s && reply == Refused("only owner can start game")
            else if s.players == map[] then t == s && reply == Refused("no players in room")
            else if questions == [] then t == s && reply == Refused("quiz has no questions")
            else
              && reply == Done && t.bank == questions
              && Begins(t, 0) && t.log.past == Snoc(s.log, GameStarted(questions))
              && SamePeople(s, t) && Rearmed(s, t, Stored(s.runtime))
  {
    hide Structure, Grammar, FairTime, Ledger, Credits, Balanced, Recorded, Waited, Reachable;
    ReachableHolds(s);
  }

  /** A game in progress is paused by its owner: what time is left is kept, and nothing is stored to wake it. */
  lemma PauseTakesEffect(s: Room, requestedBy: Id)
    requires Reachable(s) && CanStep(s, Handle(PauseGame(requestedBy)))
    ensures var (t, reply) := HandleStep(s, PauseGame(requestedBy));
            if requestedBy != s.owner then t == s && reply == Refused("only owner can pause game")
            else if !InGame(s) then t == s && reply == Refused("game is not in progress")
            else if s.lifecycle == Paused then reply == Done && t == s
            else
              && reply == Done && t.lifecycle == Paused && t.pausedRemaining.Some? && s.current.Some?
              && s.clock + t.pausedRemaining.value == Later(s.current.value.endsAt, s.clock)
              && t.timer == Some(RoundTimer(s.clock, t.pausedRemaining.value / SECOND))
              && t.runtime.timeoutTask == None && t.runtime.tasks == s.runtime.tasks - Stored(s.runtime)
              && SamePeople(s, t) && t.bank == s.bank && t.current == s.current && t.log == s.log
  {
    hide Grammar, Ledger, Credits, Balanced, Recorded, Waited, Timers, Reachable;
    ReachableHolds(s);
  }

  /** A paused game goes on when its owner says so: its round ends when the time it had left is over, and wakes then. */
  lemma ResumeTakesEffect(s: Room, requestedBy: Id)
    requires Reachable(s) && CanStep(s, Handle(ResumeGame(requestedBy)))
    ensures var (t, reply) := HandleStep(s, ResumeGame(requestedBy));
            if requestedBy != s.owner then t == s && reply == Refused("only owner can resume game")
            else if !InGame(s) then t == s && reply == Refused("game is not paused")
            else if s.lifecycle == InProgress then reply == Done && t == s
            else
              && reply == Done && t.lifecycle == InProgress && t.pausedRemaining == None
              && s.current.Some? && s.pausedRemaining.Some?
              && t.current == Some(s.current.value.(endsAt := s.clock + s.pausedRemaining.value))
              && t.timer == Some(RoundTimer(s.clock, s.pausedRemaining.value / SECOND))
              && Rearmed(s, t, Stored(s.runtime))
              && SamePeople(s, t) && t.bank == s.bank && t.log == s.log && t.unpaused == s.unpaused
  {
    hide Grammar, Ledger, Credits, Balanced, Recorded, Waited, Reachable;
    ReachableHolds(s);
  }

  // ----- rounds ending -----

  lemma ClosingTakesEffect(s: Room, order: MapOrder)
    requires OrderFits(s, order) && Structure(s) && s.lifecycle == InProgress
    ensures var t := CloseRoundAndProgress(s, order).0;
            && RoundIsOver(s.current.value, s.log, t) && SamePeople(s, t)
            && t.bank == s.bank && t.runtime == s.runtime && t.current.Some?
  {
    CloseIs(s, order);
    TeamsAlternate(s.current.value.index + 1);
    hide CloseRoundAndProgress, Best, Scores;
  }

  lemma CloseAndRearmTakesEffect(s: Room, rt: Runtime, order: MapOrder, aborted: set<nat>)
    requires OrderFits(s, order) && Structure(s) && s.lifecycle == InProgress && FreshHandles(s.runtime)
    requires rt.nextTask == s.runtime.nextTask && rt.tasks == s.runtime.tasks - aborted
    ensures var t := SpawnForCurrent(CloseRoundAndProgress(s.(runtime := rt, pausedRemaining := None), order).0);
            && RoundIsOver(s.current.value, s.log, t) && SamePeople(s, t) && t.bank == s.bank && Rearmed(s, t, aborted)
  {
    var cancelled := s.(runtime := rt, pausedRemaining := None);
    ClosingTakesEffect(cancelled, order);
    hide CloseRoundAndProgress, FreshHandles;
    SpawnRearms(s, CloseRoundAndProgress(cancelled, order).0, aborted);
    SpawningIsQuiet(s.current.value, s.log, CloseRoundAndProgress(cancelled, order).0);
  }

  lemma SpawningIsQuiet(round: Round, log: Log, t: Room)
    requires RoundIsOver(round, log, t)
    ensures RoundIsOver(round, log, SpawnForCurrent(t))
  {
  }

  lemma SpawnRearms(s: Room, t: Room, aborted: set<nat>)
    requires t.current.Some? && s.runtime.nextTask == t.runtime.nextTask && FreshHandles(s.runtime)
    requires t.runtime.tasks == s.runtime.tasks - aborted
    ensures Rearmed(s, SpawnForCurrent(t), aborted)
  {
  }

  /** The owner of a game in progress ends its round: with the last one the game, else by asking the next question. */
  lemma NextQuestionTakesEffect(s: Room, requestedBy: Id, order: MapOrder)
    requires Reachable(s) && CanStep(s, Handle(NextQuestion(requestedBy, order)))
    ensures var (t, reply) := HandleStep(s, NextQuestion(requestedBy, order));
            if requestedBy != s.owner then t == s && reply == Refused("only owner can move to next question")
            else if s.lifecycle != InProgress then t == s && reply == Refused("game is not in progress")
            else
              && reply == Done && s.current.Some? && RoundIsOver(s.current.value, s.log, t)
              && SamePeople(s, t) && t.bank == s.bank && Rearmed(s, t, Stored(s.runtime))
  {
    hide Grammar, FairTime, Ledger, Credits, Balanced, Recorded, Waited, Reachable, CloseRoundAndProgress;
    ReachableHolds(s);
    if requestedBy == s.owner && s.lifecycle == InProgress {
      NeverOutOfRange(s.(runtime := Cancel(s.runtime), pausedRemaining := None), order);
      CloseAndRearmTakesEffect(s, Cancel(s.runtime), order, Stored(s.runtime));
    }
  }

  /**
   A timeout of the question being asked ends its round if that is due, and else only sets another timer for its end.
   One of another question, or outside a game in progress, is dropped. None aborts a timer.
   */
  lemma TimeoutTakesEffect(s: Room, question: Id, order: MapOrder)
    requires Reachable(s) && CanStep(s, Timeout(question, order))
    ensures var t := Apply(s, Timeout(question, order));
            && SamePeople(s, t) && t.bank == s.bank
            && if s.lifecycle != InProgress || s.current.None? || s.current.value.id != question
               then t.(runtime := s.runtime) == s && t.runtime.tasks == s.runtime.tasks
               else
                 && Rearmed(s, t, {})
                 && if s.clock < s.current.value.endsAt then t.(runtime := s.runtime) == s
                    else RoundIsOver(s.current.value, s.log, t)
  {
    ReachableHolds(s);
    HasStructure(s);
    hide Inv, Reachable, Rearmed, RoundIsOver, CloseRoundAndProgress, SpawnForCurrent, OrderFits, Structure,
         FreshHandles;
    if s.lifecycle == InProgress && s.current.Some? && s.current.value.id == question {
      hide TimeoutStep;
      if s.clock < s.current.value.endsAt {
        EarlyTimeoutTakesEffect(s, question, order);
      } else {
        LateTimeoutTakesEffect(s, question, order);
      }
    }
  }

  lemma EarlyTimeoutTakesEffect(s: Room, question: Id, order: MapOrder)
    requires FreshHandles(s.runtime) && OrderFits(s, order) && s.lifecycle == InProgress
    requires s.current.Some? && s.current.value.id == question && s.clock < s.current.value.endsAt
    ensures var t := TimeoutStep(s, question, order);
            t.(runtime := s.runtime) == s && Rearmed(s, t, {})
  {
    hide CloseRoundAndProgress, OrderFits, Rearmed;
    SpawnRearms(s, s.(runtime := Taken(s.runtime, question)), {});
  }

  lemma LateTimeoutIs(s: Room, question: Id, order: MapOrder)
    requires OrderFits(s, order) && s.lifecycle == InProgress && s.current.Some? && s.current.value.id == question
    requires s.clock >= s.current.value.endsAt
    ensures var taken := s.(runtime := Taken(s.runtime, question), pausedRemaining := None);
            TimeoutStep(s, question, order) == SpawnForCurrent(CloseRoundAndProgress(taken, order).0)
  {
    hide SpawnForCurrent, CloseRoundAndProgress, IsOrder;
  }

  lemma LateTimeoutTakesEffect(s: Room, question: Id, order: MapOrder)
    requires Structure(s) && FreshHandles(s.runtime) && OrderFits(s, order) && s.lifecycle == InProgress
    requires s.current.Some? && s.current.value.id == question && s.clock >= s.current.value.endsAt
    ensures var t := TimeoutStep(s, question, order);
            SamePeople(s, t) && t.bank == s.bank && Rearmed(s, t, {}) && RoundIsOver(s.current.value, s.log, t)
  {
    LateTimeoutIs(s, question, order);
    var rt := Taken(s.runtime, question);
    assert rt.tasks == s.runtime.tasks - {};
    hide Structure, FreshHandles, TimeoutStep, Rearmed, RoundIsOver, CloseRoundAndProgress, Taken, SpawnForCurrent,
         SamePeople;
    CloseAndRearmTakesEffect(s, rt, order, {});
  }

  lemma HasStructure(s: Room)
    requires Inv(s)
    ensures Structure(s) && FreshHandles(s.runtime)
  {
    hide Grammar, FairTime, Ledger, Credits, Balanced, Recorded, Waited, Structure;
  }

  // ----- answers -----

  /** Whether an answer is accepted: it is in time, to the question asked, from a player of its team who gave none. */
  predicate MayAnswer(s: Room, player: Id, question: Id) {
    && s.lifecycle == InProgress && s.current.Some? && s.current.value.index < |s.bank| && player in s.players
    && s.players[player].team == TeamAsked(s.current.value.index)
    && s.clock <= s.current.value.endsAt
    && question == s.bank[s.current.value.index].id
    && RoundLocks(s.log, player) == 0
  }

  /** What is said to whoever gives any other, in the order in which it is looked for. */
  function WhyNot(s: Room, player: Id, question: Id): string {
    if s.lifecycle != InProgress then "game is not in progress"
    else if player !in s.players then "player not found"
    else if s.current.Some? && s.players[player].team != TeamAsked(s.current.value.index) then "not your team turn"
    else if s.current.Some? && s.clock > s.current.value.endsAt then "round timed out"
    else if s.current.Some? && s.current.value.id != question then "invalid question"
    else "answer already submitted"
  }

  lemma RefusedUnlessDue(s: Room, player: Id, question: Id)
    requires Inv(s)
    ensures SubmitRefusal(s, player, question) ==
            if MayAnswer(s, player, question) then None else Some(WhyNot(s, player, question))
  {
    hide Grammar, FairTime, Ledger, Balanced, Recorded, Waited, Timers;
    if s.current.Some? { TeamsAlternate(s.current.value.index); }
  }

  /** Exactly such an answer is accepted; of any other it is said why, and it changes nothing. */
  lemma AnswerAcceptedExactlyWhen(s: Room, player: Id, question: Id, answer: Answer, order: MapOrder)
    requires Reachable(s) && CanStep(s, Handle(SubmitAnswer(player, question, answer, order)))
    ensures var (t, reply) := HandleStep(s, SubmitAnswer(player, question, answer, order));
            && (reply.Scored? <==> MayAnswer(s, player, question))
            && (!MayAnswer(s, player, question) ==> t == s && reply == Refused(WhyNot(s, player, question)))
  {
    ReachableHolds(s);
    RefusedUnlessDue(s, player, question);
    hide Inv, Reachable, SubmitRefusal, MayAnswer, SubmitStep, OrderFits, WhyNot;
    RepliesByRefusal(s, player, question, answer, order);
  }

  lemma RepliesByRefusal(s: Room, player: Id, question: Id, answer: Answer, order: MapOrder)
    requires OrderFits(s, order) && s.teams.Keys == {TeamA, TeamB}
    ensures var (t, reply) := SubmitStep(s, player, question, answer, order);
            match SubmitRefusal(s, player, question)
            case None => reply.Scored?
            case Some(reason) => t == s && reply == Refused(reason)
  {
    hide CloseRoundAndProgress, AllAnswered, ScoreDelta, IsOrder;
  }

  /** These points, and no others, go to the player and to their team, on the scoreboard and in the events. */
  ghost predicate Credited(s: Room, player: Id, delta: nat, t: Room) {
    && player in s.players && t.players.Keys == s.players.Keys && t.teams.Keys == s.teams.Keys
    && t.players[player] == s.players[player].(score := Capped(s.players[player].score + delta))
    && (forall p <- s.players :: p != player ==> t.players[p] == s.players[p])
    && (forall team <- s.teams ::
          t.teams[team] == if team == s.players[player].team then Capped(s.teams[team] + delta) else s.teams[team])
    && (forall p :: Total(t.log, p) == Total(s.log, p) + if p == player then delta else 0)
  }

  /** The events of an answer: it is locked, and its points and the player's new score are announced. */
  function Answered(s: Room, player: Id, question: Id, score: nat, delta: nat): Log {
    Snoc(Snoc(s.log, AnswerLocked(player, question)), ScoreUpdated(player, score, delta))
  }

  /** With this answer as many have answered as the team asked has members. */
  predicate CompletesRound(s: Room, player: Id)
    requires s.current.Some?
  {
    |s.current.value.locked + {player}| >= |Members(s.players, s.current.value.activeTeam)|
  }

  lemma ScoringTakesEffect(s: Room, player: Id, question: Id, delta: nat)
    requires s.current.Some? && player in s.players && s.players[player].team in s.teams
    ensures var t, round := LockAndScore(s, player, question, delta), s.current.value;
            && Credited(s, player, delta, t)
            && t.(players := s.players, teams := s.teams)
               == s.(current := Some(round.(locked := round.locked + {player})),
                     log := Answered(s, player, question, t.players[player].score, delta))
  {
    var t := LockAndScore(s, player, question, delta);
    forall p ensures Total(t.log, p) == Total(s.log, p) + if p == player then delta else 0 {
      assert Total(t.log.past, p) == Total(s.log, p);
    }
  }

  lemma CompletesExactlyWhen(s: Room, player: Id, question: Id, delta: nat)
    requires s.current.Some? && player in s.players && s.players[player].team in s.teams
    requires s.players[player].team == s.current.value.activeTeam
    ensures AllAnswered(LockAndScore(s, player, question, delta)) <==> CompletesRound(s, player)
  {
    MembersAfterScoring(s.players, player, AddScore(s.players[player].score, delta));
    assert player in Members(s.players, s.current.value.activeTeam);
  }

  lemma EndingIsNoCredit(s: Room, player: Id, delta: nat, scored: Room, round: Round, t: Room)
    requires Credited(s, player, delta, scored) && RoundIsOver(round, scored.log, t) && SamePeople(scored, t)
    ensures Credited(s, player, delta, t)
  {
    forall p ensures Total(t.log, p) == Total(scored.log, p) {
      assert Total(t.log.past, p) == Total(scored.log, p);
    }
  }

  lemma MembersHaveTeams(s: Room, player: Id, question: Id)
    requires Inv(s) && MayAnswer(s, player, question)
    ensures s.teams.Keys == {TeamA, TeamB} && s.players[player].team in s.teams
    ensures s.players[player].team == s.current.value.activeTeam
  {
    hide Grammar, FairTime, Credits, Balanced, Recorded, Waited, Timers;
    TeamsAlternate(s.current.value.index);
  }

  lemma AnswerGoesOn(s: Room, player: Id, question: Id, answer: Answer, order: MapOrder)
    requires Inv(s) && OrderFits(s, order) && MayAnswer(s, player, question) && !CompletesRound(s, player)
    ensures s.teams.Keys == {TeamA, TeamB} && s.players[player].team in s.teams
    ensures SubmitStep(s, player, question, answer, order) ==
            (LockAndScore(s, player, question, ScoreDelta(s, answer)), Scored(ScoreDelta(s, answer)))
  {
    RefusedUnlessDue(s, player, question);
    MembersHaveTeams(s, player, question);
    CompletesExactlyWhen(s, player, question, ScoreDelta(s, answer));
    hide CloseRoundAndProgress, LockAndScore, AllAnswered, ScoreDelta, CompletesRound, Inv;
  }

  lemma AnswerCloses(s: Room, player: Id, question: Id, answer: Answer, order: MapOrder)
    requires Inv(s) && OrderFits(s, order) && MayAnswer(s, player, question) && CompletesRound(s, player)
    ensures s.teams.Keys == {TeamA, TeamB} && s.players[player].team in s.teams
    ensures var scored := LockAndScore(s, player, question, ScoreDelta(s, answer));
            && OrderFits(scored, order)
            && SubmitStep(s, player, question, answer, order) ==
               (SpawnForCurrent(CloseRoundAndProgress(scored.(runtime := Cancel(s.runtime), pausedRemaining := None),
                                                      order).0),
                Scored(ScoreDelta(s, answer)))
  {
    RefusedUnlessDue(s, player, question);
    MembersHaveTeams(s, player, question);
    CompletesExactlyWhen(s, player, question, ScoreDelta(s, answer));
    OrderStillFits(s, player, question, ScoreDelta(s, answer), order);
    hide CloseRoundAndProgress, AllAnswered, ScoreDelta, CompletesRound, Inv, SpawnForCurrent, OrderFits, LockAndScore,
         SubmitRefusal, MayAnswer;
  }

  lemma OrderStillFits(s: Room, player: Id, question: Id, delta: nat, order: MapOrder)
    requires s.current.Some? && player in s.players && s.players[player].team in s.teams && OrderFits(s, order)
    ensures var scored := LockAndScore(s, player, question, delta);
            OrderFits(scored, order) && OrderFits(scored.(runtime := Cancel(s.runtime), pausedRemaining := None), order)
  {
    var scored := LockAndScore(s, player, question, delta);
    assert scored.players.Keys == s.players.Keys && scored.teams.Keys == s.teams.Keys;
    hide IsOrder;
  }

  lemma ReadyToClose(s: Room, player: Id, question: Id, delta: nat)
    requires Inv(s) && MayAnswer(s, player, question)
    ensures s.players[player].team in s.teams
    ensures var scored := LockAndScore(s, player, question, delta);
            && Structure(scored) && FreshHandles(scored.runtime) && scored.lifecycle == InProgress
            && scored.runtime == s.runtime && scored.bank == s.bank
            && scored.owner == s.owner && scored.clock == s.clock
  {
    hide Grammar, FairTime, Ledger, Credits, Balanced, Recorded, Waited;
    MembersHaveTeams(s, player, question);
    assert LockAndScore(s, player, question, delta).teams.Keys == s.teams.Keys;
  }

  lemma CancelAborts(rt: Runtime)
    ensures Cancel(rt).nextTask == rt.nextTask && Cancel(rt).tasks == rt.tasks - Stored(rt)
  {
  }

  lemma RearmedSince(s: Room, scored: Room, t: Room, aborted: set<nat>)
    requires Rearmed(scored, t, aborted) && s.runtime == scored.runtime
    ensures Rearmed(s, t, aborted)
  {
  }

  lemma StillThere(s: Room, player: Id, delta: nat, t: Room)
    requires Credited(s, player, delta, t)
    ensures player in t.players
  {
  }

  /** The round is over in `t`, the answer having been credited before. */
  lemma AnswerEndsRound(s: Room, player: Id, question: Id, answer: Answer, order: MapOrder)
    requires Inv(s) && OrderFits(s, order) && MayAnswer(s, player, question) && CompletesRound(s, player)
    ensures s.teams.Keys == {TeamA, TeamB}
    ensures var (t, reply) := SubmitStep(s, player, question, answer, order);
            var delta, round := ScoreDelta(s, answer), s.current.value;
            && reply == Scored(delta) && Credited(s, player, delta, t)
            && t.owner == s.owner && t.clock == s.clock && t.bank == s.bank && Rearmed(s, t, Stored(s.runtime))
            && player in t.players
            && RoundIsOver(round.(locked := round.locked + {player}),
                           Answered(s, player, question, t.players[player].score, delta), t)
  {
    AnswerCloses(s, player, question, answer, order);
    ReadyToClose(s, player, question, ScoreDelta(s, answer));
    hide CloseRoundAndProgress, SpawnForCurrent, ScoreDelta, CompletesRound, Inv, SubmitStep, RoundIsOver, OrderFits,
         MayAnswer, Structure, FreshHandles, Credited, Rearmed, LockAndScore, Cancel, Stored;
    var scored := LockAndScore(s, player, question, ScoreDelta(s, answer));
    ScoringTakesEffect(s, player, question, ScoreDelta(s, answer));
    CancelAborts(s.runtime);
    CloseAndRearmTakesEffect(scored, Cancel(s.runtime), order, Stored(s.runtime));
    var t := SubmitStep(s, player, question, answer, order).0;
    RearmedSince(s, scored, t, Stored(s.runtime));
    EndingIsNoCredit(s, player, ScoreDelta(s, answer), scored, scored.current.value, t);
    StillThere(s, player, ScoreDelta(s, answer), t);
  }

  /**
   An accepted answer locks the player for the round and credits them and their team with the points replied, 100 if it
   is right and 0 if not. If as many have now answered as the team has members the round is over, else it goes on.
   */
  lemma AnswerTakesEffect(s: Room, player: Id, question: Id, answer: Answer, order: MapOrder)
    requires Reachable(s) && CanStep(s, Handle(SubmitAnswer(player, question, answer, order)))
    requires MayAnswer(s, player, question)
    ensures var (t, reply) := HandleStep(s, SubmitAnswer(player, question, answer, order));
            var correct, round := s.bank[s.current.value.index].correct, s.current.value;
            var right := if answer.option.None? || correct.None? then answer.saysCorrect else answer.option == correct;
            var delta := if right then 100 else 0;
            && reply == Scored(delta) && Credited(s, player, delta, t)
            && t.owner == s.owner && t.clock == s.clock && t.bank == s.bank
            && var locked, log := round.(locked := round.locked + {player}),
                                  Answered(s, player, question, t.players[player].score, delta);
               if CompletesRound(s, player) then RoundIsOver(locked, log, t) && Rearmed(s, t, Stored(s.runtime))
               else t.(players := s.players, teams := s.teams) == s.(current := Some(locked), log := log)
  {
    ReachableHolds(s);
    hide Inv, Reachable, SubmitStep, LockAndScore, RoundIsOver, Rearmed, CompletesRound, Credited, OrderFits, MayAnswer;
    if CompletesRound(s, player) {
      AnswerEndsRound(s, player, question, answer, order);
    } else {
      AnswerGoesOn(s, player, question, answer, order);
      ScoringTakesEffect(s, player, question, ScoreDelta(s, answer));
    }
  }
}
