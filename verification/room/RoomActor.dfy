/**
 The room actor itself: its variables, updated in place by the handler of each command. Every handler is proved to
 change the actor's view exactly as the function of the same command in `RoomSpec` says.
 */
module RoomActorModule {
  import opened Prelude
  import opened RoomTypes
  import opened RoomSpec
  import RoomInvariant
  import RoomRuns

  /** The winner loop of a finished game: the last of the keys seen whose score reaches the best so far. */
  method Tally<K(==)>(order: seq<K>, score: map<K, nat>) returns (finals: map<K, nat>, winner: Option<K>)
    requires IsOrder(order, score.Keys)
    ensures finals == score
    ensures winner == Best(order, score).0
  {
    finals, winner := map[], None;
    var best := 0;
    for i := 0 to |order|
      invariant finals.Keys == set k | k in order[..i]
      invariant forall k <- finals :: k in score && finals[k] == score[k]
      invariant (winner, best) == Best(order[..i], score)
    {
      var k := order[i];
      assert order[..i + 1][..i] == order[..i];
      finals := finals[k := score[k]];
      if score[k] >= best {
        best := score[k];
        winner := Some(k);
      }
    }
    assert order[..|order|] == order;
  }

  class RoomActor {
    const owner: Id
    var lifecycle: Lifecycle
    var players: map<Id, Player>
    var teams: map<TeamId, nat>
    var bank: seq<Question>
    var current: Option<Round>
    var timer: Option<RoundTimer>
    var result: Option<GameResult>
    var pausedRemaining: Option<nat>
    var timeoutTask: Option<nat>

    // The runtime: timer tasks that still sleep, the mailbox's `RoundTimeout` messages, and the clock.
    var tasks: map<nat, Sleeper>
    var nextTask: nat
    var mailbox: multiset<Id>
    var clock: int

    // What subscribers have been sent, and the un-paused time of the current round.
    ghost var log: Log
    ghost var unpaused: nat

    ghost function View(): Room
      reads this
    {
      Room(owner, lifecycle, players, teams, bank, current, timer, result, pausedRemaining,
           Runtime(timeoutTask, tasks, nextTask, mailbox), clock, log, unpaused)
    }

    ghost predicate Valid()
      reads this
    {
      teams.Keys == {TeamA, TeamB}
    }

    constructor (owner: Id, clock: int)
      ensures Valid() && View() == Created(owner, clock)
    {
      this.owner := owner;
      lifecycle, players, bank := Lobby, map[], [];
      current, timer, result := None, None, None;
      timeoutTask, pausedRemaining := None, None;
      tasks, nextTask, mailbox, this.clock := map[], 0, multiset{}, clock;
      teams := map[TeamA := 0];
      log, unpaused := Empty, 0;
      new;
      teams := teams[TeamB := 0];
      Send(RoomCreated);
    }

    ghost method Send(e: Event)
      modifies `log
      ensures View() == Emit(old(View()), e)
    {
      log := Snoc(log, e);
    }

    method SpawnRoundTimeout(question: Id, delay: nat)
      modifies `timeoutTask, `tasks, `nextTask
      ensures View() == old(View()).(runtime := Spawn(old(View()).runtime, question, clock + delay))
    {
      tasks := tasks[nextTask := Sleeper(question, clock + delay)];
      timeoutTask := Some(nextTask);
      nextTask := nextTask + 1;
    }

    method CancelRoundTimeout()
      modifies `timeoutTask, `tasks
      ensures View() == old(View()).(runtime := Cancel(old(View()).runtime))
    {
      if timeoutTask.Some? {
        tasks := tasks - {timeoutTask.value};
        timeoutTask := None;
      }
    }

    method SpawnForCurrentRound()
      modifies `timeoutTask, `tasks, `nextTask
      ensures View() == SpawnForCurrent(old(View()))
    {
      if current.Some? {
        SpawnRoundTimeout(current.value.id, Remaining(current.value, clock));
      }
    }

    method StartQuestion(index: nat, team: TeamId) returns (reply: Reply)
      modifies `current, `timer, `log, `unpaused
      ensures (View(), reply) == StartRound(old(View()), index, team)
    {
      if index >= |bank| {
        return Refused("question index out of range");
      }
      var question := bank[index];
      var startedAt := clock;
      var endsAt := startedAt + ROUND;
      current := Some(Round(index, question.id, question.text, question.options, startedAt, endsAt, {}, team));
      timer := Some(RoundTimer(startedAt, 30));
      unpaused := 0;
      Send(QuestionStarted(question.id, question.text, question.options, endsAt));
      return Done;
    }

    method Finish(order: MapOrder)
      requires OrderFits(View(), order)
      modifies `lifecycle, `result, `log
      ensures View() == FinishGame(old(View()), order)
    {
      lifecycle := Finished;
      assert Scores(players).Keys == players.Keys;
      var finalScores, winner := Tally(order.players, Scores(players));
      var finalTeamScores, winnerTeam := Tally(order.teams, teams);
      result := Some(GameResult(winner, winnerTeam, finalScores, finalTeamScores));
      Send(GameEnded(winner, teams));
    }

    method CloseRound(order: MapOrder) returns (reply: Reply)
      requires OrderFits(View(), order)
      modifies this
      ensures (View(), reply) == CloseRoundAndProgress(old(View()), order)
    {
      if current.None? {
        return Done;
      }
      var round := current.value;
      Send(RoundEnded(round.id, teams));
      var nextIndex := round.index + 1;
      if nextIndex >= |bank| {
        Finish(order);
        return Done;
      }
      reply := StartQuestion(nextIndex, NextTeam(round.activeTeam));
    }

    method RecordAnswer(player: Id, question: Id, delta: nat)
      requires current.Some? && player in players && players[player].team in teams
      modifies this
      ensures View() == LockAndScore(old(View()), player, question, delta)
    {
      current := Some(current.value.(locked := current.value.locked + {player}));
      var scored := players[player].(score := AddScore(players[player].score, delta));
      players := players[player := scored];
      teams := teams[scored.team := AddScore(teams[scored.team], delta)];
      Send(AnswerLocked(player, question));
      Send(ScoreUpdated(player, scored.score, delta));
    }

    method HandleJoin(userId: Id, displayName: string, freshId: Id) returns (reply: Reply)
      modifies this
      ensures (View(), reply) == JoinStep(old(View()), userId, displayName, freshId)
    {
      if lifecycle != Lobby {
        return Refused("room no longer accepts players");
      }
      var team := PickTeam(players);
      players := players[freshId := Player(userId, displayName, 0, team)];
      Send(PlayerJoined(freshId, displayName));
      Send(TeamsAssigned(freshId, team, teams));
      return Joined(freshId);
    }

    method HandleLeave(player: Id) returns (reply: Reply)
      modifies this
      ensures (View(), reply) == LeaveStep(old(View()), player)
    {
      if player !in players {
        return Refused("player not found");
      }
      players := players - {player};
      Send(PlayerLeft(player));
      if players == map[] && lifecycle == Lobby {
        lifecycle := Closed;
        Send(RoomClosed);
      }
      return Done;
    }

    method HandleKick(requestedBy: Id, player: Id) returns (reply: Reply)
      modifies this
      ensures (View(), reply) == KickStep(old(View()), requestedBy, player)
    {
      if requestedBy != owner {
        return Refused("only owner can kick players");
      }
      if player !in players {
        return Refused("player not found");
      }
      players := players - {player};
      Send(PlayerLeft(player));
      return Done;
    }

    method HandleStartGame(requestedBy: Id, questions: seq<Question>) returns (reply: Reply)
      modifies this
      ensures (View(), reply) == StartGameStep(old(View()), requestedBy, questions)
    {
      hide StoreBank, StartRound, ArmFull;
      if requestedBy != owner {
        return Refused("only owner can start game");
      }
      if players == map[] {
        return Refused("no players in room");
      }
      if questions == [] {
        return Refused("quiz has no questions");
      }
      Store(questions);
      reply := StartQuestion(0, TeamA);
      if reply.Refused? {
        return;
      }
      ArmFirstRound();
      pausedRemaining := None;
      return Done;
    }

    method Store(questions: seq<Question>)
      modifies this
      ensures View() == StoreBank(old(View()), questions)
    {
      lifecycle := InProgress;
      bank := questions;
      result := None;
      Send(GameStarted(questions));
    }

    method ArmFirstRound()
      modifies `timeoutTask, `tasks, `nextTask
      ensures View() == ArmFull(old(View()))
    {
      if current.Some? {
        CancelRoundTimeout();
        SpawnRoundTimeout(current.value.id, ROUND);
      }
    }

    method HandlePause(requestedBy: Id) returns (reply: Reply)
      modifies this
      ensures (View(), reply) == PauseStep(old(View()), requestedBy)
    {
      if requestedBy != owner {
        return Refused("only owner can pause game");
      }
      if lifecycle == Paused {
        return Done;
      }
      if lifecycle != InProgress {
        return Refused("game is not in progress");
      }
      if current.Some? {
        var remaining := Remaining(current.value, clock);
        pausedRemaining := Some(remaining);
        timer := Some(RoundTimer(clock, WholeSeconds(remaining)));
      }
      CancelRoundTimeout();
      lifecycle := Paused;
      return Done;
    }

    method HandleResume(requestedBy: Id) returns (reply: Reply)
      modifies this
      ensures (View(), reply) == ResumeStep(old(View()), requestedBy)
    {
      hide Extend;
      if requestedBy != owner {
        return Refused("only owner can resume game");
      }
      if lifecycle == InProgress {
        return Done;
      }
      if lifecycle != Paused {
        return Refused("game is not paused");
      }
      ExtendRound();
      lifecycle := InProgress;
      return Done;
    }

    method ExtendRound()
      modifies this
      ensures View() == Extend(old(View()))
    {
      hide Spawn, Cancel, WholeSeconds, Remaining;
      if current.Some? {
        var remaining := if pausedRemaining.Some? then pausedRemaining.value else Remaining(current.value, clock);
        pausedRemaining := None;
        current := Some(current.value.(endsAt := clock + remaining));
        timer := Some(RoundTimer(clock, WholeSeconds(remaining)));
        ghost var extended := View();
        assert extended.current.value.id == old(current).value.id && extended.runtime == old(View()).runtime;
        CancelRoundTimeout();
        SpawnRoundTimeout(current.value.id, remaining);
      }
    }

    method HandleNextQuestion(requestedBy: Id, order: MapOrder) returns (reply: Reply)
      requires OrderFits(View(), order)
      modifies this
      ensures (View(), reply) == NextQuestionStep(old(View()), requestedBy, order)
    {
      hide Spawn, Cancel, CloseRoundAndProgress;
      if requestedBy != owner {
        return Refused("only owner can move to next question");
      }
      if lifecycle != InProgress {
        return Refused("game is not in progress");
      }
      CancelRoundTimeout();
      pausedRemaining := None;
      reply := CloseRound(order);
      if reply.Refused? {
        return;
      }
      SpawnForCurrentRound();
      return Done;
    }

    method HandleTimeout(question: Id, order: MapOrder)
      requires OrderFits(View(), order)
      modifies this
      ensures View() == TimeoutStep(old(View()), question, order)
    {
      hide Spawn, CloseRoundAndProgress, Remaining;
      mailbox := mailbox - multiset{question};
      timeoutTask := None;
      if lifecycle != InProgress || current.None? || current.value.id != question {
        return;
      }
      var remaining := Remaining(current.value, clock);
      if remaining != 0 {
        SpawnRoundTimeout(question, remaining);
        return;
      }
      hide SpawnForCurrent;
      pausedRemaining := None;
      var _ := CloseRound(order);
      SpawnForCurrentRound();
    }

    method HandleSubmit(player: Id, question: Id, answer: Answer, order: MapOrder) returns (reply: Reply)
      requires Valid() && OrderFits(View(), order)
      modifies this
      ensures (View(), reply) == SubmitStep(old(View()), player, question, answer, order)
    {
      hide Spawn, Cancel, CloseRoundAndProgress, Members, Best, IsCorrect, AddScore;
      if lifecycle != InProgress {
        return Refused("game is not in progress");
      }
      if current.None? {
        return Refused("no active question");
      }
      if player !in players {
        return Refused("player not found");
      }
      var round := current.value;
      if players[player].team != round.activeTeam {
        return Refused("not your team turn");
      }
      if clock > round.endsAt {
        return Refused("round timed out");
      }
      if round.id != question {
        return Refused("invalid question");
      }
      if player in round.locked {
        return Refused("answer already submitted");
      }
      var correct := if round.index < |bank| then bank[round.index].correct else None;
      var delta := if IsCorrect(answer, correct) then 100 else 0;
      RecordAnswer(player, question, delta);
      ghost var scored := View();

      var expected := |Members(players, round.activeTeam)|;
      if expected > 0 && |current.value.locked| >= expected {
        assert AllAnswered(scored);
        CancelRoundTimeout();
        pausedRemaining := None;
        var _ := CloseRound(order);
        SpawnForCurrentRound();
      }
      return Scored(delta);
    }

    /** The runtime: a sleeping task puts its message into the mailbox. */
    method TaskFires(task: nat)
      requires task in tasks
      modifies `tasks, `mailbox
      ensures View() == FireStep(old(View()), task)
    {
      mailbox := mailbox + multiset{tasks[task].question};
      tasks := tasks - {task};
    }

    method TimePasses(elapsed: nat)
      modifies `clock, `unpaused
      ensures View() == TickStep(old(View()), elapsed)
    {
      clock := clock + elapsed;
      if lifecycle == InProgress {
        unpaused := unpaused + elapsed;
      }
    }

    method Process(command: Command) returns (reply: Reply)
      requires Valid() && RoomInvariant.StepOk(View(), Handle(command))
      modifies this
      ensures (View(), reply) == HandleStep(old(View()), command)
    {
      hide JoinStep, LeaveStep, KickStep, StartGameStep, PauseStep, ResumeStep, NextQuestionStep, SubmitStep;
      match command
      case Join(userId, displayName, freshId) => reply := HandleJoin(userId, displayName, freshId);
      case Leave(player) => reply := HandleLeave(player);
      case KickPlayer(requestedBy, player) => reply := HandleKick(requestedBy, player);
      case StartGame(requestedBy, questions) => reply := HandleStartGame(requestedBy, questions);
      case PauseGame(requestedBy) => reply := HandlePause(requestedBy);
      case ResumeGame(requestedBy) => reply := HandleResume(requestedBy);
      case NextQuestion(requestedBy, order) => reply := HandleNextQuestion(requestedBy, order);
      case SubmitAnswer(player, question, answer, order) => reply := HandleSubmit(player, question, answer, order);
      case GetState => reply := Done;
    }

    /** The actor's loop over its mailbox, with its timers and its clock: it follows the run to its end. */
    method Serve(steps: seq<Step>, ghost end: Room)
      requires RoomInvariant.Inv(View()) && RoomRuns.Reaches(View(), steps, end)
      modifies this
      ensures View() == end && RoomInvariant.Inv(View())
    {
      hide RoomInvariant.Inv, HandleStep, TimeoutStep, FireStep, TickStep;
      for i := 0 to |steps|
        invariant RoomInvariant.Inv(View()) && RoomRuns.Reaches(View(), steps[i..], end)
      {
        ghost var before := View();
        assert steps[i..][1..] == steps[i + 1..];
        RoomInvariant.StepKeeps(before, steps[i]);
        match steps[i] {
          case Handle(command) => var _ := Process(command);
          case Timeout(question, order) => HandleTimeout(question, order);
          case Fire(task) => TaskFires(task);
          case Tick(elapsed) => TimePasses(elapsed);
        }
        assert View() == Apply(before, steps[i]);
      }
    }
  }
}
