/** What holds in every state of every run of a room, and that each step keeps it. */
module RoomInvariant {
  import opened Prelude
  import opened RoomTypes
  import opened RoomSpec
  import opened RoomLog
  import opened RoomLedger

  /** What the runtime guarantees of a step: player ids are fresh, and only queued messages and live tasks act. */
  predicate StepOk(s: Room, step: Step) {
    match step
    case Handle(Join(_, _, freshId)) => freshId !in TeamOf(s.log)
    case Handle(NextQuestion(_, order)) => OrderFits(s, order)
    case Handle(SubmitAnswer(_, _, _, order)) => OrderFits(s, order)
    case Handle(_) => true
    case Timeout(question, order) => question in s.runtime.mailbox && OrderFits(s, order)
    case Fire(task) => task in s.runtime.tasks
    case Tick(_) => true
  }

  predicate InGame(s: Room) {
    s.lifecycle == InProgress || s.lifecycle == Paused
  }

  // ----- structure -----

  predicate RoundFits(round: Round, bank: seq<Question>) {
    && round.index < |bank|
    && Asks(bank[round.index], round.id, round.text, round.options)
    && round.activeTeam == ActiveTeam(round.index)
  }

  ghost predicate Structure(s: Room) {
    && s.teams.Keys == {TeamA, TeamB}
    && (s.lifecycle == Lobby || s.lifecycle == Closed ==> s.current.None?)
    && (s.lifecycle == Closed ==> s.players == map[])
    && (s.pausedRemaining.Some? <==> s.lifecycle == Paused)
    && (s.result.Some? <==> s.lifecycle == Finished)
    && (InGame(s) || s.lifecycle == Finished ==> s.current.Some? && RoundFits(s.current.value, s.bank))
  }

  ghost predicate Grammar(s: Room) {
    PhaseOf(s.log) == match s.lifecycle
                      case Lobby => Waiting
                      case Closed => Shut
                      case Finished => Over(s.bank)
                      case _ => if s.current.Some? then Asking(s.bank, s.current.value.index) else Broken
  }

  // ----- timers and time -----

  ghost predicate LiveSleeper(rt: Runtime, round: Round, task: nat) {
    task in rt.tasks && rt.tasks[task].question == round.id && rt.tasks[task].wakeAt <= round.endsAt
  }

  /** A wake-up for the round is queued, or sleeps until no later than the round's end. */
  ghost predicate Awake(rt: Runtime, round: Round) {
    round.id in rt.mailbox || exists task :: LiveSleeper(rt, round, task)
  }

  ghost predicate FreshHandles(rt: Runtime) {
    forall task <- rt.tasks :: task < rt.nextTask
  }

  ghost predicate Timers(s: Room) {
    && FreshHandles(s.runtime)
    && (s.lifecycle == InProgress ==> s.current.Some? && Awake(s.runtime, s.current.value))
  }

  function TimeLeft(s: Room): nat
    requires s.current.Some?
  {
    if s.pausedRemaining.Some? then s.pausedRemaining.value else Remaining(s.current.value, s.clock)
  }

  ghost predicate FairTime(s: Room) {
    InGame(s) ==>
      && s.current.Some?
      && s.unpaused + TimeLeft(s) >= ROUND
      && (TimeLeft(s) > 0 ==> s.unpaused + TimeLeft(s) == ROUND)
  }

  // ----- scores -----

  ghost predicate Ledger(s: Room) {
    LedgerOf(s.players, s.teams, s.log)
  }

  ghost predicate Credits(s: Room) {
    && (InGame(s) ==> s.current.Some? && CreditsOf(s.log, s.current.value.index, s.current.value.locked))
    && (s.lifecycle == Finished ==> GainsOf(s.log, |s.bank|))
  }

  // ----- teams -----

  function Imbalance(players: map<Id, Player>): nat {
    var a, b := |Members(players, TeamA)|, |Members(players, TeamB)|;
    if a <= b then b - a else a - b
  }

  ghost predicate Balanced(s: Room) {
    Imbalance(s.players) <= 1 + Departures(s.log)
  }

  /** While nobody leaves, the locked set is a proper subset of the active team, unless that team is empty. */
  ghost predicate Waited(s: Room) {
    InGame(s) && s.current.Some? && !DepartedInRound(s.log) ==>
      var round := s.current.value;
      && round.locked <= Members(s.players, round.activeTeam)
      && (Members(s.players, round.activeTeam) != {} ==> round.locked != Members(s.players, round.activeTeam))
  }

  // ----- the result -----

  /** The winner is somebody nobody beats. */
  ghost predicate Wins<K(!new)>(winner: Option<K>, scores: map<K, nat>) {
    && (winner.Some? <==> scores != map[])
    && (winner.Some? ==> winner.value in scores && forall k <- scores :: scores[k] <= scores[winner.value])
  }

  ghost predicate Recorded(s: Room) {
    s.lifecycle == Finished ==>
      && s.result.Some?
      && Wins(s.result.value.winnerPlayer, s.result.value.finalScores)
      && Wins(s.result.value.winnerTeam, s.result.value.finalTeamScores)
      && s.result.value.finalTeamScores == s.teams
      && (forall p <- s.players ::
            p in s.result.value.finalScores && s.result.value.finalScores[p] == s.players[p].score)
  }

  /** Everything but the timers and `Waited`, which `SubmitAnswer` breaks until it closes the round. */
  ghost predicate Game(s: Room) {
    Structure(s) && Grammar(s) && FairTime(s) && Ledger(s) && Credits(s) && Balanced(s) && Recorded(s)
  }

  ghost predicate Inv(s: Room) {
    Game(s) && Waited(s) && Timers(s)
  }

  // ----- pieces of steps -----

  lemma SpawnIsAwake(rt: Runtime, round: Round, wakeAt: int)
    requires FreshHandles(rt)
    ensures FreshHandles(Spawn(rt, round.id, wakeAt))
    ensures wakeAt <= round.endsAt ==> Awake(Spawn(rt, round.id, wakeAt), round)
  {
    assert wakeAt <= round.endsAt ==> LiveSleeper(Spawn(rt, round.id, wakeAt), round, rt.nextTask);
  }

  lemma StartKeeps(s: Room, index: nat)
    requires s.lifecycle == InProgress && s.pausedRemaining.None? && s.result.None? && index < |s.bank|
    requires Ledger(s) && Balanced(s) && GainsOf(s.log, index)
    requires PhaseOf(s.log) == (if index == 0 then Opening(s.bank) else Between(s.bank, index - 1))
    ensures Game(StartRound(s, index, ActiveTeam(index)).0)
    ensures Waited(StartRound(s, index, ActiveTeam(index)).0)
  {
    hide LedgerOf, CreditsOf, GainsOf, TeamOf, Imbalance;
    var q := s.bank[index];
    var e := QuestionStarted(q.id, q.text, q.options, s.clock + ROUND);
    LedgerQuiet(s.players, s.teams, s.log, e);
    CreditsBegin(s.log, index, e);
  }

  lemma ConcludeKeeps(s: Room, winner: Option<Id>, winnerTeam: Option<TeamId>)
    requires s.lifecycle == InProgress && s.pausedRemaining.None?
    requires s.current.Some? && RoundFits(s.current.value, s.bank) && s.current.value.index + 1 == |s.bank|
    requires Ledger(s) && Balanced(s) && GainsOf(s.log, |s.bank|)
    requires PhaseOf(s.log) == Between(s.bank, s.current.value.index)
    requires Wins(winner, Scores(s.players)) && Wins(winnerTeam, s.teams)
    ensures Game(Conclude(s, winner, winnerTeam))
  {
    hide LedgerOf, CreditsOf, GainsOf, TeamOf, Imbalance, Wins;
    var e := GameEnded(winner, s.teams);
    LedgerQuiet(s.players, s.teams, s.log, e);
    GainsQuiet(s.log, |s.bank|, e);
  }

  lemma EndKeeps(s: Room)
    requires Game(s) && s.lifecycle == InProgress
    ensures var t := Emit(s, RoundEnded(s.current.value.id, s.teams));
      Ledger(t) && Balanced(t) && GainsOf(t.log, s.current.value.index + 1)
      && PhaseOf(t.log) == Between(s.bank, s.current.value.index)
  {
    hide LedgerOf, CreditsOf, GainsOf, TeamOf, Imbalance;
    var round := s.current.value;
    var e := RoundEnded(round.id, s.teams);
    LedgerQuiet(s.players, s.teams, s.log, e);
    CreditsEnd(s.log, round.index, round.locked);
    GainsQuiet(s.log, round.index + 1, e);
  }

  lemma CloseIs(s: Room, order: MapOrder)
    requires OrderFits(s, order) && s.current.Some? && RoundFits(s.current.value, s.bank)
    ensures var index := s.current.value.index;
            var ended := Emit(s, RoundEnded(s.current.value.id, s.teams));
            CloseRoundAndProgress(s, order) ==
            if index + 1 == |s.bank| then (FinishGame(ended, order), Done)
            else StartRound(ended, index + 1, ActiveTeam(index + 1))
  {
  }

  lemma {:induction false} BestIsMaximal<K>(order: seq<K>, score: map<K, nat>)
    requires forall k <- order :: k in score
    ensures var (winner, best) := Best(order, score);
            && (winner.Some? <==> order != [])
            && (winner.Some? ==> winner.value in order && score[winner.value] == best)
            && (forall k <- order :: score[k] <= best)
  {
    if order != [] {
      BestIsMaximal(order[..|order| - 1], score);
    }
  }

  /** Among those of maximal score it is the last in the order. */
  lemma {:induction false} BestIsLast<K>(order: seq<K>, score: map<K, nat>)
    requires forall k <- order :: k in score
    ensures var (winner, best) := Best(order, score);
            winner.Some? ==> exists i | 0 <= i < |order| ::
              order[i] == winner.value && forall j | i < j < |order| :: score[order[j]] < score[winner.value]
  {
    if order != [] {
      var shorter, n := order[..|order| - 1], |order| - 1;
      BestIsLast(shorter, score);
      BestIsMaximal(shorter, score);
      var (winner, best) := Best(shorter, score);
      if score[order[n]] < best {
        var i :| 0 <= i < n && shorter[i] == winner.value
                 && forall j | i < j < n :: score[shorter[j]] < score[winner.value];
        assert order[i] == winner.value;
        assert forall j | i < j < n :: order[j] == shorter[j];
      } else {
        assert order[n] == Best(order, score).0.value;
      }
    }
  }

  lemma BestWins<K(!new)>(order: seq<K>, score: map<K, nat>)
    requires IsOrder(order, score.Keys)
    ensures Wins(Best(order, score).0, score)
  {
    BestIsMaximal(order, score);
    if order != [] {
      assert order[0] in score;
    }
  }

  lemma CloseLastKeeps(s: Room, order: MapOrder)
    requires Game(s) && s.lifecycle == InProgress && OrderFits(s, order)
    requires s.current.value.index + 1 == |s.bank|
    ensures Game(CloseRoundAndProgress(s, order).0)
  {
    hide LedgerOf, CreditsOf, GainsOf, TeamOf, PhaseOf, Departures, DepartedInRound, Best, Wins;
    EndKeeps(s);
    CloseIs(s, order);
    assert Scores(s.players).Keys == s.players.Keys;
    BestWins(order.players, Scores(s.players));
    BestWins(order.teams, s.teams);
    ConcludeKeeps(Emit(s, RoundEnded(s.current.value.id, s.teams)),
                  Best(order.players, Scores(s.players)).0, Best(order.teams, s.teams).0);
  }

  lemma CloseOtherKeeps(s: Room, order: MapOrder)
    requires Game(s) && s.lifecycle == InProgress && OrderFits(s, order)
    requires s.current.value.index + 1 != |s.bank|
    ensures Game(CloseRoundAndProgress(s, order).0)
    ensures Waited(CloseRoundAndProgress(s, order).0)
  {
    hide LedgerOf, CreditsOf, GainsOf, TeamOf, PhaseOf, Departures, DepartedInRound;
    EndKeeps(s);
    CloseIs(s, order);
    StartKeeps(Emit(s, RoundEnded(s.current.value.id, s.teams)), s.current.value.index + 1);
  }

  lemma CloseKeeps(s: Room, order: MapOrder)
    requires Game(s) && s.lifecycle == InProgress && OrderFits(s, order)
    ensures Game(CloseRoundAndProgress(s, order).0)
    ensures Waited(CloseRoundAndProgress(s, order).0)
  {
    if s.current.value.index + 1 == |s.bank| {
      CloseLastKeeps(s, order);
    } else {
      CloseOtherKeeps(s, order);
    }
  }

  // ----- players coming and going -----

  lemma MembersAfterJoin(players: map<Id, Player>, id: Id, player: Player)
    requires id !in players
    ensures forall t ::
              Members(players[id := player], t) == Members(players, t) + (if player.team == t then {id} else {})
  {
  }

  /** A join narrows the gap between the teams by one, or opens a gap of one. */
  lemma JoinBalances(players: map<Id, Player>, id: Id, player: Player)
    requires id !in players && player.team == PickTeam(players)
    ensures Imbalance(players[id := player]) == if Imbalance(players) == 0 then 1 else Imbalance(players) - 1
  {
    MembersAfterJoin(players, id, player);
  }

  lemma DepartureUnbalancesByOne(players: map<Id, Player>, id: Id)
    ensures Imbalance(players - {id}) <= Imbalance(players) + 1
  {
    forall t ensures Members(players - {id}, t) == Members(players, t) - {id} {}
  }

  lemma MembersAfterScoring(players: map<Id, Player>, id: Id, score: nat)
    requires id in players
    ensures forall t :: Members(players[id := players[id].(score := score)], t) == Members(players, t)
  {
  }

  lemma JoinKeeps(s: Room, userId: Id, displayName: string, freshId: Id)
    requires Inv(s) && freshId !in TeamOf(s.log)
    ensures Inv(JoinStep(s, userId, displayName, freshId).0)
  {
    if s.lifecycle == Lobby {
      var player := Player(userId, displayName, 0, PickTeam(s.players));
      JoinBalances(s.players, freshId, player);
      var e := PlayerJoined(freshId, displayName);
      LedgerQuiet(s.players, s.teams, s.log, e);
      LedgerJoins(s.players, s.teams, Snoc(s.log, e), freshId, player);
    }
  }

  lemma DepartKeeps(s: Room, player: Id)
    requires Inv(s) && player in s.players
    ensures Inv(Emit(s.(players := s.players - {player}), PlayerLeft(player)))
  {
    hide LedgerOf, CreditsOf, GainsOf, TeamOf;
    DepartureUnbalancesByOne(s.players, player);
    LedgerQuiet(s.players, s.teams, s.log, PlayerLeft(player));
    LedgerDeparts(s.players, s.teams, Snoc(s.log, PlayerLeft(player)), player);
    if InGame(s) {
      CreditsQuiet(s.log, s.current.value.index, s.current.value.locked, PlayerLeft(player));
    } else if s.lifecycle == Finished {
      GainsQuiet(s.log, |s.bank|, PlayerLeft(player));
    }
  }

  lemma LeaveKeeps(s: Room, player: Id)
    requires Inv(s)
    ensures Inv(LeaveStep(s, player).0)
  {
    hide LedgerOf, CreditsOf, GainsOf, TeamOf;
    if player in s.players {
      var left := Emit(s.(players := s.players - {player}), PlayerLeft(player));
      DepartKeeps(s, player);
      LedgerQuiet(left.players, left.teams, left.log, RoomClosed);
    }
  }

  // ----- starting, pausing and resuming -----

  /** The room between storing the new question bank and starting its first round. */
  function Begun(s: Room, questions: seq<Question>): Room {
    StoreBank(s.(pausedRemaining := None), questions)
  }

  lemma BegunKeeps(s: Room, questions: seq<Question>)
    requires Inv(s) && s.players != map[] && questions != []
    ensures var t := Begun(s, questions);
            Ledger(t) && Balanced(t) && GainsOf(t.log, 0) && PhaseOf(t.log) == Opening(t.bank)
  {
    hide LedgerOf, CreditsOf, GainsOf, TeamOf;
    LedgerQuiet(s.players, s.teams, s.log, GameStarted(questions));
    GainsBegin(s.log, questions);
  }

  /** Giving a room another runtime in which its round has a wake-up. */
  lemma RearmKeeps(s: Room, rt: Runtime)
    requires Game(s) && Waited(s) && FreshHandles(rt)
    requires s.lifecycle == InProgress ==> s.current.Some? && Awake(rt, s.current.value)
    ensures Inv(s.(runtime := rt))
  {
    hide LedgerOf, CreditsOf, GainsOf, TeamOf, Departures, DepartedInRound, PhaseOf;
  }

  lemma StartGameKeeps(s: Room, requestedBy: Id, questions: seq<Question>)
    requires Inv(s)
    ensures Inv(StartGameStep(s, requestedBy, questions).0)
  {
    hide Grammar, FairTime, Ledger, Credits, Balanced, Recorded, Waited, Awake, GainsOf, PhaseOf;
    if requestedBy == s.owner && s.players != map[] && questions != [] {
      BegunKeeps(s, questions);
      StartKeeps(Begun(s, questions), 0);
      var started := StartRound(Begun(s, questions), 0, TeamA).0;
      SpawnIsAwake(Cancel(s.runtime), started.current.value, s.clock + ROUND);
      RearmKeeps(started, Spawn(Cancel(s.runtime), started.current.value.id, s.clock + ROUND));
    }
  }

  lemma PauseKeeps(s: Room, requestedBy: Id)
    requires Inv(s)
    ensures Inv(PauseStep(s, requestedBy).0)
  {
    hide LedgerOf, CreditsOf, GainsOf, TeamOf, Departures, DepartedInRound, Members, Imbalance;
  }

  lemma ResumeKeeps(s: Room, requestedBy: Id)
    requires Inv(s)
    ensures Inv(ResumeStep(s, requestedBy).0)
  {
    hide LedgerOf, CreditsOf, GainsOf, TeamOf, Departures, DepartedInRound, Members, Imbalance;
    if requestedBy == s.owner && s.lifecycle == Paused {
      var round := s.current.value.(endsAt := s.clock + s.pausedRemaining.value);
      SpawnIsAwake(Cancel(s.runtime), round, round.endsAt);
    }
  }

  // ----- answering -----

  lemma Registered(s: Room, player: Id)
    requires Ledger(s) && player in s.players
    ensures player in TeamOf(s.log) && TeamOf(s.log)[player] == s.players[player].team
  {
  }

  lemma AnswerKeepsCredits(s: Room, player: Id, question: Id, delta: nat)
    requires Inv(s) && SubmitRefusal(s, player, question).None? && delta <= 100
    ensures var t := LockAndScore(s, player, question, delta);
            Ledger(t) && Credits(t) && Balanced(t)
  {
    hide LedgerOf, CreditsOf, GainsOf, TeamOf, PhaseOf;
    var round := s.current.value;
    var score := AddScore(s.players[player].score, delta);
    var locked := AnswerLocked(player, question);
    Registered(s, player);
    LedgerQuiet(s.players, s.teams, s.log, locked);
    LedgerScores(s.players, s.teams, Snoc(s.log, locked), player, score, delta);
    CreditsLock(s.log, round.index, round.locked, player, question, score, delta);
    MembersAfterScoring(s.players, player, score);
    assert Departures(Snoc(s.log, locked)) == Departures(s.log);
  }

  lemma AnswerKeepsRest(s: Room, player: Id, question: Id, delta: nat)
    requires Inv(s) && SubmitRefusal(s, player, question).None? && delta <= 100
    ensures var t := LockAndScore(s, player, question, delta);
            Structure(t) && Grammar(t) && FairTime(t) && Recorded(t)
  {
    hide LedgerOf, CreditsOf, GainsOf, TeamOf, Members, Imbalance;
    assert PhaseOf(Snoc(s.log, AnswerLocked(player, question))) == PhaseOf(s.log);
  }

  lemma AnswerKeepsWaited(s: Room, player: Id, question: Id, delta: nat)
    requires Inv(s) && SubmitRefusal(s, player, question).None?
    requires !AllAnswered(LockAndScore(s, player, question, delta))
    ensures Waited(LockAndScore(s, player, question, delta))
  {
    hide LedgerOf, CreditsOf, GainsOf, TeamOf, PhaseOf, Imbalance;
    MembersAfterScoring(s.players, player, AddScore(s.players[player].score, delta));
    assert DepartedInRound(Snoc(s.log, AnswerLocked(player, question))) == DepartedInRound(s.log);
  }

  // ----- closing a round and re-arming -----

  /** Closing a round touches neither runtime nor clock, and opens any next round with its full time. */
  lemma CloseShape(s: Room, order: MapOrder)
    requires OrderFits(s, order) && s.current.Some? && RoundFits(s.current.value, s.bank)
    ensures var t := CloseRoundAndProgress(s, order).0;
            && t.runtime == s.runtime && t.clock == s.clock && t.current.Some?
            && (s.current.value.index + 1 == |s.bank| ==> t.lifecycle == Finished && t.current == s.current)
            && (s.current.value.index + 1 != |s.bank| ==>
                  t.lifecycle == s.lifecycle && t.current.value.endsAt == s.clock + ROUND)
  {
    CloseIs(s, order);
  }

  lemma UnderAnotherTimer(s: Room, rt: Runtime)
    requires Game(s) && s.lifecycle == InProgress
    ensures Game(s.(runtime := rt, pausedRemaining := None))
  {
    hide LedgerOf, CreditsOf, GainsOf, TeamOf, Departures, DepartedInRound, PhaseOf, Members, Imbalance, Wins;
    assert s.(pausedRemaining := None) == s;
  }

  lemma CloseAndRearmKeeps(s: Room, order: MapOrder)
    requires Game(s) && s.lifecycle == InProgress && OrderFits(s, order) && FreshHandles(s.runtime)
    ensures Inv(SpawnForCurrent(CloseRoundAndProgress(s, order).0))
  {
    hide LedgerOf, CreditsOf, GainsOf, TeamOf, Departures, DepartedInRound, PhaseOf, CloseRoundAndProgress, Members,
         Imbalance, Wins;
    CloseKeeps(s, order);
    CloseShape(s, order);
    var t := CloseRoundAndProgress(s, order).0;
    var round := t.current.value;
    var wakeAt := t.clock + Remaining(round, t.clock);
    SpawnIsAwake(t.runtime, round, wakeAt);
    RearmKeeps(t, Spawn(t.runtime, round.id, wakeAt));
  }

  lemma SubmitKeeps(s: Room, player: Id, question: Id, answer: Answer, order: MapOrder)
    requires Inv(s) && OrderFits(s, order)
    ensures Inv(SubmitStep(s, player, question, answer, order).0)
  {
    hide Grammar, FairTime, Ledger, Credits, Balanced, Recorded, Waited, Awake, CloseRoundAndProgress, AllAnswered;
    if SubmitRefusal(s, player, question).None? {
      var delta := ScoreDelta(s, answer);
      var scored := LockAndScore(s, player, question, delta);
      AnswerKeepsCredits(s, player, question, delta);
      AnswerKeepsRest(s, player, question, delta);
      if AllAnswered(scored) {
        UnderAnotherTimer(scored, Cancel(s.runtime));
        CloseAndRearmKeeps(scored.(runtime := Cancel(s.runtime), pausedRemaining := None), order);
      } else {
        AnswerKeepsWaited(s, player, question, delta);
        StillAwake(s.runtime, s.runtime, s.current.value, scored.current.value);
      }
    }
  }

  lemma NextQuestionKeeps(s: Room, requestedBy: Id, order: MapOrder)
    requires Inv(s) && OrderFits(s, order)
    ensures Inv(NextQuestionStep(s, requestedBy, order).0)
  {
    hide Grammar, FairTime, Ledger, Credits, Balanced, Recorded, Waited, Awake, CloseRoundAndProgress;
    if requestedBy == s.owner && s.lifecycle == InProgress {
      var cancelled := s.(runtime := Cancel(s.runtime), pausedRemaining := None);
      UnderAnotherTimer(s, Cancel(s.runtime));
      NeverOutOfRange(cancelled, order);
      CloseAndRearmKeeps(cancelled, order);
    }
  }

  /** `start_round` cannot fail from within a game. */
  lemma NeverOutOfRange(s: Room, order: MapOrder)
    requires OrderFits(s, order) && s.current.Some? && RoundFits(s.current.value, s.bank)
    ensures CloseRoundAndProgress(s, order).1 == Done
  {
  }

  lemma TimeoutKeeps(s: Room, question: Id, order: MapOrder)
    requires Inv(s) && OrderFits(s, order) && question in s.runtime.mailbox
    ensures Inv(TimeoutStep(s, question, order))
  {
    hide Structure, Grammar, FairTime, Ledger, Credits, Balanced, Recorded, Waited, CloseRoundAndProgress, LiveSleeper;
    var rt := s.runtime.(mailbox := s.runtime.mailbox - multiset{question}, timeoutTask := None);
    if s.lifecycle == InProgress && s.current.value.id == question {
      var round := s.current.value;
      if Remaining(round, s.clock) != 0 {
        SpawnIsAwake(rt, round, round.endsAt);
        RearmKeeps(s, Spawn(rt, question, round.endsAt));
      } else {
        UnderAnotherTimer(s, rt);
        CloseAndRearmKeeps(s.(runtime := rt, pausedRemaining := None), order);
      }
    } else {
      if s.lifecycle == InProgress { StillAwake(s.runtime, rt, s.current.value, s.current.value); }
      RearmKeeps(s, rt);
    }
  }

  /** Consuming another question's message, or letting a task fire, leaves the round a wake-up. */
  lemma StillAwake(rt: Runtime, after: Runtime, round: Round, later: Round)
    requires Awake(rt, round)
    requires later.id == round.id && later.endsAt == round.endsAt
    requires rt.mailbox[round.id] <= after.mailbox[round.id]
    requires forall t <- rt.tasks ::
               (t in after.tasks && after.tasks[t] == rt.tasks[t]) || rt.tasks[t].question in after.mailbox
    ensures Awake(after, later)
  {
    if round.id !in after.mailbox {
      var t :| LiveSleeper(rt, round, t);
      assert LiveSleeper(after, later, t);
    }
  }

  lemma FireKeeps(s: Room, task: nat)
    requires Inv(s) && task in s.runtime.tasks
    ensures Inv(FireStep(s, task))
  {
    hide LedgerOf, CreditsOf, GainsOf, TeamOf, Departures, DepartedInRound, PhaseOf;
    if s.lifecycle == InProgress { StillAwake(s.runtime, FireStep(s, task).runtime, s.current.value, s.current.value); }
    RearmKeeps(s, FireStep(s, task).runtime);
  }

  lemma TickKeeps(s: Room, elapsed: nat)
    requires Inv(s)
    ensures Inv(TickStep(s, elapsed))
  {
    hide LedgerOf, CreditsOf, GainsOf, TeamOf, Departures, DepartedInRound, PhaseOf, Members, Imbalance;
  }

  /** The invariant holds in a new room, and every step keeps it. */
  lemma StepKeeps(s: Room, step: Step)
    requires Inv(s) && StepOk(s, step)
    ensures Inv(Apply(s, step))
  {
    hide Structure, Grammar, FairTime, Ledger, Credits, Balanced, Recorded, Waited, Timers, TeamOf;
    match step
    case Handle(Join(userId, displayName, freshId)) => JoinKeeps(s, userId, displayName, freshId);
    case Handle(Leave(player)) => LeaveKeeps(s, player);
    case Handle(KickPlayer(_, player)) => if player in s.players { DepartKeeps(s, player); }
    case Handle(StartGame(requestedBy, questions)) => StartGameKeeps(s, requestedBy, questions);
    case Handle(PauseGame(requestedBy)) => PauseKeeps(s, requestedBy);
    case Handle(ResumeGame(requestedBy)) => ResumeKeeps(s, requestedBy);
    case Handle(NextQuestion(requestedBy, order)) => NextQuestionKeeps(s, requestedBy, order);
    case Handle(SubmitAnswer(player, question, answer, order)) => SubmitKeeps(s, player, question, answer, order);
    case Handle(GetState) =>
    case Timeout(question, order) => TimeoutKeeps(s, question, order);
    case Fire(task) => FireKeeps(s, task);
    case Tick(elapsed) => TickKeeps(s, elapsed);
  }

  lemma CreatedHolds(owner: Id, clock: int)
    ensures Inv(Created(owner, clock))
  {
    var s := Created(owner, clock);
    assert LedgerOf(s.players, s.teams, Empty);
    LedgerQuiet(s.players, s.teams, Empty, RoomCreated);
    assert forall t :: Members(s.players, t) == {};
  }
}
