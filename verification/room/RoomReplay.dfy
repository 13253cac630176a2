/**
 A room can be rebuilt from its event log: what clients are told is what the actor holds. Nothing here looks at the
 question bank that the log's `GameStarted` carries.
 */
module RoomReplay {
  import opened Prelude
  import opened RoomTypes
  import opened RoomSpec
  import opened RoomLog
  import opened RoomLedger
  import opened RoomInvariant
  import opened RoomRuns

  /** Who is in the room under which name and in which team, all scores, where the game stands, and who has answered. */
  datatype Picture = Picture(names: map<Id, string>, teams: map<Id, TeamId>, scores: map<Id, nat>,
                             teamScores: map<TeamId, nat>, stage: Stage, answered: set<Id>)

  /** Where a game stands, as far as events tell; questions are counted from the game's start. */
  datatype Stage =
    | Unopened | Gathering | Disbanded | Starting | Concluded
    | Asked(index: nat, question: Id, text: string, options: seq<string>)
    | Resolved(index: nat)

  // ----- read from the log alone -----

  function Present(log: Log): map<Id, string> {
    match log
    case Empty => map[]
    case Snoc(past, PlayerJoined(player, name)) => Present(past)[player := name]
    case Snoc(past, PlayerLeft(player)) => Present(past) - {player}
    case Snoc(past, _) => Present(past)
  }

  /** Who has answered since the last question was asked. */
  function Answered(log: Log): set<Id> {
    match log
    case Empty => {}
    case Snoc(past, QuestionStarted(_, _, _, _)) => {}
    case Snoc(past, AnswerLocked(player, _)) => Answered(past) + {player}
    case Snoc(past, _) => Answered(past)
  }

  function StageOf(log: Log): Stage {
    match log
    case Empty => Unopened
    case Snoc(past, RoomCreated) => Gathering
    case Snoc(past, RoomClosed) => Disbanded
    case Snoc(past, GameStarted(_)) => Starting
    case Snoc(past, QuestionStarted(question, text, options, _)) =>
      Asked(if StageOf(past).Resolved? then StageOf(past).index + 1 else 0, question, text, options)
    case Snoc(past, RoundEnded(_, _)) => Resolved(if StageOf(past).Asked? then StageOf(past).index else 0)
    case Snoc(past, GameEnded(_, _)) => Concluded
    case Snoc(past, _) => StageOf(past)
  }

  function Rebuilt(log: Log): Picture {
    Picture(Present(log),
            map p | p in Present(log) && p in TeamOf(log) :: TeamOf(log)[p],
            map p | p in Present(log) :: Capped(Total(log, p)),
            map[TeamA := Capped(TeamTotal(log, TeamA)), TeamB := Capped(TeamTotal(log, TeamB))],
            StageOf(log),
            if StageOf(log).Asked? then Answered(log) else {})
  }

  // ----- read from the room alone -----

  function Names(players: map<Id, Player>): map<Id, string> {
    map p | p in players :: players[p].displayName
  }

  function StageOfRoom(s: Room): Stage {
    match s.lifecycle
    case Lobby => Gathering
    case Closed => Disbanded
    case Finished => Concluded
    case _ =>
      if s.current.None? then Starting
      else Asked(s.current.value.index, s.current.value.id, s.current.value.text, s.current.value.options)
  }

  function Seen(s: Room): Picture {
    Picture(Names(s.players),
            map p | p in s.players :: s.players[p].team,
            Scores(s.players),
            s.teams,
            StageOfRoom(s),
            if InGame(s) && s.current.Some? then s.current.value.locked else {})
  }

  // ----- they agree -----

  ghost predicate Listed(s: Room) {
    Names(s.players) == Present(s.log)
  }

  /** The step leaves who is in the room, and who is told to be. */
  ghost predicate SamePeople(s: Room, t: Room) {
    Names(t.players) == Names(s.players) && Present(t.log) == Present(s.log)
  }

  lemma ClosingKeepsPeople(s: Room, order: MapOrder)
    requires OrderFits(s, order)
    ensures SamePeople(s, SpawnForCurrent(CloseRoundAndProgress(s, order).0))
  {
    hide Best, Names;
    if s.current.Some? {
      var ended := Emit(s, RoundEnded(s.current.value.id, s.teams));
      assert Present(ended.log) == Present(s.log);
    }
  }

  lemma ScoringKeepsPeople(s: Room, player: Id, question: Id, delta: nat)
    requires s.current.Some? && player in s.players && s.players[player].team in s.teams
    ensures SamePeople(s, LockAndScore(s, player, question, delta))
  {
    assert Present(Snoc(s.log, AnswerLocked(player, question))) == Present(s.log);
  }

  lemma SubmitKeepsPeople(s: Room, player: Id, question: Id, answer: Answer, order: MapOrder)
    requires OrderFits(s, order) && s.teams.Keys == {TeamA, TeamB}
    ensures SamePeople(s, SubmitStep(s, player, question, answer, order).0)
  {
    hide CloseRoundAndProgress, ScoreDelta, AllAnswered, Present, Names, SpawnForCurrent;
    if SubmitRefusal(s, player, question).None? {
      var delta := ScoreDelta(s, answer);
      ScoringKeepsPeople(s, player, question, delta);
      var scored := LockAndScore(s, player, question, delta);
      hide LockAndScore;
      ClosingKeepsPeople(scored.(runtime := Cancel(s.runtime), pausedRemaining := None), order);
    }
  }

  lemma NextQuestionKeepsPeople(s: Room, requestedBy: Id, order: MapOrder)
    requires OrderFits(s, order)
    ensures SamePeople(s, NextQuestionStep(s, requestedBy, order).0)
  {
    hide CloseRoundAndProgress, Present, Names;
    ClosingKeepsPeople(s.(runtime := Cancel(s.runtime), pausedRemaining := None), order);
  }

  lemma TimeoutKeepsPeople(s: Room, question: Id, order: MapOrder)
    requires OrderFits(s, order)
    ensures SamePeople(s, TimeoutStep(s, question, order))
  {
    hide CloseRoundAndProgress, Present, Names;
    var rt := s.runtime.(mailbox := s.runtime.mailbox - multiset{question}, timeoutTask := None);
    ClosingKeepsPeople(s.(runtime := rt, pausedRemaining := None), order);
  }

  lemma StartKeepsPeople(s: Room, requestedBy: Id, questions: seq<Question>)
    ensures SamePeople(s, StartGameStep(s, requestedBy, questions).0)
  {
    hide Names;
    assert Present(StoreBank(s, questions).log) == Present(s.log);
  }

  lemma JoinLists(s: Room, userId: Id, name: string, id: Id)
    requires Listed(s)
    ensures Listed(JoinStep(s, userId, name, id).0)
  {
    hide PickTeam;
    var t := JoinStep(s, userId, name, id).0;
    assert Present(Snoc(s.log, PlayerJoined(id, name))) == Present(s.log)[id := name];
    assert Names(t.players) == Present(t.log);
  }

  lemma DepartLists(s: Room, id: Id)
    requires Listed(s)
    ensures Names(s.players - {id}) == Present(Snoc(s.log, PlayerLeft(id)))
  {
  }

  lemma LeaveLists(s: Room, id: Id)
    requires Listed(s)
    ensures Listed(LeaveStep(s, id).0)
  {
    DepartLists(s, id);
    hide Names;
  }

  lemma KickLists(s: Room, requestedBy: Id, id: Id)
    requires Listed(s)
    ensures Listed(KickStep(s, requestedBy, id).0)
  {
    DepartLists(s, id);
    hide Names;
  }

  lemma StepLists(s: Room, step: Step)
    requires CanStep(s, step) && Listed(s)
    ensures Listed(Apply(s, step))
  {
    hide NextQuestionStep, SubmitStep, TimeoutStep, StartGameStep, TeamOf, JoinStep, LeaveStep, KickStep, Present,
         Names;
    match step
    case Handle(NextQuestion(requestedBy, order)) => NextQuestionKeepsPeople(s, requestedBy, order);
    case Handle(SubmitAnswer(player, question, answer, order)) => SubmitKeepsPeople(s, player, question, answer, order);
    case Handle(StartGame(requestedBy, questions)) => StartKeepsPeople(s, requestedBy, questions);
    case Handle(Join(userId, name, id)) => JoinLists(s, userId, name, id);
    case Handle(Leave(id)) => LeaveLists(s, id);
    case Handle(KickPlayer(requestedBy, id)) => KickLists(s, requestedBy, id);
    case Timeout(question, order) => TimeoutKeepsPeople(s, question, order);
    case _ =>
  }

  lemma {:induction false} RunLists(s: Room, steps: seq<Step>, t: Room)
    requires Listed(s) && Reaches(s, steps, t)
    ensures Listed(t)
    decreases steps
  {
    hide Listed, Apply;
    if steps != [] {
      StepLists(s, steps[0]);
      RunLists(Apply(s, steps[0]), steps[1..], t);
    }
  }

  lemma {:induction false} AnsweredAreLocked(log: Log, player: Id)
    ensures player in Answered(log) <==> RoundLocks(log, player) > 0
  {
    if log.Snoc? {
      AnsweredAreLocked(log.past, player);
    }
  }

  lemma CreatedLists(owner: Id, clock: int)
    ensures Listed(Created(owner, clock))
  {
  }

  lemma ReachableLists(t: Room)
    requires Reachable(t)
    ensures Listed(t)
  {
    hide Listed, Created;
    var owner, clock, steps :| Reaches(Created(owner, clock), steps, t);
    CreatedLists(owner, clock);
    RunLists(Created(owner, clock), steps, t);
  }

  lemma ScoresAreTold(t: Room)
    requires Ledger(t) && Listed(t)
    ensures Rebuilt(t.log).names == Seen(t).names && Rebuilt(t.log).teams == Seen(t).teams
    ensures Rebuilt(t.log).scores == Seen(t).scores && Rebuilt(t.log).teamScores == Seen(t).teamScores
  {
    hide Total, TeamTotal, Orderly, Answered, StageOf, Present, StageOfRoom, InGame;
    assert Names(t.players).Keys == t.players.Keys;
  }

  /** In an unbroken log the stage counts and names the questions as the bank has them. */
  lemma {:induction false} StageFollowsPhase(log: Log)
    requires PhaseOf(log) != Broken
    ensures match PhaseOf(log)
            case Unborn => StageOf(log) == Unopened
            case Waiting => StageOf(log) == Gathering
            case Shut => StageOf(log) == Disbanded
            case Opening(_) => StageOf(log) == Starting
            case Asking(bank, i) => i < |bank| && StageOf(log) == Asked(i, bank[i].id, bank[i].text, bank[i].options)
            case Between(_, i) => StageOf(log) == Resolved(i)
            case Over(_) => StageOf(log) == Concluded
  {
    if log.Snoc? {
      StageFollowsPhase(log.past);
      assert PhaseOf(log) == Advance(PhaseOf(log.past), log.last);
    }
  }

  lemma GameIsTold(t: Room)
    requires Structure(t) && Grammar(t) && Credits(t)
    ensures Rebuilt(t.log).stage == Seen(t).stage && Rebuilt(t.log).answered == Seen(t).answered
  {
    StageFollowsPhase(t.log);
    hide Total, TeamTotal, Answered, RoundLocks, PhaseOf, StageOf, Present, TeamOf, GainsOf, GameGain, RoundsOf, Names,
         Scores, Capped;
    forall p ensures p in Answered(t.log) <==> RoundLocks(t.log, p) > 0 { AnsweredAreLocked(t.log, p); }
  }

  /** In every reachable room, what the log tells is what the room holds. */
  lemma LogTellsTheRoom(t: Room)
    requires Reachable(t)
    ensures Rebuilt(t.log) == Seen(t)
  {
    hide FairTime, Balanced, Recorded, Waited, Timers, Structure, Grammar, Ledger, Credits, Rebuilt, Seen, Listed;
    ReachableHolds(t);
    ReachableLists(t);
    ScoresAreTold(t);
    GameIsTold(t);
  }
}
