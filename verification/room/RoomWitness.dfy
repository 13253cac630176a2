/**
 A run in which a round ends although a present player of the active team has not answered: the locked set still
 counts a player who answered and left. `RoomRuns.RoundEndsWhen` says exactly when that happens.
 */
module RoomWitness {
  import opened Prelude
  import opened RoomTypes
  import opened RoomSpec
  import opened RoomLog
  import opened RoomLedger
  import opened RoomInvariant
  import opened RoomRuns

  lemma {:induction false} RunExtends(s: Room, steps: seq<Step>, t: Room, step: Step)
    requires Reaches(s, steps, t) && CanStep(t, step)
    ensures Reaches(s, steps + [step], Apply(t, step))
    decreases steps
  {
    hide JoinStep, LeaveStep, KickStep, StartGameStep, PauseStep, ResumeStep, NextQuestionStep, SubmitStep, TimeoutStep;
    if steps == [] {
      assert [step][1..] == [];
    } else {
      RunExtends(Apply(s, steps[0]), steps[1..], t, step);
      assert (steps + [step])[1..] == steps[1..] + [step];
    }
  }

  lemma ReachableExtends(s: Room, step: Step)
    requires Reachable(s) && CanStep(s, step)
    ensures Reachable(Apply(s, step))
  {
    hide Apply, CanStep, Created;
    var owner, clock, steps :| Reaches(Created(owner, clock), steps, s);
    RunExtends(Created(owner, clock), steps, s, step);
  }

  /** A lobby with team A's members, team B's size, and everyone who ever joined. */
  ghost predicate LobbyOf(s: Room, a: set<Id>, b: nat, ids: set<Id>) {
    && s.lifecycle == Lobby && TeamOf(s.log).Keys == ids
    && Members(s.players, TeamA) == a && |Members(s.players, TeamB)| == b
  }

  lemma JoinIsLogged(s: Room, id: Id)
    requires s.lifecycle == Lobby
    ensures TeamOf(JoinStep(s, "user", "name", id).0.log).Keys == TeamOf(s.log).Keys + {id}
  {
    hide PickTeam, Members;
    var log := JoinStep(s, "user", "name", id).0.log;
    assert TeamOf(log.past) == TeamOf(s.log);
    assert TeamOf(log) == TeamOf(s.log)[id := log.last.team];
  }

  lemma JoinAdds(s: Room, id: Id)
    requires s.lifecycle == Lobby && id !in s.players
    ensures var t := JoinStep(s, "user", "name", id).0;
            && t.lifecycle == Lobby
            && (forall team :: Members(t.players, team) ==
                  Members(s.players, team) + (if PickTeam(s.players) == team then {id} else {}))
  {
    hide PickTeam;
    MembersAfterJoin(s.players, id, Player("user", "name", 0, PickTeam(s.players)));
    hide Members;
  }

  lemma Joins(s: Room, id: Id) returns (t: Room)
    requires Reachable(s) && s.lifecycle == Lobby && id !in TeamOf(s.log)
    ensures Reachable(t) && id !in s.players && t == JoinStep(s, "user", "name", id).0
  {
    ReachableHolds(s);
    TeamsKept(s);
    if id in s.players { Registered(s, id); }
    hide Inv, Reachable, JoinStep, TeamOf, PickTeam;
    ReachableExtends(s, Handle(Join("user", "name", id)));
    t := JoinStep(s, "user", "name", id).0;
  }

  lemma JoinsTeamA(s: Room, a: set<Id>, b: nat, ids: set<Id>, id: Id) returns (t: Room)
    requires Reachable(s) && LobbyOf(s, a, b, ids) && id !in ids && |a| <= b
    ensures Reachable(t) && LobbyOf(t, a + {id}, b, ids + {id})
  {
    hide Reachable, JoinStep, TeamOf, Members;
    t := Joins(s, id);
    JoinIsLogged(s, id);
    JoinAdds(s, id);
  }

  lemma JoinsTeamB(s: Room, a: set<Id>, b: nat, ids: set<Id>, id: Id) returns (t: Room)
    requires Reachable(s) && LobbyOf(s, a, b, ids) && id !in ids && |a| > b
    ensures Reachable(t) && LobbyOf(t, a, b + 1, ids + {id})
  {
    hide Reachable, JoinStep, TeamOf;
    t := Joins(s, id);
    assert |Members(s.players, TeamB) + {id}| == b + 1;
    JoinIsLogged(s, id);
    JoinAdds(s, id);
  }

  /** Five players: the first, third and fifth to join are team A. */
  lemma FivePlayers(a1: Id, b1: Id, a2: Id, b2: Id, a3: Id) returns (t: Room)
    requires |{a1, b1, a2, b2, a3}| == 5
    ensures Reachable(t) && t.lifecycle == Lobby && Members(t.players, TeamA) == {a1} + {a2} + {a3}
  {
    Distinct(a1, b1, a2, b2, a3);
    hide Reachable, TeamOf, Members;
    t := FourPlayers(a1, b1, a2, b2);
    t := JoinsTeamA(t, {} + {a1} + {a2}, 2, {} + {a1} + {b1} + {a2} + {b2}, a3);
    assert {} + {a1} == {a1};
  }

  lemma FourPlayers(a1: Id, b1: Id, a2: Id, b2: Id) returns (t: Room)
    requires a1 !in {b1, a2, b2} && b1 !in {a2, b2} && a2 != b2
    ensures |{} + {a1} + {a2}| == 2
    ensures Reachable(t) && LobbyOf(t, {} + {a1} + {a2}, 2, {} + {a1} + {b1} + {a2} + {b2})
  {
    hide Reachable, LobbyOf;
    t := EmptyLobby();
    t := TwoMore(t, {}, 0, {}, a1, b1);
    t := TwoMore(t, {} + {a1}, 1, {} + {a1} + {b1}, a2, b2);
  }

  lemma TwoMore(s: Room, a: set<Id>, b: nat, ids: set<Id>, first: Id, second: Id) returns (t: Room)
    requires Reachable(s) && LobbyOf(s, a, b, ids) && |a| == b
    requires first !in ids && second !in ids && first != second && first !in a
    ensures Reachable(t) && LobbyOf(t, a + {first}, b + 1, ids + {first} + {second})
    ensures |a + {first}| == b + 1
  {
    hide Reachable, LobbyOf;
    t := JoinsTeamA(s, a, b, ids, first);
    t := JoinsTeamB(t, a + {first}, b, ids + {first}, second);
  }

  lemma Distinct(a1: Id, b1: Id, a2: Id, b2: Id, a3: Id)
    requires |{a1, b1, a2, b2, a3}| == 5
    ensures a1 !in {b1, a2, b2, a3} && b1 !in {a2, b2, a3} && a2 !in {b2, a3} && b2 != a3
  {
  }

  lemma EmptyLobby() returns (t: Room)
    ensures Reachable(t) && LobbyOf(t, {}, 0, {})
  {
    t := Created("owner", 0);
    assert Reaches(t, [], t);
    assert TeamOf(t.log) == map[];
  }

  /** Player `a1` answers and leaves; player `a2` answers; the round ends, player `a3` not having answered. */
  lemma EarlyEnd(a1: Id, b1: Id, a2: Id, b2: Id, a3: Id) returns (s: Room, order: MapOrder)
    requires |{a1, b1, a2, b2, a3}| == 5
    ensures Reachable(s) && Accepts(s, a2, "q", order)
    ensures EndsRound(s, a2, "q", Answer(None, false), order)
    ensures a3 in s.players && a3 in Unanswered(s, a2)
  {
    hide FirstRound, Reachable, Accepts;
    Distinct(a1, b1, a2, b2, a3);
    var lobby := FivePlayers(a1, b1, a2, b2, a3);
    var game := GameBegins(lobby, {a1} + {a2} + {a3});
    s := OneAnswersAndLeaves(game, a1, a2, a3);
    order := SomeMapOrder(s);
    SecondAnswerEnds(s, a1, a2, a3, order);
  }

  lemma SecondAnswerEnds(s: Room, gone: Id, player: Id, other: Id, order: MapOrder)
    requires FirstRound(s, {player, other}, {gone}) && OrderFits(s, order)
    requires gone != player && gone != other && player != other
    ensures Reachable(s) && Accepts(s, player, "q", order) && EndsRound(s, player, "q", Answer(None, false), order)
    ensures other in s.players && other in Unanswered(s, player)
  {
    hide Inv, EndsRound, SubmitStep, Reachable;
    ReachableHolds(s);
    TeamsKept(s);
    assert player in Members(s.players, TeamA) && other in Members(s.players, TeamA);
    RoundEndsWhen(s, player, "q", Answer(None, false), order);
    assert Unanswered(s, player) == {other};
    assert Gone(s) == {gone};
  }

  /** A reachable room in its first round, with its members of team A and those of them who have answered. */
  ghost predicate FirstRound(s: Room, members: set<Id>, locked: set<Id>) {
    && Reachable(s) && s.lifecycle == InProgress && s.current.Some? && s.current.value.id == "q"
    && s.current.value.activeTeam == TeamA && s.clock <= s.current.value.endsAt
    && Members(s.players, TeamA) == members && s.current.value.locked == locked
  }

  lemma GameBegins(lobby: Room, a: set<Id>) returns (game: Room)
    requires Reachable(lobby) && lobby.lifecycle == Lobby && Members(lobby.players, TeamA) == a && a != {}
    ensures FirstRound(game, a, {})
  {
    hide Structure, Grammar, FairTime, Credits, Balanced, Recorded, Waited, Timers, Ledger, Reachable;
    ReachableHolds(lobby);
    TeamsKept(lobby);
    var p :| p in a;
    assert p in lobby.players;
    var questions := [Question("q", "text", [], None)];
    ReachableExtends(lobby, Handle(StartGame(lobby.owner, questions)));
    game := StartGameStep(lobby, lobby.owner, questions).0;
    assert game == Apply(lobby, Handle(StartGame(lobby.owner, questions)));
  }

  lemma OneAnswersAndLeaves(game: Room, a1: Id, a2: Id, a3: Id) returns (left: Room)
    requires a1 != a2 && a1 != a3 && a2 != a3
    requires FirstRound(game, {a1} + {a2} + {a3}, {})
    ensures FirstRound(left, {a2, a3}, {a1})
  {
    hide FirstRound;
    var members := {a1} + {a2} + {a3};
    var answered := OneAnswers(game, members, a1, a2);
    left := OneLeaves(answered, members, {a1}, a1);
    assert members - {a1} == {a2, a3};
  }

  lemma OneAnswers(game: Room, members: set<Id>, player: Id, other: Id) returns (answered: Room)
    requires FirstRound(game, members, {}) && player in members && other in members && player != other
    ensures FirstRound(answered, members, {player})
  {
    hide Structure, Grammar, FairTime, Credits, Balanced, Recorded, Waited, Timers, Ledger, Reachable;
    var order := SomeMapOrder(game);
    ReachableHolds(game);
    TeamsKept(game);
    assert player in Members(game.players, TeamA);
    var wrong := Answer(None, false);
    var submit := Handle(SubmitAnswer(player, "q", wrong, order));
    ReachableExtends(game, submit);
    answered := LockAndScore(game, player, "q", ScoreDelta(game, wrong));
    MembersAfterScoring(game.players, player, AddScore(game.players[player].score, ScoreDelta(game, wrong)));
    AtLeastTwo(members, player, other);
    assert answered == Apply(game, submit);
  }

  lemma AtLeastTwo(members: set<Id>, player: Id, other: Id)
    requires player in members && other in members && player != other
    ensures |{player}| < |members|
  {
    SubsetIsSmaller({player, other}, members);
  }

  lemma OneLeaves(s: Room, members: set<Id>, locked: set<Id>, player: Id) returns (left: Room)
    requires FirstRound(s, members, locked) && player in members
    ensures FirstRound(left, members - {player}, locked)
  {
    hide Inv, Reachable;
    ReachableHolds(s);
    TeamsKept(s);
    assert player in Members(s.players, TeamA);
    ReachableExtends(s, Handle(Leave(player)));
    left := LeaveStep(s, player).0;
    assert left == Apply(s, Handle(Leave(player)));
    assert Members(left.players, TeamA) == Members(s.players, TeamA) - {player};
  }

  lemma SomeMapOrder(s: Room) returns (order: MapOrder)
    ensures OrderFits(s, order)
  {
    var players := SomeOrder(s.players.Keys);
    var teams := SomeOrder(s.teams.Keys);
    order := MapOrder(players, teams);
  }

  lemma TeamsKept(s: Room)
    requires Inv(s)
    ensures s.teams.Keys == {TeamA, TeamB}
  {
  }
}
