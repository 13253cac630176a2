/**
 What the actor's timers are: which one its handle names, what the shown timer says, and that no wake-up gets lost.
 */
module RoomTimers {
  import opened Prelude
  import opened RoomTypes
  import opened RoomSpec
  import opened RoomLog
  import opened RoomLedger
  import opened RoomInvariant
  import opened RoomRuns

  // ----- wake-ups come and go one by one -----

  /** Of the live tasks only the stored one may have been aborted, and the mailbox is as it was. */
  ghost predicate AbortsOnlyStored(before: Runtime, after: Runtime) {
    && (forall k <- before.tasks ::
          (k in after.tasks && after.tasks[k] == before.tasks[k]) || before.timeoutTask == Some(k))
    && after.mailbox == before.mailbox
  }

  lemma SpawnAfterCancel(rt: Runtime, question: Id, wakeAt: int)
    requires FreshHandles(rt)
    ensures AbortsOnlyStored(rt, Cancel(rt)) && AbortsOnlyStored(rt, Spawn(Cancel(rt), question, wakeAt))
  {
  }

  lemma CloseKeepsRuntime(s: Room, order: MapOrder)
    requires OrderFits(s, order)
    ensures CloseRoundAndProgress(s, order).0.runtime == s.runtime
  {
    hide Best, Scores;
  }

  lemma CloseAborts(s: Room, order: MapOrder)
    requires OrderFits(s, order) && FreshHandles(s.runtime)
    ensures var cancelled := s.(runtime := Cancel(s.runtime), pausedRemaining := None);
            AbortsOnlyStored(s.runtime, SpawnForCurrent(CloseRoundAndProgress(cancelled, order).0).runtime)
  {
    var cancelled := s.(runtime := Cancel(s.runtime), pausedRemaining := None);
    CloseKeepsRuntime(cancelled, order);
    hide CloseRoundAndProgress;
  }

  lemma SubmitAborts(s: Room, player: Id, question: Id, answer: Answer, order: MapOrder)
    requires OrderFits(s, order) && s.teams.Keys == {TeamA, TeamB} && FreshHandles(s.runtime)
    ensures AbortsOnlyStored(s.runtime, SubmitStep(s, player, question, answer, order).0.runtime)
  {
    hide CloseRoundAndProgress, ScoreDelta, AllAnswered, SpawnForCurrent, FreshHandles, Cancel;
    if SubmitRefusal(s, player, question).None? {
      CloseAborts(LockAndScore(s, player, question, ScoreDelta(s, answer)), order);
    }
  }

  lemma NextQuestionAborts(s: Room, requestedBy: Id, order: MapOrder)
    requires OrderFits(s, order) && FreshHandles(s.runtime)
    ensures AbortsOnlyStored(s.runtime, NextQuestionStep(s, requestedBy, order).0.runtime)
  {
    hide CloseRoundAndProgress, SpawnForCurrent, Cancel;
    CloseAborts(s, order);
    if s.lifecycle == InProgress && requestedBy == s.owner {
      var cancelled := s.(runtime := Cancel(s.runtime), pausedRemaining := None);
      CloseKeepsRuntime(cancelled, order);
      SpawnAfterCancel(s.runtime, "", 0);
    }
  }

  lemma CommandAborts(s: Room, command: Command)
    requires CanStep(s, Handle(command)) && FreshHandles(s.runtime)
    ensures AbortsOnlyStored(s.runtime, HandleStep(s, command).0.runtime)
  {
    hide CloseRoundAndProgress, SubmitStep, NextQuestionStep, PickTeam, FreshHandles, AbortsOnlyStored, Spawn, Cancel;
    var rt := s.runtime;
    match command
    case SubmitAnswer(player, question, answer, order) => SubmitAborts(s, player, question, answer, order);
    case NextQuestion(requestedBy, order) => NextQuestionAborts(s, requestedBy, order);
    case StartGame(_, questions) =>
      Untouched(rt);
      if questions != [] { SpawnAfterCancel(rt, questions[0].id, s.clock + ROUND); }
    case ResumeGame(_) =>
      Untouched(rt);
      if s.current.Some? {
        var left := if s.pausedRemaining.Some? then s.pausedRemaining.value else Remaining(s.current.value, s.clock);
        SpawnAfterCancel(rt, s.current.value.id, s.clock + left);
      }
    case PauseGame(_) => Untouched(rt); SpawnAfterCancel(rt, "", 0);
    case _ => Untouched(rt);
  }

  lemma Untouched(rt: Runtime)
    ensures AbortsOnlyStored(rt, rt)
  {
  }

  lemma TimeoutDetaches(s: Room, question: Id, order: MapOrder)
    requires OrderFits(s, order) && FreshHandles(s.runtime)
    ensures var before, after := s.runtime, TimeoutStep(s, question, order).runtime;
            && (forall k <- before.tasks :: k in after.tasks && after.tasks[k] == before.tasks[k])
            && after.mailbox == before.mailbox - multiset{question}
  {
    var rt := s.runtime.(mailbox := s.runtime.mailbox - multiset{question}, timeoutTask := None);
    CloseKeepsRuntime(s.(runtime := rt, pausedRemaining := None), order);
    hide CloseRoundAndProgress;
  }

  /**
   No command loses a wake-up but the stored timer, which it may abort; a timer that fires becomes a message, and a
   message leaves the mailbox by being handled, which aborts no timer.
   */
  lemma WakeUpsAreNotLost(s: Room, step: Step)
    requires Reachable(s) && CanStep(s, step)
    ensures var before, after := s.runtime, Apply(s, step).runtime;
            match step
            case Handle(_) => AbortsOnlyStored(before, after)
            case Tick(_) => after == before
            case Fire(k) =>
              after.tasks == before.tasks - {k} && after.mailbox == before.mailbox + multiset{before.tasks[k].question}
            case Timeout(question, _) =>
              && (forall k <- before.tasks :: k in after.tasks && after.tasks[k] == before.tasks[k])
              && after.mailbox == before.mailbox - multiset{question}
  {
    ReachableHolds(s);
    assert FreshHandles(s.runtime);
    hide Inv, HandleStep, TimeoutStep, AbortsOnlyStored;
    match step
    case Handle(command) => CommandAborts(s, command);
    case Timeout(question, order) => TimeoutDetaches(s, question, order);
    case _ =>
  }

  // ----- the stored timer and the shown timer -----

  /** The stored handle is of the current round; in progress its task, if live, wakes when the round ends. */
  ghost predicate HandleOk(s: Room) {
    s.runtime.timeoutTask.Some? ==>
      var k := s.runtime.timeoutTask.value;
      && s.lifecycle != Paused && s.current.Some?
      && (k in s.runtime.tasks ==> s.runtime.tasks[k].question == s.current.value.id)
      && (k in s.runtime.tasks && s.lifecycle == InProgress ==> s.runtime.tasks[k].wakeAt == s.current.value.endsAt)
  }

  /** The shown timer runs out within the last second of the round; paused, it shows the whole seconds left. */
  ghost predicate Shows(s: Room) {
    && (s.lifecycle == InProgress ==>
          s.timer.Some? && s.current.Some? &&
          0 <= s.current.value.endsAt - (s.timer.value.startedAt + s.timer.value.durationSecs * SECOND) < SECOND)
    && (s.lifecycle == Paused ==>
          s.timer.Some? && s.pausedRemaining.Some? && s.timer.value.durationSecs == s.pausedRemaining.value / SECOND)
  }

  lemma CloseTimed(s: Room, order: MapOrder)
    requires OrderFits(s, order) && s.lifecycle == InProgress && s.current.Some? && RoundFits(s.current.value, s.bank)
    ensures var t := SpawnForCurrent(CloseRoundAndProgress(s, order).0);
            HandleOk(t) && Shows(t)
  {
    CloseIs(s, order);
    hide Best, CloseRoundAndProgress, Scores;
  }

  ghost predicate Timed(s: Room) {
    HandleOk(s) && Shows(s)
  }

  lemma StartTimed(s: Room, requestedBy: Id, questions: seq<Question>)
    requires Timed(s)
    ensures Timed(StartGameStep(s, requestedBy, questions).0)
  {
    hide Cancel;
  }

  lemma PauseTimed(s: Room, requestedBy: Id)
    requires Structure(s) && FairTime(s) && Timed(s)
    ensures Timed(PauseStep(s, requestedBy).0)
  {
    if s.lifecycle == InProgress {
      assert Remaining(s.current.value, s.clock) <= ROUND;
    }
  }

  lemma ResumeTimed(s: Room, requestedBy: Id)
    requires Structure(s) && FairTime(s) && Timed(s)
    ensures Timed(ResumeStep(s, requestedBy).0)
  {
    if s.lifecycle == Paused {
      assert s.pausedRemaining.value <= ROUND;
    }
    hide Cancel;
  }

  lemma NextQuestionTimed(s: Room, requestedBy: Id, order: MapOrder)
    requires Structure(s) && Timed(s) && OrderFits(s, order)
    ensures Timed(NextQuestionStep(s, requestedBy, order).0)
  {
    hide CloseRoundAndProgress, HandleOk, Shows, SpawnForCurrent;
    if s.lifecycle == InProgress {
      var cancelled := s.(runtime := Cancel(s.runtime), pausedRemaining := None);
      CloseTimed(cancelled, order);
      NeverOutOfRange(cancelled, order);
    }
  }

  lemma SubmitTimed(s: Room, player: Id, question: Id, answer: Answer, order: MapOrder)
    requires Structure(s) && Timed(s) && OrderFits(s, order)
    ensures Timed(SubmitStep(s, player, question, answer, order).0)
  {
    hide CloseRoundAndProgress, SpawnForCurrent, ScoreDelta, AllAnswered, AddScore;
    if SubmitRefusal(s, player, question).None? {
      var scored := LockAndScore(s, player, question, ScoreDelta(s, answer));
      CloseTimed(scored.(runtime := Cancel(s.runtime), pausedRemaining := None), order);
    }
  }

  lemma TimeoutTimed(s: Room, question: Id, order: MapOrder)
    requires Structure(s) && Timed(s) && OrderFits(s, order)
    ensures Timed(TimeoutStep(s, question, order))
  {
    hide CloseRoundAndProgress;
    if s.lifecycle == InProgress {
      var rt := s.runtime.(mailbox := s.runtime.mailbox - multiset{question}, timeoutTask := None);
      CloseTimed(s.(runtime := rt, pausedRemaining := None), order);
    }
  }

  lemma StepTimed(s: Room, step: Step)
    requires Inv(s) && CanStep(s, step) && Timed(s)
    ensures Timed(Apply(s, step))
  {
    hide Grammar, Ledger, Credits, Balanced, Recorded, Waited, Timers, TeamOf, JoinStep, LeaveStep, KickStep,
         StartGameStep, PauseStep, ResumeStep, NextQuestionStep, SubmitStep, TimeoutStep, Timed;
    match step
    case Handle(StartGame(user, questions)) => StartTimed(s, user, questions);
    case Handle(PauseGame(user)) => PauseTimed(s, user);
    case Handle(ResumeGame(user)) => ResumeTimed(s, user);
    case Handle(NextQuestion(user, order)) => NextQuestionTimed(s, user, order);
    case Handle(SubmitAnswer(player, question, answer, order)) => SubmitTimed(s, player, question, answer, order);
    case Timeout(question, order) => TimeoutTimed(s, question, order);
    case _ => QuietTimed(s, step);
  }

  /** People come and go, a timer fires or time passes. */
  lemma QuietTimed(s: Room, step: Step)
    requires CanStep(s, step) && Timed(s) && (step.Fire? || step.Tick? || step.Handle?)
    requires step.Handle? ==>
               step.command.Join? || step.command.Leave? || step.command.KickPlayer? || step.command.GetState?
    ensures Timed(Apply(s, step))
  {
    hide TeamOf, PickTeam;
  }

  lemma {:induction false} RunTimed(s: Room, steps: seq<Step>, t: Room)
    requires Inv(s) && Timed(s) && Reaches(s, steps, t)
    ensures Timed(t)
    decreases steps
  {
    hide Inv, Timed, Apply;
    if steps != [] {
      StepTimed(s, steps[0]);
      StepKeeps(s, steps[0]);
      RunTimed(Apply(s, steps[0]), steps[1..], t);
    }
  }

  /**
   In every reachable room the stored timer, if live, is the current round's and wakes exactly at its end; a paused room
   stores none. The shown timer runs out within the round's last second, and shows the whole seconds left in a pause.
   */
  lemma TimersFitTheRound(t: Room)
    requires Reachable(t)
    ensures HandleOk(t) && Shows(t)
  {
    hide Inv, Apply, Created;
    var owner, clock, steps :| Reaches(Created(owner, clock), steps, t);
    CreatedHolds(owner, clock);
    CreatedTimed(owner, clock);
    RunTimed(Created(owner, clock), steps, t);
  }

  lemma CreatedTimed(owner: Id, clock: int)
    ensures Timed(Created(owner, clock))
  {
  }
}
