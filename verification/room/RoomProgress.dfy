/** Left to its timers, a game ends: however messages and timers are out of step with the round being asked. */
module RoomProgress {
  import opened Prelude
  import opened RoomTypes
  import opened RoomSpec
  import opened RoomLog
  import opened RoomLedger
  import opened RoomInvariant
  import opened RoomRuns
  import opened RoomTimers

  /** Time passes, a timer fires once its delay is over, or any queued timeout is handled. */
  predicate ByItself(s: Room, step: Step) {
    match step
    case Handle(_) => false
    case Fire(task) => task in s.runtime.tasks ==> s.runtime.tasks[task].wakeAt <= s.clock
    case _ => true
  }

  /** A run without clients, from a room in progress to its first room that is not. */
  ghost predicate TimerRun(s: Room, steps: seq<Step>, t: Room)
    decreases steps
  {
    if steps == [] then s == t
    else
      && s.lifecycle == InProgress && CanStep(s, steps[0]) && ByItself(s, steps[0])
      && TimerRun(Apply(s, steps[0]), steps[1..], t)
  }

  /** Timers that fire and messages that are handled. */
  function WakeUps(steps: seq<Step>): nat {
    if steps == [] then 0 else (if steps[0].Tick? then 0 else 1) + WakeUps(steps[1..])
  }

  // ----- how many wake-ups a game can still take -----

  /** The live timers of the current question that wake no earlier than the round ends. */
  function Armed(rt: Runtime, round: Round): set<nat> {
    set k | k in rt.tasks && rt.tasks[k].question == round.id && rt.tasks[k].wakeAt >= round.endsAt
  }

  /**
   With `rounds` to come after the current one. A message weighs more while the round runs, since it may then spawn a
   timer; a timer set for the round's end weighs less, since its message will not.
   */
  function Weigh(rounds: int, tasks: int, armed: int, messages: int, over: bool): int {
    (2 * rounds + 4) * tasks - 2 * armed + (if over then 2 * rounds + 1 else 2 * rounds + 3) * messages
  }

  function Potential(s: Room): int
    requires s.current.Some?
  {
    var round := s.current.value;
    Weigh(|s.bank| - 1 - round.index, |s.runtime.tasks|, |Armed(s.runtime, round)|, |s.runtime.mailbox|,
          round.endsAt <= s.clock)
  }

  lemma FiringWeighs(rounds: nat, tasks: nat, armed: nat, left: nat, messages: nat, over: bool)
    requires tasks > 0 && (left == armed || (left == armed - 1 && over))
    ensures Weigh(rounds, tasks - 1, left, messages + 1, over) < Weigh(rounds, tasks, armed, messages, over)
  {
    assert (2 * rounds + 4) * (tasks - 1) == (2 * rounds + 4) * tasks - (2 * rounds + 4);
    if over {
      assert (2 * rounds + 1) * (messages + 1) == (2 * rounds + 1) * messages + (2 * rounds + 1);
    } else {
      assert (2 * rounds + 3) * (messages + 1) == (2 * rounds + 3) * messages + (2 * rounds + 3);
    }
  }

  lemma StaleWeighs(rounds: nat, tasks: nat, armed: nat, messages: nat, over: bool)
    requires messages > 0
    ensures Weigh(rounds, tasks, armed, messages - 1, over) < Weigh(rounds, tasks, armed, messages, over)
  {
    var w := if over then 2 * rounds + 1 else 2 * rounds + 3;
    assert w * (messages - 1) == w * messages - w;
  }

  lemma RearmingWeighs(rounds: nat, tasks: nat, armed: nat, messages: nat)
    requires messages > 0
    ensures Weigh(rounds, tasks + 1, armed + 1, messages - 1, false) < Weigh(rounds, tasks, armed, messages, false)
  {
    assert (2 * rounds + 4) * (tasks + 1) == (2 * rounds + 4) * tasks + (2 * rounds + 4);
    assert (2 * rounds + 3) * (messages - 1) == (2 * rounds + 3) * messages - (2 * rounds + 3);
  }

  lemma ClosingWeighs(rounds: nat, tasks: nat, armed: nat, later: nat, messages: nat)
    requires rounds > 0 && messages > 0 && armed <= tasks && later > 0
    ensures Weigh(rounds - 1, tasks + 1, later, messages - 1, false) < Weigh(rounds, tasks, armed, messages, true)
  {
    assert (2 * (rounds - 1) + 4) * (tasks + 1) == (2 * rounds + 4) * tasks - 2 * tasks + 2 * rounds + 2;
    assert (2 * (rounds - 1) + 3) * (messages - 1) == (2 * rounds + 1) * messages - (2 * rounds + 1);
  }

  lemma WaitingWeighs(rounds: nat, tasks: nat, armed: nat, messages: nat, over: bool, later: bool)
    requires over ==> later
    ensures Weigh(rounds, tasks, armed, messages, later) <= Weigh(rounds, tasks, armed, messages, over)
  {
    assert (2 * rounds + 3) * messages == (2 * rounds + 1) * messages + 2 * messages;
  }

  lemma WeighsSomething(rounds: nat, tasks: nat, armed: nat, messages: nat, over: bool)
    requires armed <= tasks
    ensures Weigh(rounds, tasks, armed, messages, over) >= 2 * tasks + messages
  {
    assert (2 * rounds + 4) * tasks == 2 * rounds * tasks + 4 * tasks && rounds * tasks >= 0;
    assert (2 * rounds + 1) * messages == 2 * rounds * messages + messages && rounds * messages >= 0;
    assert (2 * rounds + 3) * messages == 2 * rounds * messages + 3 * messages;
  }

  lemma ArmedAreTasks(rt: Runtime, round: Round)
    ensures |Armed(rt, round)| <= |rt.tasks|
  {
    assert |rt.tasks.Keys| == |rt.tasks|;
    SubsetIsSmaller(Armed(rt, round), rt.tasks.Keys);
  }

  lemma PotentialIsNatural(s: Room)
    requires Inv(s) && s.lifecycle == InProgress
    ensures s.current.Some? && Potential(s) >= 2 * |s.runtime.tasks| + |s.runtime.mailbox|
  {
    hide Grammar, FairTime, Ledger, Credits, Balanced, Recorded, Waited, Timers;
    var round := s.current.value;
    ArmedAreTasks(s.runtime, round);
    WeighsSomething(|s.bank| - 1 - round.index, |s.runtime.tasks|, |Armed(s.runtime, round)|, |s.runtime.mailbox|,
                    round.endsAt <= s.clock);
  }

  // ----- every wake-up brings the end nearer -----

  lemma SmallerMap<K, V>(m: map<K, V>, k: K)
    requires k in m
    ensures |m - {k}| == |m| - 1
  {
    assert (m - {k}).Keys == m.Keys - {k};
  }

  lemma LargerMap<K, V>(m: map<K, V>, k: K, v: V)
    requires k !in m
    ensures |m[k := v]| == |m| + 1
  {
    assert m[k := v].Keys == m.Keys + {k};
  }

  lemma FireDescends(s: Room, task: nat)
    requires s.current.Some? && s.current.value.index < |s.bank| && task in s.runtime.tasks
    requires s.runtime.tasks[task].wakeAt <= s.clock
    ensures Potential(FireStep(s, task)) < Potential(s)
  {
    var t, round := FireStep(s, task), s.current.value;
    SmallerMap(s.runtime.tasks, task);
    assert Armed(t.runtime, round) == Armed(s.runtime, round) - {task};
    FiringWeighs(|s.bank| - 1 - round.index, |s.runtime.tasks|, |Armed(s.runtime, round)|, |Armed(t.runtime, round)|,
                 |s.runtime.mailbox|, round.endsAt <= s.clock);
  }

  /** Handling a message of another question. */
  lemma StaleDescends(s: Room, question: Id, order: MapOrder)
    requires s.lifecycle == InProgress && s.current.Some? && s.current.value.index < |s.bank| && OrderFits(s, order)
    requires question in s.runtime.mailbox && s.current.value.id != question
    ensures Potential(TimeoutStep(s, question, order)) < Potential(s)
  {
    var t, round := TimeoutStep(s, question, order), s.current.value;
    assert Armed(t.runtime, round) == Armed(s.runtime, round);
    StaleWeighs(|s.bank| - 1 - round.index, |s.runtime.tasks|, |Armed(s.runtime, round)|, |s.runtime.mailbox|,
                round.endsAt <= s.clock);
  }

  /** Handling one that comes before the round ends spawns a timer for its end. */
  lemma EarlyDescends(s: Room, question: Id, order: MapOrder)
    requires s.lifecycle == InProgress && s.current.Some? && s.current.value.index < |s.bank| && OrderFits(s, order)
    requires question in s.runtime.mailbox && s.current.value.id == question && s.clock < s.current.value.endsAt
    requires FreshHandles(s.runtime)
    ensures Potential(TimeoutStep(s, question, order)) < Potential(s)
  {
    hide Weigh, CloseRoundAndProgress;
    var t, round, k := TimeoutStep(s, question, order), s.current.value, s.runtime.nextTask;
    var sleeper := Sleeper(question, round.endsAt);
    var rt := Runtime(Some(k), s.runtime.tasks[k := sleeper], k + 1, s.runtime.mailbox - multiset{question});
    assert t.runtime == rt && t.current == s.current && t.bank == s.bank && t.clock == s.clock;
    hide TimeoutStep;
    LargerMap(s.runtime.tasks, k, sleeper);
    ArmsOne(s.runtime, rt, round, sleeper);
    RearmingWeighs(|s.bank| - 1 - round.index, |s.runtime.tasks|, |Armed(s.runtime, round)|, |s.runtime.mailbox|);
  }

  lemma ArmsOne(rt: Runtime, after: Runtime, round: Round, sleeper: Sleeper)
    requires FreshHandles(rt) && after.tasks == rt.tasks[rt.nextTask := sleeper]
    requires sleeper == Sleeper(round.id, round.endsAt)
    ensures |Armed(after, round)| == |Armed(rt, round)| + 1
  {
    assert Armed(after, round) == Armed(rt, round) + {rt.nextTask};
  }

  /** Handling one that comes after its end closes the round; `s` is the room with the message taken. */
  lemma ClosingDescends(s: Room, order: MapOrder, messages: nat)
    requires OrderFits(s, order) && s.lifecycle == InProgress && s.current.Some? && RoundFits(s.current.value, s.bank)
    requires FreshHandles(s.runtime) && |s.runtime.mailbox| == messages - 1
    ensures var t, round := SpawnForCurrent(CloseRoundAndProgress(s, order).0), s.current.value;
            && t.current.Some?
            && (t.lifecycle == Finished ||
                (t.lifecycle == InProgress &&
                 Potential(t) < Weigh(|s.bank| - 1 - round.index, |s.runtime.tasks|, |Armed(s.runtime, round)|,
                                      messages, true)))
  {
    var round, k := s.current.value, s.runtime.nextTask;
    CloseShape(s, order);
    CloseIs(s, order);
    if round.index + 1 != |s.bank| {
      var closed := CloseRoundAndProgress(s, order).0;
      var t, next := SpawnForCurrent(closed), closed.current.value;
      assert t.runtime.tasks == s.runtime.tasks[k := Sleeper(next.id, next.endsAt)];
      LargerMap(s.runtime.tasks, k, Sleeper(next.id, next.endsAt));
      assert k in Armed(t.runtime, next);
      ArmedAreTasks(s.runtime, round);
      ClosingWeighs(|s.bank| - 1 - round.index, |s.runtime.tasks|, |Armed(s.runtime, round)|, |Armed(t.runtime, next)|,
                    messages);
    }
  }

  lemma TimeoutDescends(s: Room, question: Id, order: MapOrder)
    requires Structure(s) && FreshHandles(s.runtime) && s.lifecycle == InProgress && OrderFits(s, order)
    requires question in s.runtime.mailbox
    ensures var t := TimeoutStep(s, question, order);
            t.current.Some? && (t.lifecycle == Finished || (t.lifecycle == InProgress && Potential(t) < Potential(s)))
  {
    hide CloseRoundAndProgress, Weigh, Armed;
    if s.current.value.id != question {
      StaleDescends(s, question, order);
    } else if s.clock < s.current.value.endsAt {
      EarlyDescends(s, question, order);
    } else {
      var rt := s.runtime.(mailbox := s.runtime.mailbox - multiset{question}, timeoutTask := None);
      assert |rt.mailbox| == |s.runtime.mailbox| - 1;
      SameArmed(s.runtime, rt, s.current.value);
      ClosingDescends(s.(runtime := rt, pausedRemaining := None), order, |s.runtime.mailbox|);
    }
  }

  lemma SameArmed(rt: Runtime, after: Runtime, round: Round)
    requires rt.tasks == after.tasks
    ensures Armed(rt, round) == Armed(after, round)
  {
  }

  /**
   Each timer that fires and each message that is handled, be it stale, early or due, brings the end of the game nearer
   or is the end.
   */
  lemma WakeUpDescends(s: Room, step: Step)
    requires Inv(s) && s.lifecycle == InProgress && CanStep(s, step) && ByItself(s, step) && !step.Tick?
    ensures var t := Apply(s, step);
            && s.current.Some? && t.current.Some? && Potential(s) > 0
            && (t.lifecycle == Finished || (t.lifecycle == InProgress && Potential(t) < Potential(s)))
  {
    hide Grammar, FairTime, Ledger, Credits, Balanced, Recorded, Waited, TimeoutStep, TeamOf, Potential;
    PotentialIsNatural(s);
    if step.Timeout? {
      assert |s.runtime.mailbox| > 0;
      TimeoutDescends(s, step.question, step.order);
    } else {
      assert |s.runtime.tasks| > 0;
      FireDescends(s, step.task);
    }
  }

  lemma TickDescends(s: Room, elapsed: nat)
    requires s.current.Some? && s.current.value.index < |s.bank|
    ensures Potential(TickStep(s, elapsed)) <= Potential(s)
  {
    var round, t := s.current.value, TickStep(s, elapsed);
    WaitingWeighs(|s.bank| - 1 - round.index, |s.runtime.tasks|, |Armed(s.runtime, round)|, |s.runtime.mailbox|,
                  round.endsAt <= s.clock, round.endsAt <= t.clock);
  }

  /** Left alone, a game cannot take more than `Potential` wake-ups before it is finished. */
  lemma {:induction false} TimersFinishWithin(s: Room, steps: seq<Step>, t: Room)
    requires Inv(s) && s.lifecycle == InProgress && TimerRun(s, steps, t)
    ensures s.current.Some? && t.current.Some?
    ensures if t.lifecycle == Finished then WakeUps(steps) <= Potential(s)
            else t.lifecycle == InProgress && WakeUps(steps) + Potential(t) <= Potential(s)
    decreases steps
  {
    hide Grammar, FairTime, Ledger, Credits, Balanced, Recorded, Waited, Timers, TeamOf, Potential;
    PotentialIsNatural(s);
    if steps != [] {
      var next := Apply(s, steps[0]);
      StepKeeps(s, steps[0]);
      if steps[0].Tick? {
        TickDescends(s, steps[0].elapsed);
      } else {
        WakeUpDescends(s, steps[0]);
      }
      if next.lifecycle == InProgress {
        TimersFinishWithin(next, steps[1..], t);
      }
    }
  }

  // ----- and there is always one to come -----

  /** A mailbox's messages in their order, after a step that takes the first or adds a last. */
  function QueueAfter(s: Room, queue: seq<Id>, step: Step): seq<Id>
    requires step.Fire? ==> step.task in s.runtime.tasks
  {
    match step
    case Fire(task) => queue + [s.runtime.tasks[task].question]
    case Timeout(_, _) => if queue == [] then [] else queue[1..]
    case _ => queue
  }

  predicate TakesFirst(queue: seq<Id>, step: Step) {
    step.Timeout? ==> queue != [] && queue[0] == step.question
  }

  /** The run handles messages first in, first out, from a mailbox that holds them in the order of `queue`. */
  ghost predicate FirstInFirstOut(s: Room, queue: seq<Id>, steps: seq<Step>)
    decreases steps
  {
    steps != [] ==>
      && CanStep(s, steps[0]) && TakesFirst(queue, steps[0])
      && FirstInFirstOut(Apply(s, steps[0]), QueueAfter(s, queue, steps[0]), steps[1..])
  }

  /** The wait, if any, and the wake-up with which the room can always go on: its first message, or else a timer. */
  lemma NextWakeUp(s: Room, queue: seq<Id>) returns (wait: nat, step: Step)
    requires Inv(s) && s.lifecycle == InProgress && multiset(queue) == s.runtime.mailbox
    ensures var waited := TickStep(s, wait);
            CanStep(waited, step) && ByItself(waited, step) && !step.Tick?
    ensures TakesFirst(queue, step)
  {
    hide Grammar, FairTime, Ledger, Credits, Balanced, Recorded, Waited;
    var round := s.current.value;
    if queue != [] {
      var players := SomeOrder(s.players.Keys);
      var teams := SomeOrder(s.teams.Keys);
      assert queue[0] in multiset(queue);
      wait, step := 0, Timeout(queue[0], MapOrder(players, teams));
    } else {
      assert round.id !in s.runtime.mailbox;
      var task :| LiveSleeper(s.runtime, round, task);
      var wakeAt := s.runtime.tasks[task].wakeAt;
      wait, step := if wakeAt <= s.clock then 0 else wakeAt - s.clock, Fire(task);
    }
  }

  lemma QueueIsMailbox(s: Room, queue: seq<Id>, step: Step)
    requires CanStep(s, step) && (step.Fire? || step.Timeout?) && multiset(queue) == s.runtime.mailbox
    requires FreshHandles(s.runtime) && TakesFirst(queue, step)
    ensures multiset(QueueAfter(s, queue, step)) == Apply(s, step).runtime.mailbox
  {
    hide TimeoutStep, TeamOf, OrderFits;
    if step.Timeout? {
      FirstTaken(queue);
      TimeoutDetaches(s, step.question, step.order);
    } else {
      LastAdded(queue, s.runtime.tasks[step.task].question);
    }
  }

  lemma FirstTaken(queue: seq<Id>)
    requires queue != []
    ensures multiset(queue[1..]) == multiset(queue) - multiset{queue[0]}
  {
    assert queue == [queue[0]] + queue[1..];
  }

  lemma LastAdded(queue: seq<Id>, question: Id)
    ensures multiset(queue + [question]) == multiset(queue) + multiset{question}
  {
  }

  /**
   From any room in progress, and however its messages are queued, time, timers that fire when their delay is over and
   messages handled first in, first out do reach the end of the game.
   */
  lemma {:induction false} TimersAloneFinish(s: Room, queue: seq<Id>) returns (steps: seq<Step>, t: Room)
    requires Inv(s) && s.lifecycle == InProgress && multiset(queue) == s.runtime.mailbox
    ensures TimerRun(s, steps, t) && FirstInFirstOut(s, queue, steps) && t.lifecycle == Finished
    decreases if s.current.Some? then Potential(s) else 0
  {
    hide Grammar, FairTime, Ledger, Credits, Balanced, Recorded, Waited, Timers, TeamOf, Potential;
    PotentialIsNatural(s);
    var wait, step := NextWakeUp(s, queue);
    var waited := TickStep(s, wait);
    assert waited == Apply(s, Tick(wait));
    TickDescends(s, wait);
    StepKeeps(s, Tick(wait));
    StepKeeps(waited, step);
    WakeUpDescends(waited, step);
    HandlesAreFresh(waited);
    QueueIsMailbox(waited, queue, step);
    var next := Apply(waited, step);
    var rest := [];
    t := next;
    if next.lifecycle == InProgress {
      rest, t := TimersAloneFinish(next, QueueAfter(waited, queue, step));
    }
    OneMore(waited, queue, step, rest, t);
    OneMore(s, queue, Tick(wait), [step] + rest, t);
    steps := [Tick(wait)] + ([step] + rest);
  }

  lemma HandlesAreFresh(s: Room)
    requires Inv(s)
    ensures FreshHandles(s.runtime)
  {
    hide Game, Waited;
  }

  lemma OneMore(s: Room, queue: seq<Id>, step: Step, rest: seq<Step>, t: Room)
    requires s.lifecycle == InProgress && CanStep(s, step) && ByItself(s, step) && TakesFirst(queue, step)
    requires TimerRun(Apply(s, step), rest, t)
    requires FirstInFirstOut(Apply(s, step), QueueAfter(s, queue, step), rest)
    ensures TimerRun(s, [step] + rest, t) && FirstInFirstOut(s, queue, [step] + rest)
  {
    hide Apply, CanStep, ByItself, TakesFirst, QueueAfter;
    assert ([step] + rest)[1..] == rest;
  }
}
