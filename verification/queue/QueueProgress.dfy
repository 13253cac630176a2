/** Retries end: each update received costs a bounded number of steps, over whole runs. */
module QueueProgress {
  import opened QueueModel
  import opened QueueInvariant
  import opened QueueRuns
  import opened QueueServing

  /** Everything but receiving updates and runners coming and going. */
  predicate IsWork(step: Step) {
    !step.Enqueue? && !step.StartRunner? && !step.Crash?
  }

  function Work(steps: seq<Step>): nat {
    if steps == [] then 0 else (if IsWork(steps[0]) then 1 else 0) + Work(steps[1..])
  }

  function Enqueues(steps: seq<Step>): nat {
    if steps == [] then 0 else (if steps[0].Enqueue? then 1 else 0) + Enqueues(steps[1..])
  }

  // ----- the steps an entry may still cause -----

  const LIFE: nat := 9

  /** The steps left to a task in this delivery; those that end the entry's retries come last. */
  function StepsLeft(phase: Phase): nat {
    match phase
    case WaitGlobal => 7
    case WaitBot => 6
    case Claiming => 5
    case Handling => 4
    case Failed => 3
    case Retrying => 2
    case _ => 1
  }

  function LivesLeft(c: Config, entry: Entry): nat {
    if entry.attempt < MaxRuns(c) then MaxRuns(c) - entry.attempt - 1 else 0
  }

  /** What an entry may still cause, with the copies to come. */
  function Cost(c: Config, q: Queue, e: EntryId): nat {
    if e !in q.stream.entries then 0
    else if e in q.stream.unread then LIFE * LivesLeft(c, q.stream.entries[e]) + 8
    else if e !in q.tasks then 0
    else if StepsLeft(q.tasks[e].phase) == 1 then 1
    else LIFE * LivesLeft(c, q.stream.entries[e]) + StepsLeft(q.tasks[e].phase)
  }

  function CostBelow(c: Config, q: Queue, n: nat): nat {
    if n == 0 then 0 else CostBelow(c, q, n - 1) + Cost(c, q, n - 1)
  }

  function TotalCost(c: Config, q: Queue): nat {
    CostBelow(c, q, q.stream.nextId)
  }

  lemma {:induction false} OthersCostNoMore(c: Config, q: Queue, t: Queue, n: nat)
    requires forall e | 0 <= e < n :: Cost(c, t, e) <= Cost(c, q, e)
    ensures CostBelow(c, t, n) <= CostBelow(c, q, n)
  {
    if n > 0 {
      OthersCostNoMore(c, q, t, n - 1);
    }
  }

  /** If one entry's cost falls by `gain` and no other's rises, the total falls as much. */
  lemma {:induction false} OneCostsLess(c: Config, q: Queue, t: Queue, n: nat, e: EntryId, gain: nat)
    requires e < n && Cost(c, t, e) + gain <= Cost(c, q, e)
    requires forall x | 0 <= x < n :: Cost(c, t, x) <= Cost(c, q, x)
    ensures CostBelow(c, t, n) + gain <= CostBelow(c, q, n)
  {
    if e == n - 1 {
      OthersCostNoMore(c, q, t, n - 1);
    } else {
      OneCostsLess(c, q, t, n - 1, e, gain);
    }
  }

  // ----- each step of work uses one up -----

  /** What the entry appended in a step, if any, will cost. */
  function NewCost(c: Config, q: Queue, t: Queue): nat {
    if t.stream.nextId > q.stream.nextId then Cost(c, t, q.stream.nextId) else 0
  }

  lemma OtherCost(c: Config, q: Queue, step: Step, x: EntryId)
    requires StreamOk(c, q.stream) && Enabled(c, q, step) && x < q.stream.nextId && !Touches(step, x)
    ensures Cost(c, Apply(c, q, step), x) <= Cost(c, q, x)
  {
    OthersStay(c, q, step, x);
    EntriesStay(c, q, step);
    OldEntries(c, q, step, x);
    hide Apply, Enabled, StreamOk, LivesLeft;
  }

  lemma RedisCost(c: Config, q: Queue, step: Step)
    requires StreamOk(c, q.stream) && q.tasks.Keys <= q.stream.pending && Enabled(c, q, step)
    requires step.SetOnce? || step.DeleteKey? || step.Ack?
    ensures Cost(c, Apply(c, q, step), step.entry) < Cost(c, q, step.entry)
    ensures Apply(c, q, step).stream.nextId == q.stream.nextId
  {
    hide Release, BotFree, KeyOf, LivesLeft;
  }

  lemma RepublishCost(c: Config, q: Queue, e: EntryId, outcome: Outcome)
    requires StreamOk(c, q.stream) && q.tasks.Keys <= q.stream.pending && AtPhase(q, e, Retrying)
    requires q.stream.entries[e].attempt < MaxRuns(c)
    ensures var t := RepublishStep(c, q, e, outcome);
            && q.stream.nextId <= t.stream.nextId <= q.stream.nextId + 1
            && Cost(c, t, e) + NewCost(c, q, t) < Cost(c, q, e)
  {
    hide Release, BotFree, KeyOf;
  }

  lemma OwnCost(c: Config, q: Queue, step: Step)
    requires StreamOk(c, q.stream) && q.tasks.Keys <= q.stream.pending && AllEntriesOk(c, q.stream)
    requires Enabled(c, q, step) && IsWork(step)
    ensures var t := Apply(c, q, step);
            && q.stream.nextId <= t.stream.nextId <= q.stream.nextId + 1
            && Cost(c, t, step.entry) + NewCost(c, q, t) < Cost(c, q, step.entry)
  {
    match step
    case Republish(e, outcome) =>
      assert EntryOk(c, q.stream.entries[e]);
      RepublishCost(c, q, e, outcome);
    case SetOnce(_, _) => RedisCost(c, q, step);
    case DeleteKey(_, _) => RedisCost(c, q, step);
    case Ack(_, _) => RedisCost(c, q, step);
    case _ => hide BotFree, KeyOf, LivesLeft;
  }

  lemma WorkCosts(c: Config, q: Queue, step: Step)
    requires Inv(c, q) && Enabled(c, q, step) && IsWork(step)
    ensures TotalCost(c, Apply(c, q, step)) < TotalCost(c, q)
  {
    hide Inv, StreamOk, AllEntriesOk, Apply, Enabled, Cost;
    Basics(c, q);
    EntriesBasics(c, q);
    ActsOnKnown(c, q, step);
    OwnCost(c, q, step);
    var t, n := Apply(c, q, step), q.stream.nextId;
    forall x | 0 <= x < n ensures Cost(c, t, x) <= Cost(c, q, x) {
      if x != step.entry { OtherCost(c, q, step, x); }
    }
    OneCostsLess(c, q, t, n, step.entry, NewCost(c, q, t) + 1);
  }

  lemma EntriesBasics(c: Config, q: Queue)
    requires Inv(c, q)
    ensures AllEntriesOk(c, q.stream)
  {
    hide AllEntriesOk, StreamOk, Progress, SkipsOk, DeadOk, CopiesOk, RootsOk, KeysOk, AllAlive, PermitsOk;
  }

  lemma ActsOnKnown(c: Config, q: Queue, step: Step)
    requires StreamOk(c, q.stream) && Enabled(c, q, step) && IsWork(step)
    ensures step.entry < q.stream.nextId
  {
    hide BotFree;
  }

  lemma OtherStepsCost(c: Config, q: Queue, step: Step)
    requires Inv(c, q) && Enabled(c, q, step) && !IsWork(step)
    ensures TotalCost(c, Apply(c, q, step)) <= TotalCost(c, q) + if step.Enqueue? then LIFE * MaxRuns(c) else 0
  {
    Basics(c, q);
    var t, n := Apply(c, q, step), q.stream.nextId;
    assert t.stream.nextId == if step.Enqueue? then n + 1 else n;
    if step.Enqueue? {
      assert Cost(c, t, n) <= LIFE * MaxRuns(c);
    }
    forall x | 0 <= x < n ensures Cost(c, t, x) <= Cost(c, q, x) { OtherCost(c, q, step, x); }
    hide Apply, Enabled, Cost, Inv;
    OthersCostNoMore(c, q, t, n);
  }

  /**
   Whatever runners do, crash or start, a run has no more steps of work than were to come at its start and nine for each
   allowed attempt of each update received.
   */
  lemma {:induction false} WorkIsBounded(c: Config, q: Queue, steps: seq<Step>, t: Queue)
    requires Inv(c, q) && Reaches(c, q, steps, t)
    ensures Work(steps) + TotalCost(c, t) <= TotalCost(c, q) + LIFE * MaxRuns(c) * Enqueues(steps)
    decreases steps
  {
    hide Inv, Apply, Enabled, TotalCost, MaxRuns, IsWork;
    if steps != [] {
      var p := Apply(c, q, steps[0]);
      StepKeeps(c, q, steps[0]);
      WorkIsBounded(c, p, steps[1..], t);
      if IsWork(steps[0]) {
        WorkCosts(c, q, steps[0]);
        WorkIsNoEnqueue(steps[0]);
      } else {
        OtherStepsCost(c, q, steps[0]);
        OneMore(LIFE * MaxRuns(c), Enqueues(steps[1..]));
      }
    }
  }

  lemma WorkIsNoEnqueue(step: Step)
    requires IsWork(step)
    ensures !step.Enqueue?
  {
  }

  lemma OneMore(a: nat, n: nat)
    ensures a * (n + 1) == a * n + a
  {
  }

  /** From the beginning: at most nine steps of work for each allowed attempt of each update received. */
  lemma WorkIsBoundedByUpdates(c: Config, steps: seq<Step>, t: Queue)
    requires Reaches(c, Initial(), steps, t)
    ensures Work(steps) <= LIFE * MaxRuns(c) * Enqueues(steps)
  {
    InitialHolds(c);
    WorkIsBounded(c, Initial(), steps, t);
  }
}
