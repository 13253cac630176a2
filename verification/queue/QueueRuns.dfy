/** What is true of the bot update queue after any run. */
module QueueRuns {
  import opened Prelude
  import opened QueueModel
  import opened QueueInvariant

  ghost predicate Reaches(c: Config, q: Queue, steps: seq<Step>, t: Queue)
    decreases steps
  {
    if steps == [] then q == t
    else Enabled(c, q, steps[0]) && Reaches(c, Apply(c, q, steps[0]), steps[1..], t)
  }

  ghost predicate Reachable(c: Config, t: Queue) {
    exists steps :: Reaches(c, Initial(), steps, t)
  }

  lemma {:induction false} RunThen(c: Config, q: Queue, steps: seq<Step>, t: Queue, step: Step)
    requires Reaches(c, q, steps, t) && Enabled(c, t, step)
    ensures Reaches(c, q, steps + [step], Apply(c, t, step))
    decreases steps
  {
    hide Enabled, Apply;
    var more := steps + [step];
    if steps == [] {
      assert more == [step] && more[1..] == [];
      assert Reaches(c, Apply(c, q, step), [], Apply(c, q, step));
    } else {
      RunThen(c, Apply(c, q, steps[0]), steps[1..], t, step);
      assert more[1..] == steps[1..] + [step];
    }
  }

  lemma {:induction false} RunKeeps(c: Config, q: Queue, steps: seq<Step>, t: Queue)
    requires Inv(c, q) && Reaches(c, q, steps, t)
    ensures Inv(c, t)
    decreases steps
  {
    hide Inv, Apply, Enabled;
    if steps != [] {
      StepKeeps(c, q, steps[0]);
      RunKeeps(c, Apply(c, q, steps[0]), steps[1..], t);
    }
  }

  lemma ReachableHolds(c: Config, t: Queue)
    requires Reachable(c, t)
    ensures Inv(c, t)
  {
    hide Inv, Initial;
    var steps :| Reaches(c, Initial(), steps, t);
    InitialHolds(c);
    RunKeeps(c, Initial(), steps, t);
  }

  // ----- what the history records -----

  /** `e` joins a part of the history just now. */
  predicate Newly(before: set<EntryId>, after: set<EntryId>, e: EntryId) {
    e !in before && e in after
  }

  lemma ClaimIsRecorded(c: Config, q: Queue, e: EntryId, outcome: Outcome)
    requires AtPhase(q, e, Claiming)
    ensures var t, key := SetOnceStep(c, q, e, outcome), KeyOf(q.stream.entries[e]);
            && t.history.claimed == q.history.claimed + (if outcome != NotSent && key !in q.keys then {e} else {})
            && t.history.entered == q.history.entered + (if outcome == Replied && key !in q.keys then {e} else {})
            && t.history.skipped.Keys ==
               q.history.skipped.Keys + (if outcome == Replied && key in q.keys then {e} else {})
  {
    hide Release;
  }

  lemma RetryIsRecorded(c: Config, q: Queue, e: EntryId, outcome: Outcome)
    requires AtPhase(q, e, Retrying)
    ensures var t, last := RepublishStep(c, q, e, outcome), q.stream.entries[e].attempt + 1 >= c.maxAttempts;
            && t.history.dead.Keys == q.history.dead.Keys + (if outcome != NotSent && last then {e} else {})
            && t.history.copies.Keys == q.history.copies.Keys + (if outcome != NotSent && !last then {e} else {})
  {
    ProceedRecordsNothing(c, DeadLettered(q, e), e, outcome, Settled);
    ProceedRecordsNothing(c, Copied(q, e), e, outcome, Settled);
    hide Proceed, Release, Append;
  }

  lemma ProceedRecordsNothing(c: Config, q: Queue, e: EntryId, outcome: Outcome, phase: Phase)
    requires e in q.tasks && e in q.stream.entries
    ensures Proceed(c, q, e, outcome, phase).history == q.history
  {
  }

  /**
   The history tells the truth about the steps: an entry counts as handled exactly from the step in which its handler
   returns Ok, as entering it exactly when it hears that it has set its key, and as acknowledged, claimed, skipped,
   copied or dead-lettered exactly from the Redis command that takes that effect.
   */
  lemma HistoryTellsTheSteps(c: Config, q: Queue, step: Step, e: EntryId)
    requires Enabled(c, q, step)
    ensures var t := Apply(c, q, step);
            && (Newly(q.history.handled, t.history.handled, e) <==>
                  step == HandlerReturns(e, true) && e !in q.history.handled)
            && (Newly(q.stream.acked, t.stream.acked, e) <==>
                  step.Ack? && step.entry == e && step.outcome != NotSent && e !in q.stream.acked)
            && (Newly(q.history.claimed, t.history.claimed, e) <==>
                  step.SetOnce? && step.entry == e && step.outcome != NotSent && e !in q.history.claimed
                  && KeyOf(q.stream.entries[e]) !in q.keys)
            && (Newly(q.history.entered, t.history.entered, e) <==>
                  step == SetOnce(e, Replied) && e !in q.history.entered && KeyOf(q.stream.entries[e]) !in q.keys)
            && (Newly(q.history.skipped.Keys, t.history.skipped.Keys, e) <==>
                  step == SetOnce(e, Replied) && e !in q.history.skipped && KeyOf(q.stream.entries[e]) in q.keys)
            && (Newly(q.history.copies.Keys, t.history.copies.Keys, e) <==>
                  step.Republish? && step.entry == e && step.outcome != NotSent && e !in q.history.copies
                  && q.stream.entries[e].attempt + 1 < c.maxAttempts)
            && (Newly(q.history.dead.Keys, t.history.dead.Keys, e) <==>
                  step.Republish? && step.entry == e && step.outcome != NotSent && e !in q.history.dead
                  && q.stream.entries[e].attempt + 1 >= c.maxAttempts)
  {
    Frame(c, q, step);
    match step {
      case SetOnce(x, outcome) => ClaimIsRecorded(c, q, x, outcome); AckedOnlyByAck(c, q, step);
      case Republish(x, outcome) => RetryIsRecorded(c, q, x, outcome); AckedOnlyByAck(c, q, step);
      case DeleteKey(_, _) => AckedOnlyByAck(c, q, step);
      case _ =>
    }
    hide SetOnceStep, RepublishStep, DeleteKeyStep, Release, BotFree;
  }

  lemma AckedOnlyByAck(c: Config, q: Queue, step: Step)
    requires Enabled(c, q, step) && !step.Ack?
    ensures Apply(c, q, step).stream.acked == q.stream.acked
  {
    hide Release, BotFree;
  }

  // ----- no update is lost -----

  /** Why an entry may be acknowledged. */
  ghost predicate AckReason(c: Config, q: Queue, e: EntryId)
    requires e in q.stream.entries
  {
    var entry, h := q.stream.entries[e], q.history;
    || (e in h.handled && e in h.entered)
    || (e in h.skipped && h.skipped[e] in h.claimed && h.skipped[e] != e && h.skipped[e] in q.stream.entries &&
        KeyOf(q.stream.entries[h.skipped[e]]) == KeyOf(entry))
    || (e in h.copies && h.copies[e] in q.stream.entries &&
        q.stream.entries[h.copies[e]] == entry.(attempt := entry.attempt + 1))
    || (e in h.dead && h.dead[e] == DeadLetter(entry.bot, entry.update, entry.payload, MaxRuns(c)))
  }

  /**
   An acknowledged entry was handled, or skipped for another of its update that had set the key, or copied, or
   dead-lettered.
   */
  lemma AckedForAReason(c: Config, q: Queue, e: EntryId)
    requires Reachable(c, q) && e in q.stream.acked
    ensures e in q.stream.entries && AckReason(c, q, e)
  {
    hide KeysOk, AllAlive, PermitsOk, RootsOk, TasksOk;
    ReachableHolds(c, q);
    assert e in q.stream.entries;
    assert OutcomeOk(q.stream, q.history, e);
    assert SkipOk(q.stream.entries, q.history, e);
    assert CopyOk(q.stream.entries, q.history, e);
    assert DeathOk(c, q.stream.entries, q.history.dead, e);
  }

  /** The last copy of an entry. */
  ghost function Tip(c: Config, q: Queue, e: EntryId): (tip: EntryId)
    requires AllEntriesOk(c, q.stream) && CopiesOk(q.stream.entries, q.history) && e in q.stream.entries
    ensures tip in q.stream.entries && tip !in q.history.copies
    ensures KeyOf(q.stream.entries[tip]) == KeyOf(q.stream.entries[e])
    ensures q.stream.entries[tip].payload == q.stream.entries[e].payload
    ensures q.stream.entries[tip].partition == q.stream.entries[e].partition
    ensures q.stream.entries[e].attempt <= q.stream.entries[tip].attempt
    decreases MaxRuns(c) - q.stream.entries[e].attempt
  {
    assert CopyOk(q.stream.entries, q.history, e);
    if e in q.history.copies then
      assert EntryOk(c, q.stream.entries[q.history.copies[e]]);
      Tip(c, q, q.history.copies[e])
    else e
  }

  /** Following copies from any entry ends at one queued, pending, trimmed, handled, skipped or dead-lettered. */
  lemma CopiesEndSomewhere(c: Config, q: Queue, e: EntryId)
    requires Reachable(c, q) && e in q.stream.entries
    ensures AllEntriesOk(c, q.stream) && CopiesOk(q.stream.entries, q.history)
    ensures var tip := Tip(c, q, e);
            || tip in q.stream.unread || tip in q.stream.pending || tip in q.stream.trimmed
            || tip in q.history.handled || tip in q.history.skipped || tip in q.history.dead
  {
    hide KeysOk, AllAlive, PermitsOk, RootsOk, TasksOk;
    ReachableHolds(c, q);
    assert OutcomeOk(q.stream, q.history, Tip(c, q, e));
  }

  /**
   Once every entry of an update has been acknowledged, some entry of it was handled or dead-lettered: however
   deliveries were skipped, copied or crashed, acknowledging all of them never drops the update.
   */
  lemma AllAckedMeansDone(c: Config, q: Queue, k: Key, e: EntryId)
    requires Reachable(c, q) && e in q.stream.entries && KeyOf(q.stream.entries[e]) == k
    requires forall x <- q.stream.entries :: KeyOf(q.stream.entries[x]) == k ==> x in q.stream.acked
    ensures exists x <- q.stream.entries ::
              KeyOf(q.stream.entries[x]) == k && (x in q.history.handled || x in q.history.dead)
  {
    hide PermitsOk, RootsOk, TasksOk, CopiesOk, SkipsOk;
    ReachableHolds(c, q);
    assert Alive(q, k);
    forall x ensures !Open(q, x, k) { assert OutcomeOk(q.stream, q.history, x); }
    if k in q.keys {
      assert KeyOk(q, k);
      assert !Open(q, q.keys[k], k);
    } else {
      var x :| DeadFor(q, x, k);
      assert x in q.stream.entries && x in q.history.dead;
    }
  }

  // ----- one handler at a time, one success -----

  predicate InHandler(q: Queue, e: EntryId) {
    e in q.tasks && q.tasks[e].phase == Handling
  }

  /** For each update at most one entry is in its handler or has been handled with Ok. */
  lemma OneHandlerPerUpdate(c: Config, q: Queue, a: EntryId, b: EntryId)
    requires Reachable(c, q) && a in q.stream.entries && b in q.stream.entries
    requires KeyOf(q.stream.entries[a]) == KeyOf(q.stream.entries[b])
    requires InHandler(q, a) || a in q.history.handled
    requires InHandler(q, b) || b in q.history.handled
    ensures a == b && !(InHandler(q, a) && a in q.history.handled)
  {
    ReachableHolds(c, q);
    assert OwnsOk(q, a) && OwnsOk(q, b);
  }

  /** A failing task deletes its key only while it is the one that set it. */
  lemma DeletesOnlyItsOwnKey(c: Config, q: Queue, e: EntryId, outcome: Outcome)
    requires Reachable(c, q) && Enabled(c, q, DeleteKey(e, outcome))
    ensures var k := KeyOf(q.stream.entries[e]);
            k in q.keys && q.keys[k] == e
  {
    ReachableHolds(c, q);
    assert OwnsOk(q, e);
  }

  // ----- permits -----

  function Handlers(q: Queue, r: Runner): set<EntryId> {
    set e | e in q.tasks && InHandler(q, e) && q.tasks[e].runner == r
  }

  function BotHandlers(q: Queue, r: Runner, bot: Id): set<EntryId> {
    set e | e in Handlers(q, r) && e in q.stream.entries && q.stream.entries[e].bot == bot
  }

  /** A runner never has more tasks in their handlers than its limits allow, overall and for each bot. */
  lemma CapsHold(c: Config, q: Queue, r: Runner, bot: Id)
    requires Reachable(c, q) && r in q.permits.overall
    ensures |Handlers(q, r)| <= c.globalLimit && |BotHandlers(q, r, bot)| <= c.perBotLimit
  {
    hide StreamOk, AllEntriesOk, OutcomesOk, SkipsOk, DeadOk, CopiesOk, RootsOk, KeysOk, AllAlive;
    ReachableHolds(c, q);
    assert GlobalOk(c, q, r) && BotOk(c, q, r, bot);
    SubsetIsSmaller(Handlers(q, r), GlobalHolders(q, r));
    SubsetIsSmaller(BotHandlers(q, r, bot), BotHolders(q, r, bot));
  }

  /** Whether a task can do its next step, its handler and Redis answering. */
  predicate CanAct(c: Config, q: Queue, e: EntryId) {
    && e in q.tasks && e in q.stream.entries
    && match q.tasks[e].phase
       case WaitGlobal => Enabled(c, q, AcquireGlobal(e))
       case WaitBot => Enabled(c, q, AcquireBot(e))
       case _ => true
  }

  /** With both limits at least one, a waiting task never waits in vain: some task of its runner can act. */
  lemma NoDeadlock(c: Config, q: Queue, e: EntryId)
    requires Reachable(c, q) && c.globalLimit >= 1 && c.perBotLimit >= 1 && e in q.tasks
    ensures exists x <- q.tasks :: q.tasks[x].runner == q.tasks[e].runner && CanAct(c, q, x)
  {
    hide AllEntriesOk, OutcomesOk, SkipsOk, DeadOk, CopiesOk, RootsOk, KeysOk, AllAlive;
    ReachableHolds(c, q);
    var r := q.tasks[e].runner;
    assert r in q.permits.overall && e in q.stream.entries;
    if q.tasks[e].phase == WaitGlobal && q.permits.overall[r] == 0 {
      assert GlobalOk(c, q, r);
      var holder :| holder in GlobalHolders(q, r);
      BotWaiterIsServed(c, q, holder);
    } else {
      BotWaiterIsServed(c, q, e);
    }
  }

  lemma BotWaiterIsServed(c: Config, q: Queue, e: EntryId)
    requires Inv(c, q) && c.perBotLimit >= 1 && e in q.tasks
    requires q.tasks[e].phase == WaitGlobal ==> q.permits.overall[q.tasks[e].runner] > 0
    ensures exists x <- q.tasks :: q.tasks[x].runner == q.tasks[e].runner && CanAct(c, q, x)
  {
    hide AllEntriesOk, OutcomesOk, SkipsOk, DeadOk, CopiesOk, RootsOk, KeysOk, AllAlive;
    var r := q.tasks[e].runner;
    assert e in q.stream.entries && r in q.permits.overall;
    var bot := q.stream.entries[e].bot;
    if q.tasks[e].phase == WaitBot && BotFree(c, q.permits, r, bot) == 0 {
      assert BotOk(c, q, r, bot);
      var holder :| holder in BotHolders(q, r, bot);
      assert CanAct(c, q, holder);
    } else {
      assert CanAct(c, q, e);
    }
  }

  // ----- retries end -----

  /** A copy stands one attempt nearer the limit, in the same partition, the one its bot hashes to. */
  lemma CopiesApproachTheLimit(c: Config, q: Queue, e: EntryId)
    requires Reachable(c, q) && e in q.history.copies
    ensures e in q.stream.entries && q.history.copies[e] in q.stream.entries
    ensures var entry, copy := q.stream.entries[e], q.stream.entries[q.history.copies[e]];
            && 0 < MaxRuns(c) - copy.attempt < MaxRuns(c) - entry.attempt
            && c.partitions > 0 && copy.partition == entry.partition == c.hash(entry.bot) % c.partitions
  {
    ReachableHolds(c, q);
    assert CopyOk(q.stream.entries, q.history, e);
    assert EntryOk(c, q.stream.entries[e]) && EntryOk(c, q.stream.entries[q.history.copies[e]]);
  }

  lemma DeadLettersAreAtTheLimit(c: Config, q: Queue, e: EntryId)
    requires Reachable(c, q) && e in q.history.dead
    ensures q.history.dead[e].attempt == MaxRuns(c) && e !in q.history.handled && e !in q.history.copies
  {
    ReachableHolds(c, q);
    assert DeathOk(c, q.stream.entries, q.history.dead, e);
    assert OutcomeOk(q.stream, q.history, e);
  }

  /** The entries descending from `root` that have set their key, and those of them that entered their handler. */
  ghost function ClaimsOf(q: Queue, root: EntryId): set<EntryId> {
    set e | e in q.history.claimed && e in q.history.root && q.history.root[e] == root
  }

  ghost function RunsOf(q: Queue, root: EntryId): set<EntryId> {
    set e | e in q.history.entered && e in q.history.root && q.history.root[e] == root
  }

  /** Pairwise different numbers below a bound are at most that many. */
  lemma {:induction false} FewBelow(entries: map<EntryId, Entry>, some: set<EntryId>, bound: nat)
    requires forall e <- some :: e in entries && entries[e].attempt < bound
    requires forall a <- some, b <- some :: entries[a].attempt == entries[b].attempt ==> a == b
    ensures |some| <= bound
  {
    if bound == 0 {
      assert some == {};
    } else if e :| e in some && entries[e].attempt == bound - 1 {
      FewBelow(entries, some - {e}, bound - 1);
    } else {
      FewBelow(entries, some, bound - 1);
    }
  }

  /** One update received at ingress enters a handler at most `max(1, max_attempts)` times, copies included. */
  lemma RunsAreBounded(c: Config, q: Queue, root: EntryId)
    requires Reachable(c, q)
    ensures |RunsOf(q, root)| <= |ClaimsOf(q, root)| <= MaxRuns(c)
  {
    ReachableHolds(c, q);
    var runs, entries := ClaimsOf(q, root), q.stream.entries;
    forall e <- RunsOf(q, root) ensures e in runs { assert OutcomeOk(q.stream, q.history, e); }
    SubsetIsSmaller(RunsOf(q, root), runs);
    forall e <- runs ensures e in entries && entries[e].attempt < MaxRuns(c) {
      assert OutcomeOk(q.stream, q.history, e);
      assert e in entries && EntryOk(c, entries[e]);
    }
    forall a <- runs, b <- runs | entries[a].attempt == entries[b].attempt ensures a == b {
      assert Apart(entries, q.history.root, a, b);
    }
    FewBelow(entries, runs, MaxRuns(c));
  }
}
