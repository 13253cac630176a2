/**
 Whether an update can still be served, that is handled or dead-lettered: acknowledging its entries does not decide it,
 but the state does.
 */
module QueueServing {
  import opened QueueModel
  import opened QueueInvariant
  import opened QueueRuns

  predicate EntryFor(q: Queue, k: Key, e: EntryId) {
    e in q.stream.entries && KeyOf(q.stream.entries[e]) == k
  }

  predicate ServedBy(q: Queue, k: Key, e: EntryId) {
    EntryFor(q, k, e) && (e in q.history.handled || e in q.history.dead)
  }

  ghost predicate Served(q: Queue, k: Key) {
    exists e :: ServedBy(q, k, e)
  }

  /** An entry about to be dead-lettered. */
  predicate WillDie(c: Config, q: Queue, k: Key, e: EntryId) {
    EntryFor(q, k, e) && AtPhase(q, e, Retrying) && q.stream.entries[e].attempt + 1 >= c.maxAttempts
  }

  /** An entry, or the copy it is about to get, that can still set the key. */
  predicate CanClaim(q: Queue, k: Key, e: EntryId) {
    && EntryFor(q, k, e)
    && (e in q.stream.unread || AtPhase(q, e, WaitGlobal) || AtPhase(q, e, WaitBot) || AtPhase(q, e, Claiming)
        || AtPhase(q, e, Retrying))
  }

  /** While the key is held, its holder is at work or some entry is about to be dead-lettered; else one can claim it. */
  ghost predicate Live(c: Config, q: Queue, k: Key) {
    if k in q.keys then q.keys[k] in q.tasks || exists e :: WillDie(c, q, k, e)
    else exists e :: CanClaim(q, k, e)
  }

  ghost predicate Stranded(c: Config, q: Queue, k: Key) {
    !Served(q, k) && !Live(c, q, k)
  }

  predicate Renews(step: Step, k: Key) {
    step.Enqueue? && Key(step.bot, step.update) == k
  }

  // ----- a stranded update stays so -----

  lemma StrandedOwners(c: Config, q: Queue, k: Key, e: EntryId)
    requires Inv(c, q) && Stranded(c, q, k) && EntryFor(q, k, e)
    ensures e in q.tasks ==> !Owning(q.tasks[e].phase) && !WillDie(c, q, k, e)
    ensures e in q.tasks && k !in q.keys ==> q.tasks[e].phase == Skipping || q.tasks[e].phase == Settled
    ensures e !in q.history.handled && e !in q.history.dead
  {
    hide StreamOk, AllEntriesOk, Progress, SkipsOk, DeadOk, CopiesOk, RootsOk, AllAlive, PermitsOk;
    assert OwnsOk(q, e) && !ServedBy(q, k, e);
    assert !(k in q.keys && q.keys[k] in q.tasks);
    if k !in q.keys { assert !CanClaim(q, k, e); }
  }

  lemma StrandedKeys(c: Config, q: Queue, k: Key, step: Step)
    requires Inv(c, q) && Stranded(c, q, k) && Enabled(c, q, step)
    ensures var t := Apply(c, q, step);
            (k in t.keys <==> k in q.keys) && (k in q.keys ==> t.keys[k] == q.keys[k])
  {
    Frame(c, q, step);
    if step.SetOnce? || step.DeleteKey? {
      var e := step.entry;
      if EntryFor(q, k, e) { StrandedOwners(c, q, k, e); }
      hide Inv, Stranded, Release;
    } else {
      hide Apply, Inv, Stranded;
    }
  }

  lemma StrandedUnserved(c: Config, q: Queue, k: Key, step: Step)
    requires Inv(c, q) && Stranded(c, q, k) && Enabled(c, q, step)
    ensures !Served(Apply(c, q, step), k)
  {
    var t := Apply(c, q, step);
    forall e ensures !ServedBy(t, k, e) {
      HistoryTellsTheSteps(c, q, step, e);
      assert OutcomeOk(q.stream, q.history, e);
      if EntryFor(q, k, e) { StrandedOwners(c, q, k, e); }
      EntriesStay(c, q, step);
      hide Apply, Stranded, Inv;
    }
  }

  lemma EntriesStay(c: Config, q: Queue, step: Step)
    requires StreamOk(c, q.stream) && Enabled(c, q, step)
    ensures forall e <- q.stream.entries :: e in Apply(c, q, step).stream.entries
    ensures forall e <- q.stream.entries :: Apply(c, q, step).stream.entries[e] == q.stream.entries[e]
  {
    Frame(c, q, step);
    if !step.Enqueue? && !step.Republish? { hide Apply; }
    hide Release;
  }

  predicate Touches(step: Step, e: EntryId) {
    !step.Enqueue? && !step.StartRunner? && !step.Crash? && step.entry == e
  }

  /** A step leaves the tasks of other entries, or crashes them, and unread entries stay unless it is theirs. */
  lemma OthersStay(c: Config, q: Queue, step: Step, e: EntryId)
    requires Enabled(c, q, step) && !Touches(step, e)
    ensures var t := Apply(c, q, step);
            && (e in t.tasks ==> e in q.tasks && t.tasks[e] == q.tasks[e])
            && (e in t.stream.unread ==> e in q.stream.unread || e == q.stream.nextId)
  {
    hide Release, BotFree, KeyOf;
  }

  /** How an entry comes to be at Retrying, or to wait for its claim. */
  lemma OwnMove(c: Config, q: Queue, step: Step, e: EntryId)
    requires StreamOk(c, q.stream) && q.tasks.Keys <= q.stream.pending && Enabled(c, q, step) && Touches(step, e)
    ensures var t := Apply(c, q, step);
            && (e in t.stream.unread ==> e in q.stream.unread)
            && (e in t.tasks && e !in q.tasks ==> step.Read?)
            && (AtPhase(t, e, Retrying) ==> AtPhase(q, e, Failed))
            && (AtPhase(t, e, WaitGlobal) ==> e in q.stream.unread)
            && (AtPhase(t, e, WaitBot) ==> AtPhase(q, e, WaitGlobal))
            && (AtPhase(t, e, Claiming) ==> AtPhase(q, e, WaitBot))
  {
    hide Release, BotFree, KeyOf;
  }

  /** While a lost key is held its holder stays lost, and nobody else of its update comes to the end of its retries. */
  lemma HeldStaysDead(c: Config, q: Queue, k: Key, step: Step, e: EntryId)
    requires Inv(c, q) && Stranded(c, q, k) && Enabled(c, q, step) && k in q.keys
    ensures q.keys[k] !in Apply(c, q, step).tasks && !WillDie(c, Apply(c, q, step), k, e)
  {
    var o := q.keys[k];
    assert KeyOk(q, k) && OutcomeOk(q.stream, q.history, o);
    assert o !in q.stream.unread && o !in q.tasks && !WillDie(c, q, k, e);
    if EntryFor(q, k, e) { StrandedOwners(c, q, k, e); }
    if Touches(step, o) { OwnMove(c, q, step, o); } else { OthersStay(c, q, step, o); }
    if Touches(step, e) { OwnMove(c, q, step, e); } else { OthersStay(c, q, step, e); }
    assert e in q.tasks ==> e in q.stream.entries;
    EntriesStay(c, q, step);
    hide Apply, Inv, Stranded;
  }

  lemma Basics(c: Config, q: Queue)
    requires Inv(c, q)
    ensures StreamOk(c, q.stream) && q.tasks.Keys <= q.stream.pending && q.stream.pending <= q.stream.entries.Keys
  {
    hide AllEntriesOk, OutcomesOk, SkipsOk, DeadOk, CopiesOk, RootsOk, KeysOk, AllAlive, PermitsOk;
  }

  lemma NobodyCanClaim(c: Config, q: Queue, k: Key, e: EntryId)
    requires Stranded(c, q, k) && k !in q.keys
    ensures !CanClaim(q, k, e)
  {
    hide Served;
  }

  /** With the key free and nobody left who could claim it, nobody comes to be. */
  lemma FreeStaysIdle(c: Config, q: Queue, k: Key, step: Step, e: EntryId)
    requires Inv(c, q) && Stranded(c, q, k) && Enabled(c, q, step) && k !in q.keys && !Renews(step, k)
    ensures !CanClaim(Apply(c, q, step), k, e)
  {
    hide Inv, Stranded, StreamOk, Apply, Enabled;
    Basics(c, q);
    NobodyCanClaim(c, q, k, e);
    if EntryFor(q, k, e) { StrandedOwners(c, q, k, e); }
    if e == q.stream.nextId {
      NewEntryIsOther(c, q, k, step);
    } else {
      if Touches(step, e) { OwnMove(c, q, step, e); } else { OthersStay(c, q, step, e); }
      EntriesStay(c, q, step);
      OldEntries(c, q, step, e);
    }
  }

  lemma OldEntries(c: Config, q: Queue, step: Step, e: EntryId)
    requires StreamOk(c, q.stream) && Enabled(c, q, step) && e != q.stream.nextId
    ensures e in Apply(c, q, step).stream.entries ==> e in q.stream.entries
  {
    Frame(c, q, step);
    if !step.Enqueue? && !step.Republish? { hide Apply; }
    hide Release;
  }

  lemma NewEntryIsOther(c: Config, q: Queue, k: Key, step: Step)
    requires Inv(c, q) && Stranded(c, q, k) && Enabled(c, q, step) && k !in q.keys && !Renews(step, k)
    ensures !EntryFor(Apply(c, q, step), k, q.stream.nextId)
  {
    Frame(c, q, step);
    if step.Republish? {
      assert !CanClaim(q, k, step.entry);
      hide Inv, Stranded, Release;
    } else if step.Enqueue? {
      hide Inv, Stranded;
    } else {
      hide Apply;
    }
  }

  lemma StrandedStep(c: Config, q: Queue, k: Key, step: Step)
    requires Inv(c, q) && Stranded(c, q, k) && Enabled(c, q, step) && (k in q.keys || !Renews(step, k))
    ensures Stranded(c, Apply(c, q, step), k)
    ensures k in q.keys ==> k in Apply(c, q, step).keys
  {
    hide Inv, Apply, Served, CanClaim, WillDie;
    var t := Apply(c, q, step);
    StrandedUnserved(c, q, k, step);
    StrandedKeys(c, q, k, step);
    if k in q.keys {
      HeldStaysDead(c, q, k, step, 0);
      forall e ensures !WillDie(c, t, k, e) { HeldStaysDead(c, q, k, step, e); }
    } else {
      forall e ensures !CanClaim(t, k, e) { FreeStaysIdle(c, q, k, step, e); }
    }
  }

  /** A stranded update stays so unless it is enqueued anew, and even then if its key is held. */
  lemma {:induction false} StrandedForGood(c: Config, q: Queue, k: Key, steps: seq<Step>, t: Queue)
    requires Inv(c, q) && Stranded(c, q, k) && Reaches(c, q, steps, t)
    requires k in q.keys || forall step <- steps :: !Renews(step, k)
    ensures Stranded(c, t, k)
    decreases steps
  {
    hide Inv, Stranded, Apply, Enabled;
    if steps != [] {
      assert steps[0] in steps && forall step <- steps[1..] :: step in steps;
      StrandedStep(c, q, k, steps[0]);
      StepKeeps(c, q, steps[0]);
      StrandedForGood(c, Apply(c, q, steps[0]), k, steps[1..], t);
    }
  }

  // ----- what is live can be served -----

  /** Some run without a new delivery of the update serves it. */
  ghost predicate Servable(c: Config, q: Queue, k: Key) {
    exists steps, t :: ServingRun(c, q, k, steps, t)
  }

  ghost predicate ServingRun(c: Config, q: Queue, k: Key, steps: seq<Step>, t: Queue) {
    RunServes(c, q, k, steps, t) && forall step <- steps :: !Renews(step, k)
  }

  ghost predicate RunServes(c: Config, q: Queue, k: Key, steps: seq<Step>, t: Queue) {
    Reaches(c, q, steps, t) && Served(t, k)
  }

  /** Some run serves the update, with or without new deliveries of it. */
  ghost predicate ServableAnew(c: Config, q: Queue, k: Key) {
    exists steps, t :: RunServes(c, q, k, steps, t)
  }

  lemma After(c: Config, q: Queue, k: Key, step: Step)
    requires Enabled(c, q, step) && !Renews(step, k) && Servable(c, Apply(c, q, step), k)
    ensures Servable(c, q, k)
  {
    hide Enabled, Apply, Served;
    var steps, t :| ServingRun(c, Apply(c, q, step), k, steps, t);
    var more := [step] + steps;
    assert more[1..] == steps;
    assert ServingRun(c, q, k, more, t);
  }

  lemma AlreadyServed(c: Config, q: Queue, k: Key, e: EntryId)
    requires ServedBy(q, k, e)
    ensures Servable(c, q, k)
  {
    assert ServingRun(c, q, k, [], q);
  }

  lemma ServeHandling(c: Config, q: Queue, k: Key, e: EntryId)
    requires EntryFor(q, k, e) && AtPhase(q, e, Handling)
    ensures Servable(c, q, k)
  {
    var step := HandlerReturns(e, true);
    AlreadyServed(c, Apply(c, q, step), k, e);
    hide Servable;
    After(c, q, k, step);
  }

  lemma ServeClaiming(c: Config, q: Queue, k: Key, e: EntryId)
    requires EntryFor(q, k, e) && AtPhase(q, e, Claiming) && k !in q.keys
    ensures Servable(c, q, k)
  {
    hide Servable;
    var step := SetOnce(e, Replied);
    ServeHandling(c, Apply(c, q, step), k, e);
    After(c, q, k, step);
  }

  lemma ServeWithBotFree(c: Config, q: Queue, k: Key, e: EntryId)
    requires EntryFor(q, k, e) && AtPhase(q, e, WaitBot) && k !in q.keys
    requires BotFree(c, q.permits, q.tasks[e].runner, k.bot) > 0
    ensures Servable(c, q, k)
  {
    hide Servable;
    var step := AcquireBot(e);
    ServeClaiming(c, Apply(c, q, step), k, e);
    After(c, q, k, step);
  }

  lemma ServeWithBothFree(c: Config, q: Queue, k: Key, e: EntryId)
    requires EntryFor(q, k, e) && AtPhase(q, e, WaitGlobal) && k !in q.keys
    requires q.tasks[e].runner in q.permits.overall && q.permits.overall[q.tasks[e].runner] > 0
    requires BotFree(c, q.permits, q.tasks[e].runner, k.bot) > 0
    ensures Servable(c, q, k)
  {
    hide Servable;
    var step := AcquireGlobal(e);
    ServeWithBotFree(c, Apply(c, q, step), k, e);
    After(c, q, k, step);
  }

  lemma Newcomer(runners: set<Runner>) returns (r: Runner)
    ensures r !in runners
  {
    r := 0;
    var rest, below := runners, {};
    while r in rest
      invariant rest + below == runners && rest !! below && forall x <- below :: x < r
      decreases rest
    {
      rest, below := rest - {r}, below + {r};
      r := r + 1;
      var late := set x | x in rest && x < r;
      rest, below := rest - late, below + late;
    }
  }

  /** An unread entry goes to a runner that starts just now. */
  lemma ServeUnread(c: Config, q: Queue, k: Key, e: EntryId)
    requires Inv(c, q) && c.globalLimit > 0 && c.perBotLimit > 0
    requires EntryFor(q, k, e) && e in q.stream.unread && k !in q.keys
    ensures Servable(c, q, k)
  {
    hide Servable, AllEntriesOk, Progress, SkipsOk, DeadOk, CopiesOk, RootsOk, KeysOk, AllAlive, StreamOk;
    var r := Newcomer(q.permits.overall.Keys);
    assert BotOk(c, q, r, k.bot);
    hide PermitsOk;
    var started := Apply(c, q, StartRunner(r));
    ServeWithBothFree(c, Apply(c, started, Read(r, e)), k, e);
    After(c, started, k, Read(r, e));
    After(c, q, k, StartRunner(r));
  }

  lemma ServeRetrying(c: Config, q: Queue, k: Key, e: EntryId)
    requires Inv(c, q) && c.globalLimit > 0 && c.perBotLimit > 0
    requires EntryFor(q, k, e) && AtPhase(q, e, Retrying) && (k !in q.keys || WillDie(c, q, k, e))
    ensures Servable(c, q, k)
  {
    hide Servable;
    var step := Republish(e, Replied);
    var t := Apply(c, q, step);
    if WillDie(c, q, k, e) {
      AlreadyServed(c, t, k, e);
    } else {
      StepKeeps(c, q, step);
      hide Inv;
      ServeUnread(c, t, k, q.stream.nextId);
    }
    After(c, q, k, step);
  }

  lemma ServeFailed(c: Config, q: Queue, k: Key, e: EntryId)
    requires Inv(c, q) && c.globalLimit > 0 && c.perBotLimit > 0
    requires EntryFor(q, k, e) && AtPhase(q, e, Failed)
    ensures Servable(c, q, k)
  {
    hide Servable, Inv;
    var step := DeleteKey(e, Replied);
    StepKeeps(c, q, step);
    ServeRetrying(c, Apply(c, q, step), k, e);
    After(c, q, k, step);
  }

  // ----- making way -----

  /** A task that holds both permits can give up, and gives them back. */
  lemma GivesUp(c: Config, q: Queue, k: Key, h: EntryId)
    requires h in q.tasks && h in q.stream.entries
    requires q.tasks[h].phase != WaitGlobal && q.tasks[h].phase != WaitBot
    requires Servable(c, End(c, q, h), k)
    ensures Servable(c, q, k)
  {
    hide Servable;
    match q.tasks[h].phase
    case Claiming => After(c, q, k, SetOnce(h, NotSent));
    case Retrying => After(c, q, k, Republish(h, NotSent));
    case Failed => After(c, q, k, DeleteKey(h, NotSent));
    case Handling =>
      var failed := Move(q, h, Failed);
      assert End(c, failed, h) == End(c, q, h);
      After(c, failed, k, DeleteKey(h, NotSent));
      After(c, q, k, HandlerReturns(h, false));
    case _ => After(c, q, k, Ack(h, NotSent));
  }

  lemma GivingUpKeeps(c: Config, q: Queue, h: EntryId)
    requires Inv(c, q) && h in q.tasks && h in q.stream.entries
    requires q.tasks[h].phase != WaitGlobal && q.tasks[h].phase != WaitBot
    ensures Inv(c, End(c, q, h))
  {
    hide Inv;
    match q.tasks[h].phase
    case Claiming => StepKeeps(c, q, SetOnce(h, NotSent));
    case Retrying => StepKeeps(c, q, Republish(h, NotSent));
    case Failed => StepKeeps(c, q, DeleteKey(h, NotSent));
    case Handling =>
      var failed := Move(q, h, Failed);
      assert End(c, failed, h) == End(c, q, h);
      StepKeeps(c, q, HandlerReturns(h, false));
      StepKeeps(c, failed, DeleteKey(h, NotSent));
    case _ => StepKeeps(c, q, Ack(h, NotSent));
  }

  /** An entry waiting for its bot's permit: if there is none, one of those that hold one gives up. */
  lemma ServeWaitingBot(c: Config, q: Queue, k: Key, e: EntryId)
    requires Inv(c, q) && c.perBotLimit > 0
    requires EntryFor(q, k, e) && AtPhase(q, e, WaitBot) && k !in q.keys
    ensures Servable(c, q, k)
  {
    hide Servable, AllEntriesOk, Progress, SkipsOk, DeadOk, CopiesOk, RootsOk, KeysOk, AllAlive, StreamOk;
    var r := q.tasks[e].runner;
    if BotFree(c, q.permits, r, k.bot) > 0 {
      ServeWithBotFree(c, q, k, e);
    } else {
      assert r in q.permits.overall by { RunnerIsUp(c, q, e); }
      assert BotOk(c, q, r, k.bot);
      var h :| h in BotHolders(q, r, k.bot);
      hide PermitsOk;
      var t := End(c, q, h);
      ServeWithBotFree(c, t, k, e);
      GivesUp(c, q, k, h);
    }
  }

  lemma RunnerIsUp(c: Config, q: Queue, e: EntryId)
    requires Inv(c, q) && e in q.tasks
    ensures q.tasks[e].runner in q.permits.overall && e in q.stream.entries
  {
    hide AllEntriesOk, OutcomesOk, SkipsOk, DeadOk, CopiesOk, RootsOk, KeysOk, AllAlive, PermitsOk;
  }

  /** An entry waiting for a free global permit takes it and waits for its bot's. */
  lemma ServeWithGlobalFree(c: Config, q: Queue, k: Key, e: EntryId)
    requires Inv(c, q) && c.perBotLimit > 0 && EntryFor(q, k, e) && AtPhase(q, e, WaitGlobal) && k !in q.keys
    requires q.tasks[e].runner in q.permits.overall && q.permits.overall[q.tasks[e].runner] > 0
    ensures Servable(c, q, k)
  {
    hide Servable, Inv;
    var step := AcquireGlobal(e);
    StepKeeps(c, q, step);
    ServeWaitingBot(c, Apply(c, q, step), k, e);
    After(c, q, k, step);
  }

  /** If some task of the runner holds both permits, it makes way. */
  lemma ServeAfterHolder(c: Config, q: Queue, k: Key, e: EntryId, h: EntryId)
    requires Inv(c, q) && c.perBotLimit > 0 && EntryFor(q, k, e) && AtPhase(q, e, WaitGlobal) && k !in q.keys
    requires HoldsGlobal(q, q.tasks[e].runner, h) && q.tasks[h].phase != WaitBot
    ensures Servable(c, q, k)
  {
    hide Servable, Inv, BotFree;
    RunnerIsUp(c, q, e);
    RunnerIsUp(c, q, h);
    GivingUpKeeps(c, q, h);
    ServeWithGlobalFree(c, End(c, q, h), k, e);
    GivesUp(c, q, k, h);
  }

  /** Otherwise those that hold a global permit all wait for their bots', of which none is taken. */
  lemma ServeWaitingGlobal(c: Config, q: Queue, k: Key, e: EntryId)
    requires Inv(c, q) && c.globalLimit > 0 && c.perBotLimit > 0
    requires EntryFor(q, k, e) && AtPhase(q, e, WaitGlobal) && k !in q.keys
    ensures Servable(c, q, k)
  {
    hide Servable, AllEntriesOk, Progress, SkipsOk, DeadOk, CopiesOk, RootsOk, KeysOk, AllAlive, StreamOk;
    RunnerIsUp(c, q, e);
    var r := q.tasks[e].runner;
    if q.permits.overall[r] > 0 {
      ServeWithGlobalFree(c, q, k, e);
    } else if h :| HoldsGlobal(q, r, h) && q.tasks[h].phase != WaitBot {
      ServeAfterHolder(c, q, k, e, h);
    } else {
      assert GlobalOk(c, q, r);
      var w :| w in GlobalHolders(q, r);
      RunnerIsUp(c, q, w);
      assert BotOk(c, q, r, q.stream.entries[w].bot);
      assert BotHolders(q, r, q.stream.entries[w].bot) == {};
      var step := AcquireBot(w);
      StepKeeps(c, q, step);
      hide Inv;
      ServeAfterHolder(c, Apply(c, q, step), k, e, w);
      After(c, q, k, step);
    }
  }

  // ----- exactly when -----

  lemma LiveIsServable(c: Config, q: Queue, k: Key)
    requires Inv(c, q) && c.globalLimit > 0 && c.perBotLimit > 0 && Live(c, q, k)
    ensures Servable(c, q, k)
  {
    if k in q.keys && q.keys[k] in q.tasks {
      HolderServes(c, q, k);
    } else if k in q.keys {
      var e :| WillDie(c, q, k, e);
      ServeRetrying(c, q, k, e);
    } else {
      var e :| CanClaim(q, k, e);
      ClaimantServes(c, q, k, e);
    }
  }

  lemma HolderServes(c: Config, q: Queue, k: Key)
    requires Inv(c, q) && c.globalLimit > 0 && c.perBotLimit > 0 && k in q.keys && q.keys[k] in q.tasks
    ensures Servable(c, q, k)
  {
    hide Servable, AllEntriesOk, SkipsOk, DeadOk, CopiesOk, RootsOk, AllAlive, PermitsOk;
    var o := q.keys[k];
    assert KeyOk(q, k) && OutcomeOk(q.stream, q.history, o);
    match q.tasks[o].phase
    case Handling => ServeHandling(c, q, k, o);
    case Failed => ServeFailed(c, q, k, o);
    case _ => AlreadyServed(c, q, k, o);
  }

  lemma ClaimantServes(c: Config, q: Queue, k: Key, e: EntryId)
    requires Inv(c, q) && c.globalLimit > 0 && c.perBotLimit > 0 && k !in q.keys && CanClaim(q, k, e)
    ensures Servable(c, q, k)
  {
    hide Servable, Inv;
    if e in q.stream.unread {
      ServeUnread(c, q, k, e);
    } else if AtPhase(q, e, WaitGlobal) {
      ServeWaitingGlobal(c, q, k, e);
    } else if AtPhase(q, e, WaitBot) {
      ServeWaitingBot(c, q, k, e);
    } else if AtPhase(q, e, Claiming) {
      ServeClaiming(c, q, k, e);
    } else {
      ServeRetrying(c, q, k, e);
    }
  }

  /**
   Exactly when an update can still be served without being enqueued anew: it has been served, or the holder of its key
   is at work, or, its key being free, some entry of it can still set it; or some entry is about to be dead-lettered.
   */
  lemma ServableExactlyWhen(c: Config, q: Queue, k: Key)
    requires Reachable(c, q) && c.globalLimit > 0 && c.perBotLimit > 0
    ensures Servable(c, q, k) <==> Served(q, k) || Live(c, q, k)
  {
    ReachableHolds(c, q);
    hide Inv, Live, Reachable;
    if Served(q, k) {
      var e :| ServedBy(q, k, e);
      AlreadyServed(c, q, k, e);
    } else if Live(c, q, k) {
      LiveIsServable(c, q, k);
    } else if Servable(c, q, k) {
      var steps, t :| ServingRun(c, q, k, steps, t);
      StrandedForGood(c, q, k, steps, t);
    }
  }

  /** Exactly when any run at all serves it: all that bars even a new delivery is a key whose holder is gone. */
  lemma ServableAnewExactlyWhen(c: Config, q: Queue, k: Key)
    requires Reachable(c, q) && c.globalLimit > 0 && c.perBotLimit > 0 && c.partitions > 0
    ensures ServableAnew(c, q, k) <==> Served(q, k) || k !in q.keys || Live(c, q, k)
  {
    ReachableHolds(c, q);
    ServableExactlyWhen(c, q, k);
    hide Inv, Live, Reachable, Served;
    if Served(q, k) || Live(c, q, k) {
      var steps, t :| ServingRun(c, q, k, steps, t);
      assert RunServes(c, q, k, steps, t);
    } else if k !in q.keys {
      ServeAnew(c, q, k);
    } else if ServableAnew(c, q, k) {
      var steps, t :| RunServes(c, q, k, steps, t);
      StrandedForGood(c, q, k, steps, t);
    }
  }

  lemma ServeAnew(c: Config, q: Queue, k: Key)
    requires Inv(c, q) && c.globalLimit > 0 && c.perBotLimit > 0 && c.partitions > 0 && k !in q.keys
    ensures ServableAnew(c, q, k)
  {
    hide Inv, Served;
    var step := Enqueue(k.bot, k.update, "");
    var p := Apply(c, q, step);
    StepKeeps(c, q, step);
    ServeUnread(c, p, k, q.stream.nextId);
    var rest, end :| ServingRun(c, p, k, rest, end);
    var steps := [step] + rest;
    assert steps[1..] == rest;
    assert RunServes(c, q, k, steps, end);
  }
}
