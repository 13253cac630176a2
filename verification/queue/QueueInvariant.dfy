/** What holds in every state of the queue, whichever way runners interleave, crash, or lose replies. */
module QueueInvariant {
  import opened QueueModel

  // ----- streams -----

  ghost predicate StreamOk(c: Config, st: Stream) {
    && (forall e <- st.entries :: e < st.nextId)
    && st.entries.Keys == st.unread + st.pending + st.acked + st.trimmed
    && st.unread !! st.pending !! st.acked !! st.trimmed
  }

  /** Attempts stay below the limit, and every entry sits in its bot's partition. */
  ghost predicate EntryOk(c: Config, entry: Entry) {
    entry.attempt < MaxRuns(c) && c.partitions > 0 && entry.partition == c.hash(entry.bot) % c.partitions
  }

  ghost predicate AllEntriesOk(c: Config, st: Stream) {
    forall e <- st.entries :: EntryOk(c, st.entries[e])
  }

  // ----- tasks and outcomes -----

  predicate HasOutcome(h: History, e: EntryId) {
    e in h.handled || e in h.skipped || e in h.copies || e in h.dead
  }

  predicate PhaseFits(h: History, e: EntryId, phase: Phase) {
    match phase
    case WaitGlobal => e !in h.claimed && !HasOutcome(h, e)
    case WaitBot => e !in h.claimed && !HasOutcome(h, e)
    case Claiming => e !in h.claimed && !HasOutcome(h, e)
    case Skipping => e in h.skipped
    case Handling => e in h.claimed && e in h.entered && !HasOutcome(h, e)
    case Failed => e in h.claimed && e in h.entered && !HasOutcome(h, e)
    case Retrying => e in h.claimed && e in h.entered && !HasOutcome(h, e)
    case Succeeded => e in h.handled
    case Settled => e in h.copies || e in h.dead
  }

  ghost predicate TasksOk(q: Queue) {
    && q.tasks.Keys <= q.stream.pending
    && (forall e <- q.tasks :: PhaseFits(q.history, e, q.tasks[e].phase) && q.tasks[e].runner in q.permits.overall)
  }

  /** An entry has at most one outcome, and is acknowledged only with one. */
  predicate OutcomeOk(st: Stream, h: History, e: EntryId) {
    && (e in h.entered ==> e in h.claimed)
    && (e in h.handled ==> e in h.entered && e !in h.skipped && e !in h.copies && e !in h.dead)
    && (e in h.skipped ==> e !in h.claimed && e !in h.copies && e !in h.dead)
    && (e in h.copies ==> e in h.entered && e !in h.dead)
    && (e in h.dead ==> e in h.entered)
    && (e in h.claimed || e in h.skipped ==> e in st.pending || e in st.acked)
    && (e in st.acked ==> HasOutcome(h, e))
  }

  ghost predicate OutcomesOk(st: Stream, h: History) {
    forall e: EntryId :: OutcomeOk(st, h, e)
  }

  // ----- what outcomes mean -----

  /** A skipped entry was skipped for another that had set the same key. */
  predicate SkipOk(entries: map<EntryId, Entry>, h: History, e: EntryId) {
    e in h.skipped ==>
      && h.skipped[e] in h.claimed && h.skipped[e] != e
      && e in entries && h.skipped[e] in entries && KeyOf(entries[h.skipped[e]]) == KeyOf(entries[e])
  }

  ghost predicate SkipsOk(entries: map<EntryId, Entry>, h: History) {
    forall e: EntryId :: SkipOk(entries, h, e)
  }

  predicate DeathOk(c: Config, entries: map<EntryId, Entry>, dead: map<EntryId, DeadLetter>, e: EntryId) {
    e in dead ==>
      && e in entries && entries[e].attempt + 1 == MaxRuns(c)
      && dead[e] == DeadLetter(entries[e].bot, entries[e].update, entries[e].payload, MaxRuns(c))
  }

  ghost predicate DeadOk(c: Config, entries: map<EntryId, Entry>, dead: map<EntryId, DeadLetter>) {
    forall e: EntryId :: DeathOk(c, entries, dead, e)
  }

  /** A copy is the same update in the same partition, one attempt on, and of the same root. */
  predicate CopyOk(entries: map<EntryId, Entry>, h: History, e: EntryId) {
    e in h.copies ==>
      && e in entries && h.copies[e] in entries && e < h.copies[e]
      && entries[h.copies[e]] == entries[e].(attempt := entries[e].attempt + 1)
      && e in h.root && h.copies[e] in h.root && h.root[h.copies[e]] == h.root[e]
  }

  /** An entry is its own root at ingress, and otherwise somebody's copy. */
  predicate LineOk(entries: map<EntryId, Entry>, h: History, e: EntryId) {
    && (e in entries <==> e in h.root)
    && (e in entries ==> h.root[e] in entries)
    && (e in entries && entries[e].attempt == 0 ==> h.root[e] == e)
    && (e in entries && entries[e].attempt > 0 ==>
          e in h.parent && h.parent[e] in h.copies && h.copies[h.parent[e]] == e)
  }

  ghost predicate CopiesOk(entries: map<EntryId, Entry>, h: History) {
    && (forall e: EntryId :: CopyOk(entries, h, e))
    && (forall e: EntryId :: LineOk(entries, h, e))
  }

  /** Descendants of one entry are told apart by their attempt. */
  predicate Apart(entries: map<EntryId, Entry>, root: map<EntryId, EntryId>, a: EntryId, b: EntryId) {
    (&& a in entries && b in entries && a in root && b in root && root[a] == root[b]
     && entries[a].attempt == entries[b].attempt) ==>
      a == b
  }

  ghost predicate RootsOk(entries: map<EntryId, Entry>, root: map<EntryId, EntryId>) {
    forall a: EntryId, b: EntryId :: Apart(entries, root, a, b)
  }

  // ----- keys -----

  predicate Owning(phase: Phase) {
    phase == Handling || phase == Failed || phase == Succeeded
  }

  predicate KeyOk(q: Queue, k: Key) {
    k in q.keys ==>
      var o := q.keys[k];
      && o in q.stream.entries && KeyOf(q.stream.entries[o]) == k && o in q.history.claimed
      && (o in q.history.handled || !HasOutcome(q.history, o))
      && (o in q.tasks ==> Owning(q.tasks[o].phase))
  }

  predicate OwnsOk(q: Queue, e: EntryId) {
    (e in q.tasks && Owning(q.tasks[e].phase)) || e in q.history.handled ==>
      e in q.stream.entries && KeyOf(q.stream.entries[e]) in q.keys && q.keys[KeyOf(q.stream.entries[e])] == e
  }

  /** A key is held by an entry at its handler, or past it with Ok, and by every such entry. */
  ghost predicate KeysOk(q: Queue) {
    (forall k: Key :: KeyOk(q, k)) && (forall e: EntryId :: OwnsOk(q, e))
  }

  // ----- no update falls through -----

  ghost predicate Open(q: Queue, e: EntryId, k: Key) {
    e in q.stream.entries && KeyOf(q.stream.entries[e]) == k && !HasOutcome(q.history, e)
  }

  ghost predicate DeadFor(q: Queue, e: EntryId, k: Key) {
    e in q.stream.entries && KeyOf(q.stream.entries[e]) == k && e in q.history.dead
  }

  ghost predicate Alive(q: Queue, k: Key) {
    k in q.keys || (exists e :: Open(q, e, k)) || (exists e :: DeadFor(q, e, k))
  }

  ghost predicate AllAlive(q: Queue) {
    forall e <- q.stream.entries :: Alive(q, KeyOf(q.stream.entries[e]))
  }

  // ----- permits -----

  predicate HoldsGlobal(q: Queue, r: Runner, e: EntryId) {
    e in q.tasks && q.tasks[e].runner == r && q.tasks[e].phase != WaitGlobal
  }

  predicate HoldsBot(q: Queue, r: Runner, bot: Id, e: EntryId) {
    && HoldsGlobal(q, r, e) && q.tasks[e].phase != WaitBot
    && e in q.stream.entries && q.stream.entries[e].bot == bot
  }

  function GlobalHolders(q: Queue, r: Runner): set<EntryId> {
    set e | e in q.tasks && HoldsGlobal(q, r, e)
  }

  function BotHolders(q: Queue, r: Runner, bot: Id): set<EntryId> {
    set e | e in q.tasks && HoldsBot(q, r, bot, e)
  }

  ghost predicate GlobalOk(c: Config, q: Queue, r: Runner) {
    r in q.permits.overall ==> q.permits.overall[r] + |GlobalHolders(q, r)| == c.globalLimit
  }

  ghost predicate BotOk(c: Config, q: Queue, r: Runner, bot: Id) {
    && (r in q.permits.overall ==> BotFree(c, q.permits, r, bot) + |BotHolders(q, r, bot)| == c.perBotLimit)
    && ((r, bot) in q.permits.perBot ==> r in q.permits.overall)
  }

  /** No permit leaks: those left and those held make up each semaphore. */
  ghost predicate PermitsOk(c: Config, q: Queue) {
    (forall r: Runner :: GlobalOk(c, q, r)) && (forall r: Runner, bot: Id :: BotOk(c, q, r, bot))
  }

  // ----- what each step leaves alone -----

  ghost predicate Framed(q: Queue, t: Queue, step: Step) {
    && (!step.Enqueue? && !step.Republish? ==>
          && t.stream.entries == q.stream.entries && t.stream.nextId == q.stream.nextId
          && t.history.copies == q.history.copies && t.history.dead == q.history.dead
          && t.history.root == q.history.root && t.history.parent == q.history.parent)
    && (!step.SetOnce? ==> t.history.skipped == q.history.skipped && t.history.claimed == q.history.claimed
                           && t.history.entered == q.history.entered)
    && (!step.HandlerReturns? ==> t.history.handled == q.history.handled)
    && (!step.SetOnce? && !step.DeleteKey? ==> t.keys == q.keys)
  }

  lemma SetOnceFrame(c: Config, q: Queue, e: EntryId, outcome: Outcome)
    requires AtPhase(q, e, Claiming)
    ensures Framed(q, SetOnceStep(c, q, e, outcome), SetOnce(e, outcome))
  {
    hide Release, KeyOf;
  }

  lemma DeleteKeyFrame(c: Config, q: Queue, e: EntryId, outcome: Outcome)
    requires AtPhase(q, e, Failed)
    ensures Framed(q, DeleteKeyStep(c, q, e, outcome), DeleteKey(e, outcome))
  {
    hide Release, KeyOf;
  }

  lemma RepublishFrame(c: Config, q: Queue, e: EntryId, outcome: Outcome)
    requires AtPhase(q, e, Retrying)
    ensures Framed(q, RepublishStep(c, q, e, outcome), Republish(e, outcome))
  {
    hide Release, Append;
  }

  lemma Frame(c: Config, q: Queue, step: Step)
    requires Enabled(c, q, step)
    ensures Framed(q, Apply(c, q, step), step)
  {
    hide BotFree, Release, SetOnceStep, DeleteKeyStep, RepublishStep;
    match step
    case SetOnce(e, outcome) => SetOnceFrame(c, q, e, outcome);
    case DeleteKey(e, outcome) => DeleteKeyFrame(c, q, e, outcome);
    case Republish(e, outcome) => RepublishFrame(c, q, e, outcome);
    case _ =>
  }

  // ----- streams and entries -----

  lemma StreamUntouched(c: Config, q: Queue, step: Step)
    requires Enabled(c, q, step)
    requires step.StartRunner? || step.Crash? || step.AcquireGlobal? || step.AcquireBot? || step.SetOnce?
             || step.HandlerReturns? || step.DeleteKey?
    ensures Apply(c, q, step).stream == q.stream
  {
    hide Release, BotFree, KeyOf;
  }

  lemma RepublishStream(c: Config, q: Queue, e: EntryId, outcome: Outcome)
    requires StreamOk(c, q.stream) && AtPhase(q, e, Retrying)
    ensures StreamOk(c, RepublishStep(c, q, e, outcome).stream)
  {
    hide Release, MaxRuns;
  }

  lemma StreamKept(c: Config, q: Queue, step: Step)
    requires StreamOk(c, q.stream) && q.tasks.Keys <= q.stream.pending && Enabled(c, q, step)
    ensures StreamOk(c, Apply(c, q, step).stream)
  {
    match step
    case Enqueue(_, _, _) => hide KeyOf;
    case Trim(_) =>
    case Read(_, _) =>
    case ReadLost(_) =>
    case Republish(e, outcome) => RepublishStream(c, q, e, outcome);
    case Ack(_, _) => hide Release;
    case _ => StreamUntouched(c, q, step); hide Apply;
  }

  lemma EntriesKept(c: Config, q: Queue, step: Step)
    requires AllEntriesOk(c, q.stream) && Enabled(c, q, step)
    ensures AllEntriesOk(c, Apply(c, q, step).stream)
  {
    hide Release, BotFree;
    Frame(c, q, step);
    if !step.Enqueue? && !step.Republish? { hide Apply; }
  }

  // ----- tasks and outcomes -----

  ghost predicate Progress(q: Queue) {
    TasksOk(q) && OutcomesOk(q.stream, q.history)
  }

  lemma CrashProgress(q: Queue, r: Runner)
    requires Progress(q)
    ensures Progress(CrashStep(q, r))
  {

    var t := CrashStep(q, r);
    forall x ensures OutcomeOk(t.stream, t.history, x) { assert OutcomeOk(q.stream, q.history, x); }
  }

  /** Progress but for where the task `e` stands. */
  ghost predicate ReadyBut(q: Queue, e: EntryId) {
    && OutcomesOk(q.stream, q.history) && q.tasks.Keys <= q.stream.pending
    && (forall x <- q.tasks :: q.tasks[x].runner in q.permits.overall)
    && (forall x <- q.tasks :: x != e ==> PhaseFits(q.history, x, q.tasks[x].phase))
  }

  lemma ProceedProgress(c: Config, q: Queue, e: EntryId, outcome: Outcome, phase: Phase)
    requires e in q.tasks && e in q.stream.entries && ReadyBut(q, e)
    requires outcome == Replied ==> PhaseFits(q.history, e, phase)
    ensures Progress(Proceed(c, q, e, outcome, phase)) && Progress(End(c, q, e))
  {
    hide BotFree, OutcomesOk, PhaseFits;
  }

  lemma SetOnceProgress(c: Config, q: Queue, e: EntryId, outcome: Outcome)
    requires StreamOk(c, q.stream) && Progress(q) && AtPhase(q, e, Claiming)
    ensures Progress(SetOnceStep(c, q, e, outcome))
  {
    var key := KeyOf(q.stream.entries[e]);
    assert OutcomeOk(q.stream, q.history, e);
    if outcome == NotSent || (key in q.keys && outcome == ReplyLost) {
      ProceedProgress(c, q, e, outcome, Claiming);
    } else if key !in q.keys {
      var t := Claimed(q, e, outcome == Replied);
      forall x ensures OutcomeOk(t.stream, t.history, x) { assert OutcomeOk(q.stream, q.history, x); }
      ProceedProgress(c, t, e, outcome, Handling);
    } else {
      var t := q.(history := q.history.(skipped := q.history.skipped[e := q.keys[key]]));
      forall x ensures OutcomeOk(t.stream, t.history, x) { assert OutcomeOk(q.stream, q.history, x); }
      ProceedProgress(c, t, e, outcome, Skipping);
    }
  }

  lemma HandlerProgress(c: Config, q: Queue, e: EntryId, ok: bool)
    requires StreamOk(c, q.stream) && Progress(q) && AtPhase(q, e, Handling)
    ensures Progress(HandlerReturnsStep(q, e, ok))
  {

    var t := HandlerReturnsStep(q, e, ok);
    assert OutcomeOk(q.stream, q.history, e);
    forall x ensures OutcomeOk(t.stream, t.history, x) { assert OutcomeOk(q.stream, q.history, x); }
  }

  lemma DeleteKeyProgress(c: Config, q: Queue, e: EntryId, outcome: Outcome)
    requires Progress(q) && AtPhase(q, e, Failed)
    ensures Progress(DeleteKeyStep(c, q, e, outcome))
  {
    hide BotFree;
    var t := DeleteKeyStep(c, q, e, outcome);
    assert OutcomeOk(q.stream, q.history, e);
    forall x ensures OutcomeOk(t.stream, t.history, x) { assert OutcomeOk(q.stream, q.history, x); }
  }

  lemma DeadLetteredReady(q: Queue, e: EntryId)
    requires Progress(q) && AtPhase(q, e, Retrying)
    ensures ReadyBut(DeadLettered(q, e), e) && PhaseFits(DeadLettered(q, e).history, e, Settled)
  {
    var t := DeadLettered(q, e);
    forall x ensures OutcomeOk(t.stream, t.history, x) { assert OutcomeOk(q.stream, q.history, x); }
  }

  lemma CopiedReady(q: Queue, e: EntryId)
    requires Progress(q) && AtPhase(q, e, Retrying)
    ensures ReadyBut(Copied(q, e), e) && PhaseFits(Copied(q, e).history, e, Settled)
  {
    var t := Copied(q, e);
    forall x ensures OutcomeOk(t.stream, t.history, x) { assert OutcomeOk(q.stream, q.history, x); }
  }

  lemma RepublishProgress(c: Config, q: Queue, e: EntryId, outcome: Outcome)
    requires Progress(q) && AtPhase(q, e, Retrying)
    ensures Progress(RepublishStep(c, q, e, outcome))
  {
    if outcome == NotSent {
      ProceedProgress(c, q, e, outcome, Retrying);
    } else {
      DeadLetteredReady(q, e);
      CopiedReady(q, e);
      hide Progress, ReadyBut, Proceed;
      ProceedProgress(c, DeadLettered(q, e), e, outcome, Settled);
      ProceedProgress(c, Copied(q, e), e, outcome, Settled);
    }
  }

  lemma AckProgress(c: Config, q: Queue, e: EntryId, outcome: Outcome)
    requires StreamOk(c, q.stream) && Progress(q) && Enabled(c, q, Ack(e, outcome))
    ensures Progress(AckStep(c, q, e, outcome))
  {
    hide BotFree;
    var t := AckStep(c, q, e, outcome);
    assert OutcomeOk(q.stream, q.history, e);
    forall x ensures OutcomeOk(t.stream, t.history, x) { assert OutcomeOk(q.stream, q.history, x); }
  }

  lemma OtherProgress(c: Config, q: Queue, step: Step)
    requires StreamOk(c, q.stream) && Progress(q) && Enabled(c, q, step)
    requires step.Enqueue? || step.Trim? || step.StartRunner? || step.Read? || step.ReadLost?
             || step.AcquireGlobal? || step.AcquireBot?
    ensures Progress(Apply(c, q, step))
  {
    hide BotFree, CrashStep, SetOnceStep, HandlerReturnsStep, DeleteKeyStep, RepublishStep, AckStep;
    var t := Apply(c, q, step);
    assert step.Read? ==> OutcomeOk(q.stream, q.history, step.entry);
    forall x ensures OutcomeOk(t.stream, t.history, x) { assert OutcomeOk(q.stream, q.history, x); }
  }

  lemma ProgressKept(c: Config, q: Queue, step: Step)
    requires StreamOk(c, q.stream) && Progress(q) && Enabled(c, q, step)
    ensures Progress(Apply(c, q, step))
  {
    hide Progress;
    match step
    case Crash(r) => CrashProgress(q, r);
    case SetOnce(e, outcome) => SetOnceProgress(c, q, e, outcome);
    case HandlerReturns(e, ok) => HandlerProgress(c, q, e, ok);
    case DeleteKey(e, outcome) => DeleteKeyProgress(c, q, e, outcome);
    case Republish(e, outcome) => RepublishProgress(c, q, e, outcome);
    case Ack(e, outcome) => AckProgress(c, q, e, outcome);
    case _ => OtherProgress(c, q, step);
  }

  // ----- what outcomes mean -----

  lemma SetOnceSkips(c: Config, q: Queue, e: EntryId, outcome: Outcome)
    requires SkipsOk(q.stream.entries, q.history) && KeysOk(q) && AtPhase(q, e, Claiming)
    requires OutcomesOk(q.stream, q.history) && e !in q.history.claimed
    ensures var t := SetOnceStep(c, q, e, outcome);
            SkipsOk(t.stream.entries, t.history)
  {
    var t, key := SetOnceStep(c, q, e, outcome), KeyOf(q.stream.entries[e]);
    assert KeyOk(q, key);
    hide KeysOk, Release, OutcomesOk;
    forall x ensures SkipOk(t.stream.entries, t.history, x) { assert SkipOk(q.stream.entries, q.history, x); }
  }

  lemma RepublishSkips(c: Config, q: Queue, e: EntryId, outcome: Outcome)
    requires StreamOk(c, q.stream) && SkipsOk(q.stream.entries, q.history) && AtPhase(q, e, Retrying)
    ensures var t := RepublishStep(c, q, e, outcome);
            SkipsOk(t.stream.entries, t.history)
  {
    var t := RepublishStep(c, q, e, outcome);
    hide Release, MaxRuns;
    forall x ensures SkipOk(t.stream.entries, t.history, x) { assert SkipOk(q.stream.entries, q.history, x); }
  }

  lemma SkipsKept(c: Config, q: Queue, step: Step)
    requires StreamOk(c, q.stream) && SkipsOk(q.stream.entries, q.history)
    requires KeysOk(q) && Progress(q) && Enabled(c, q, step)
    ensures var t := Apply(c, q, step);
            SkipsOk(t.stream.entries, t.history)
  {
    var t := Apply(c, q, step);
    Frame(c, q, step);
    if step.SetOnce? {
      SetOnceSkips(c, q, step.entry, step.outcome);
    } else if step.Republish? {
      RepublishSkips(c, q, step.entry, step.outcome);
    } else {
      if !step.Enqueue? { hide Apply; }
      hide KeysOk, Progress;
      forall e ensures SkipOk(t.stream.entries, t.history, e) { assert SkipOk(q.stream.entries, q.history, e); }
    }
  }

  /** Going on or ending leaves streams, keys and history. */
  lemma ProceedLeaves(c: Config, q: Queue, e: EntryId, outcome: Outcome, phase: Phase)
    requires e in q.tasks && e in q.stream.entries
    ensures var t := Proceed(c, q, e, outcome, phase);
            t.stream == q.stream && t.keys == q.keys && t.history == q.history
    ensures var t := End(c, q, e);
            t.stream == q.stream && t.keys == q.keys && t.history == q.history
  {
    hide Release;
  }

  lemma DeadAfterDeath(c: Config, q: Queue, e: EntryId)
    requires DeadOk(c, q.stream.entries, q.history.dead) && e in q.stream.entries
    requires q.stream.entries[e].attempt + 1 == MaxRuns(c)
    ensures DeadOk(c, DeadLettered(q, e).stream.entries, DeadLettered(q, e).history.dead)
  {
    var t := DeadLettered(q, e);
    forall x ensures DeathOk(c, t.stream.entries, t.history.dead, x) {
      assert DeathOk(c, q.stream.entries, q.history.dead, x);
    }
  }

  lemma DeadAfterCopy(c: Config, q: Queue, e: EntryId)
    requires StreamOk(c, q.stream) && DeadOk(c, q.stream.entries, q.history.dead) && e in q.stream.entries
    ensures DeadOk(c, Copied(q, e).stream.entries, Copied(q, e).history.dead)
  {
    var t := Copied(q, e);
    forall x ensures DeathOk(c, t.stream.entries, t.history.dead, x) {
      assert DeathOk(c, q.stream.entries, q.history.dead, x);
    }
  }

  lemma RepublishDead(c: Config, q: Queue, e: EntryId, outcome: Outcome)
    requires StreamOk(c, q.stream) && AllEntriesOk(c, q.stream) && DeadOk(c, q.stream.entries, q.history.dead)
    requires AtPhase(q, e, Retrying)
    ensures var t := RepublishStep(c, q, e, outcome);
            DeadOk(c, t.stream.entries, t.history.dead)
  {
    assert EntryOk(c, q.stream.entries[e]);
    hide DeadOk, StreamOk, Proceed, End;
    ProceedLeaves(c, q, e, outcome, Settled);
    if q.stream.entries[e].attempt + 1 >= c.maxAttempts {
      DeadAfterDeath(c, q, e);
      ProceedLeaves(c, DeadLettered(q, e), e, outcome, Settled);
    } else {
      DeadAfterCopy(c, q, e);
      ProceedLeaves(c, Copied(q, e), e, outcome, Settled);
    }
  }

  lemma DeadKept(c: Config, q: Queue, step: Step)
    requires StreamOk(c, q.stream) && AllEntriesOk(c, q.stream) && DeadOk(c, q.stream.entries, q.history.dead)
    requires Enabled(c, q, step)
    ensures var t := Apply(c, q, step);
            DeadOk(c, t.stream.entries, t.history.dead)
  {
    Frame(c, q, step);
    var t := Apply(c, q, step);
    if step.Republish? {
      RepublishDead(c, q, step.entry, step.outcome);
    } else if step.Enqueue? {
      forall x ensures DeathOk(c, t.stream.entries, t.history.dead, x) {
        assert DeathOk(c, q.stream.entries, q.history.dead, x);
      }
    }
  }

  lemma CopiesAfterEnqueue(st: Stream, c: Config, h: History, entry: Entry)
    requires StreamOk(c, st) && CopiesOk(st.entries, h) && entry.attempt == 0
    ensures CopiesOk(Append(st, entry).entries, h.(root := h.root[st.nextId := st.nextId]))
  {
    var entries, after := Append(st, entry).entries, h.(root := h.root[st.nextId := st.nextId]);
    assert st.nextId !in st.entries;
    forall e ensures CopyOk(entries, after, e) { assert CopyOk(st.entries, h, e); }
    forall e ensures LineOk(entries, after, e) { assert LineOk(st.entries, h, e); }
  }

  lemma CopiesAfterCopy(c: Config, q: Queue, e: EntryId)
    requires StreamOk(c, q.stream) && CopiesOk(q.stream.entries, q.history)
    requires e in q.stream.entries && e !in q.history.copies
    ensures CopiesOk(Copied(q, e).stream.entries, Copied(q, e).history)
  {
    var t := Copied(q, e);
    assert q.stream.nextId !in q.stream.entries;
    assert LineOk(q.stream.entries, q.history, e);
    forall x ensures CopyOk(t.stream.entries, t.history, x) { assert CopyOk(q.stream.entries, q.history, x); }
    forall x ensures LineOk(t.stream.entries, t.history, x) {
      assert LineOk(q.stream.entries, q.history, x);
      if x in q.stream.entries && q.stream.entries[x].attempt > 0 {
        assert q.history.parent[x] != e;
      }
    }
  }

  lemma CopiesKept(c: Config, q: Queue, step: Step)
    requires StreamOk(c, q.stream) && Progress(q) && CopiesOk(q.stream.entries, q.history) && Enabled(c, q, step)
    ensures var t := Apply(c, q, step);
            CopiesOk(t.stream.entries, t.history)
  {
    Frame(c, q, step);
    if step.Enqueue? {
      CopiesAfterEnqueue(q.stream, c, q.history,
                         Entry(step.bot, step.update, step.payload, 0, c.hash(step.bot) % c.partitions));
    } else if step.Republish? {
      assert OutcomeOk(q.stream, q.history, step.entry);
      CopiesAfterCopy(c, q, step.entry);
      CopiesAfterDeath(q, step.entry);
    } else {
      CopiesFrame(q.stream.entries, q.history, Apply(c, q, step).history);
    }
  }

  lemma CopiesFrame(entries: map<EntryId, Entry>, h: History, after: History)
    requires CopiesOk(entries, h) && after.copies == h.copies && after.root == h.root && after.parent == h.parent
    ensures CopiesOk(entries, after)
  {
    forall e ensures CopyOk(entries, after, e) { assert CopyOk(entries, h, e); }
    forall e ensures LineOk(entries, after, e) { assert LineOk(entries, h, e); }
  }

  lemma CopiesAfterDeath(q: Queue, e: EntryId)
    requires CopiesOk(q.stream.entries, q.history) && e in q.stream.entries
    ensures CopiesOk(DeadLettered(q, e).stream.entries, DeadLettered(q, e).history)
  {
    CopiesFrame(q.stream.entries, q.history, DeadLettered(q, e).history);
  }

  lemma RootsAfterEnqueue(st: Stream, c: Config, h: History, entry: Entry)
    requires StreamOk(c, st) && CopiesOk(st.entries, h) && RootsOk(st.entries, h.root) && entry.attempt == 0
    ensures RootsOk(Append(st, entry).entries, h.root[st.nextId := st.nextId])
  {
    var entries, root := Append(st, entry).entries, h.root[st.nextId := st.nextId];
    forall a, b ensures Apart(entries, root, a, b) {
      assert Apart(st.entries, h.root, a, b);
      assert LineOk(st.entries, h, a) && LineOk(st.entries, h, b);
    }
  }

  lemma RootsAfterCopy(c: Config, q: Queue, e: EntryId)
    requires StreamOk(c, q.stream) && CopiesOk(q.stream.entries, q.history) && RootsOk(q.stream.entries, q.history.root)
    requires e in q.stream.entries && e !in q.history.copies
    ensures RootsOk(Copied(q, e).stream.entries, Copied(q, e).history.root)
  {
    var t := Copied(q, e);
    forall a, b ensures Apart(t.stream.entries, t.history.root, a, b) {
      assert Apart(q.stream.entries, q.history.root, a, b);
      OnlyCopy(q, e, a);
      OnlyCopy(q, e, b);
      assert LineOk(q.stream.entries, q.history, a) && LineOk(q.stream.entries, q.history, b);
      assert LineOk(q.stream.entries, q.history, e);
    }
  }

  /** Before it is copied, no entry of its root stands one attempt after it. */
  lemma OnlyCopy(q: Queue, e: EntryId, a: EntryId)
    requires CopiesOk(q.stream.entries, q.history) && RootsOk(q.stream.entries, q.history.root)
    requires e in q.stream.entries && e !in q.history.copies
    ensures a in q.stream.entries && e in q.history.root && a in q.history.root
            && q.history.root[a] == q.history.root[e] ==>
              q.stream.entries[a].attempt != q.stream.entries[e].attempt + 1
  {
    var entries, h := q.stream.entries, q.history;
    assert LineOk(entries, h, a) && LineOk(entries, h, e);
    if a in entries && entries[a].attempt > 0 {
      var p := h.parent[a];
      assert CopyOk(entries, h, p);
      assert Apart(entries, h.root, p, e);
    }
  }

  lemma RootsKept(c: Config, q: Queue, step: Step)
    requires StreamOk(c, q.stream) && Progress(q) && Enabled(c, q, step)
    requires CopiesOk(q.stream.entries, q.history) && RootsOk(q.stream.entries, q.history.root)
    ensures var t := Apply(c, q, step);
            RootsOk(t.stream.entries, t.history.root)
  {
    Frame(c, q, step);
    if step.Enqueue? {
      RootsAfterEnqueue(q.stream, c, q.history,
                        Entry(step.bot, step.update, step.payload, 0, c.hash(step.bot) % c.partitions));
    } else if step.Republish? {
      assert OutcomeOk(q.stream, q.history, step.entry);
      RootsAfterCopy(c, q, step.entry);
    }
  }

  // ----- keys -----

  /** What a step may do to tasks and outcomes without touching keys or the owner of one. */
  lemma KeysCarry(q: Queue, t: Queue)
    requires KeysOk(q) && t.keys == q.keys && t.history.handled == q.history.handled
    requires q.history.claimed <= t.history.claimed
    requires forall e <- q.stream.entries :: e in t.stream.entries && t.stream.entries[e] == q.stream.entries[e]
    requires forall e <- q.history.claimed :: HasOutcome(t.history, e) && !HasOutcome(q.history, e) ==>
               e in q.tasks && !Owning(q.tasks[e].phase)
    requires forall e <- t.tasks :: Owning(t.tasks[e].phase) ==> e in q.tasks && Owning(q.tasks[e].phase)
    requires forall e <- t.tasks :: e in q.history.claimed && !Owning(t.tasks[e].phase) ==>
               e in q.tasks && !Owning(q.tasks[e].phase)
    ensures KeysOk(t)
  {
    forall k ensures KeyOk(t, k) { assert KeyOk(q, k); }
    forall e ensures OwnsOk(t, e) { assert OwnsOk(q, e); }
  }

  lemma EndKeys(c: Config, q: Queue, e: EntryId)
    requires KeysOk(q) && e in q.tasks && e in q.stream.entries
    ensures KeysOk(End(c, q, e))
  {
    hide KeysOk, Release;
    KeysCarry(q, End(c, q, e));
  }

  /** The key was free; the claimant goes on to its handler or, not hearing of it, ends. */
  lemma ClaimKeys(c: Config, q: Queue, e: EntryId, outcome: Outcome)
    requires KeysOk(q) && Progress(q) && AtPhase(q, e, Claiming) && KeyOf(q.stream.entries[e]) !in q.keys
    ensures KeysOk(Proceed(c, Claimed(q, e, outcome == Replied), e, outcome, Handling))
  {
    var t := Proceed(c, Claimed(q, e, outcome == Replied), e, outcome, Handling);
    assert OutcomeOk(q.stream, q.history, e);
    hide Release, Progress;
    forall k ensures KeyOk(t, k) { assert KeyOk(q, k); }
    forall x ensures OwnsOk(t, x) { assert OwnsOk(q, x); }
  }

  lemma SkipKeys(c: Config, q: Queue, e: EntryId, holder: EntryId)
    requires KeysOk(q) && Progress(q) && AtPhase(q, e, Claiming)
    ensures KeysOk(Move(q.(history := q.history.(skipped := q.history.skipped[e := holder])), e, Skipping))
  {
    assert OutcomeOk(q.stream, q.history, e);
    hide KeysOk, Progress;
    KeysCarry(q, Move(q.(history := q.history.(skipped := q.history.skipped[e := holder])), e, Skipping));
  }

  lemma SetOnceKeys(c: Config, q: Queue, e: EntryId, outcome: Outcome)
    requires KeysOk(q) && Progress(q) && AtPhase(q, e, Claiming)
    ensures KeysOk(SetOnceStep(c, q, e, outcome))
  {
    hide KeysOk, Progress, End, Move, Proceed, Claimed;
    var key := KeyOf(q.stream.entries[e]);
    EndKeys(c, q, e);
    if key in q.keys {
      SkipKeys(c, q, e, q.keys[key]);
    } else {
      ClaimKeys(c, q, e, outcome);
    }
  }

  lemma HandlerKeys(c: Config, q: Queue, e: EntryId, ok: bool)
    requires KeysOk(q) && AtPhase(q, e, Handling)
    ensures KeysOk(HandlerReturnsStep(q, e, ok))
  {
    var t := HandlerReturnsStep(q, e, ok);
    assert OwnsOk(q, e);
    forall k ensures KeyOk(t, k) { assert KeyOk(q, k); }
    forall x ensures OwnsOk(t, x) { assert OwnsOk(q, x); }
  }

  lemma DeleteKeyKeys(c: Config, q: Queue, e: EntryId, outcome: Outcome)
    requires KeysOk(q) && Progress(q) && AtPhase(q, e, Failed)
    ensures KeysOk(DeleteKeyStep(c, q, e, outcome))
  {
    var t := DeleteKeyStep(c, q, e, outcome);
    assert OwnsOk(q, e);
    hide BotFree, Release;
    forall k ensures KeyOk(t, k) { assert KeyOk(q, k); }
    forall x ensures OwnsOk(t, x) { assert OwnsOk(q, x); }
  }

  lemma RepublishKeys(c: Config, q: Queue, e: EntryId, outcome: Outcome)
    requires StreamOk(c, q.stream) && KeysOk(q) && AtPhase(q, e, Retrying)
    ensures KeysOk(RepublishStep(c, q, e, outcome))
  {
    hide KeysOk, Release, MaxRuns;
    KeysCarry(q, RepublishStep(c, q, e, outcome));
  }

  lemma AckKeys(c: Config, q: Queue, e: EntryId, outcome: Outcome)
    requires KeysOk(q) && Enabled(c, q, Ack(e, outcome))
    ensures KeysOk(AckStep(c, q, e, outcome))
  {
    hide KeysOk, Release;
    KeysCarry(q, AckStep(c, q, e, outcome));
  }

  lemma OtherKeys(c: Config, q: Queue, step: Step)
    requires StreamOk(c, q.stream) && Progress(q) && KeysOk(q) && Enabled(c, q, step)
    requires !step.SetOnce? && !step.HandlerReturns? && !step.DeleteKey? && !step.Republish? && !step.Ack?
    ensures KeysOk(Apply(c, q, step))
  {
    hide KeysOk, BotFree;
    assert step.Read? ==> OutcomeOk(q.stream, q.history, step.entry);
    KeysCarry(q, Apply(c, q, step));
  }

  lemma KeysKept(c: Config, q: Queue, step: Step)
    requires StreamOk(c, q.stream) && Progress(q) && KeysOk(q) && Enabled(c, q, step)
    ensures KeysOk(Apply(c, q, step))
  {
    hide KeysOk;
    match step
    case SetOnce(e, outcome) => SetOnceKeys(c, q, e, outcome);
    case HandlerReturns(e, ok) => HandlerKeys(c, q, e, ok);
    case DeleteKey(e, outcome) => DeleteKeyKeys(c, q, e, outcome);
    case Republish(e, outcome) => RepublishKeys(c, q, e, outcome);
    case Ack(e, outcome) => AckKeys(c, q, e, outcome);
    case _ => OtherKeys(c, q, step);
  }

  // ----- no update falls through -----

  lemma AliveCarry(q: Queue, t: Queue)
    requires AllAlive(q) && q.keys.Keys <= t.keys.Keys
    requires forall e <- q.stream.entries :: e in t.stream.entries && t.stream.entries[e] == q.stream.entries[e]
    requires forall e <- t.stream.entries :: e !in q.stream.entries ==> !HasOutcome(t.history, e)
    requires forall e <- q.stream.entries :: HasOutcome(t.history, e) && !HasOutcome(q.history, e) ==>
               Alive(t, KeyOf(q.stream.entries[e]))
    requires forall e <- q.history.dead :: e in t.history.dead
    ensures AllAlive(t)
  {
    forall e <- t.stream.entries ensures Alive(t, KeyOf(t.stream.entries[e])) {
      var k := KeyOf(t.stream.entries[e]);
      if e !in q.stream.entries {
        assert Open(t, e, k);
      } else if k !in q.keys {
        assert Alive(q, k);
        if x :| Open(q, x, k) {
          assert HasOutcome(t.history, x) || Open(t, x, k);
        } else {
          var x :| DeadFor(q, x, k);
          assert DeadFor(t, x, k);
        }
      }
    }
  }

  lemma DeleteKeyAlive(c: Config, q: Queue, e: EntryId, outcome: Outcome)
    requires AllAlive(q) && Progress(q) && AtPhase(q, e, Failed)
    ensures AllAlive(DeleteKeyStep(c, q, e, outcome))
  {
    var t := DeleteKeyStep(c, q, e, outcome);
    assert Open(t, e, KeyOf(q.stream.entries[e]));
    forall x <- t.stream.entries ensures Alive(t, KeyOf(t.stream.entries[x])) {
      var k := KeyOf(t.stream.entries[x]);
      assert Alive(q, k);
      if k !in q.keys {
        if y :| Open(q, y, k) {
          assert Open(t, y, k);
        } else {
          var y :| DeadFor(q, y, k);
          assert DeadFor(t, y, k);
        }
      }
    }
  }

  lemma AliveAfterDeath(q: Queue, e: EntryId)
    requires AllAlive(q) && e in q.stream.entries
    ensures AllAlive(DeadLettered(q, e))
  {
    hide AllAlive;
    assert DeadFor(DeadLettered(q, e), e, KeyOf(q.stream.entries[e]));
    AliveCarry(q, DeadLettered(q, e));
  }

  lemma AliveAfterCopy(c: Config, q: Queue, e: EntryId)
    requires StreamOk(c, q.stream) && OutcomesOk(q.stream, q.history) && AllAlive(q) && e in q.stream.entries
    ensures AllAlive(Copied(q, e))
  {
    var t, id := Copied(q, e), q.stream.nextId;
    assert OutcomeOk(q.stream, q.history, id) && id !in q.stream.entries && id != e;
    hide AllAlive, OutcomesOk;
    assert Open(t, id, KeyOf(q.stream.entries[e]));
    AliveCarry(q, t);
  }

  lemma AliveSame(q: Queue, t: Queue)
    requires AllAlive(q) && t.stream == q.stream && t.keys == q.keys && t.history == q.history
    ensures AllAlive(t)
  {
    hide AllAlive;
    AliveCarry(q, t);
  }

  lemma RepublishAlive(c: Config, q: Queue, e: EntryId, outcome: Outcome)
    requires StreamOk(c, q.stream) && Progress(q) && AllAlive(q) && AtPhase(q, e, Retrying)
    ensures AllAlive(RepublishStep(c, q, e, outcome))
  {
    hide AllAlive, StreamOk, OutcomesOk, Proceed, End, DeadLettered, Copied;
    var dead, copied := DeadLettered(q, e), Copied(q, e);
    if outcome == NotSent {
      ProceedLeaves(c, q, e, outcome, Settled);
      AliveSame(q, End(c, q, e));
    } else if q.stream.entries[e].attempt + 1 >= c.maxAttempts {
      AliveAfterDeath(q, e);
      DeathKeepsTask(q, e);
      ProceedLeaves(c, dead, e, outcome, Settled);
      AliveSame(dead, Proceed(c, dead, e, outcome, Settled));
    } else {
      AliveAfterCopy(c, q, e);
      CopyKeepsTask(c, q, e);
      ProceedLeaves(c, copied, e, outcome, Settled);
      AliveSame(copied, Proceed(c, copied, e, outcome, Settled));
    }
  }

  lemma DeathKeepsTask(q: Queue, e: EntryId)
    requires e in q.tasks && e in q.stream.entries
    ensures e in DeadLettered(q, e).tasks && e in DeadLettered(q, e).stream.entries
  {
  }

  lemma CopyKeepsTask(c: Config, q: Queue, e: EntryId)
    requires e in q.tasks && e in q.stream.entries
    ensures e in Copied(q, e).tasks && e in Copied(q, e).stream.entries
  {
  }

  lemma TaskStepAlive(c: Config, q: Queue, step: Step)
    requires Progress(q) && KeysOk(q) && AllAlive(q) && Enabled(c, q, step)
    requires step.SetOnce? || step.HandlerReturns? || step.Ack?
    ensures AllAlive(Apply(c, q, step))
  {
    hide AllAlive, Release, KeysOk;
    Frame(c, q, step);
    var e := step.entry;
    assert OwnsOk(q, e) by { OwnsNow(q, e); }
    AliveCarry(q, Apply(c, q, step));
  }

  lemma OwnsNow(q: Queue, e: EntryId)
    requires KeysOk(q)
    ensures OwnsOk(q, e)
  {
  }

  lemma OtherAlive(c: Config, q: Queue, step: Step)
    requires StreamOk(c, q.stream) && Progress(q) && AllAlive(q) && Enabled(c, q, step)
    requires !step.SetOnce? && !step.HandlerReturns? && !step.DeleteKey? && !step.Republish? && !step.Ack?
    ensures AllAlive(Apply(c, q, step))
  {
    hide AllAlive, BotFree;
    assert OutcomeOk(q.stream, q.history, q.stream.nextId);
    AliveCarry(q, Apply(c, q, step));
  }

  lemma AliveKept(c: Config, q: Queue, step: Step)
    requires StreamOk(c, q.stream) && Progress(q) && KeysOk(q) && AllAlive(q) && Enabled(c, q, step)
    ensures AllAlive(Apply(c, q, step))
  {
    hide AllAlive, KeysOk, Progress;
    match step
    case DeleteKey(e, outcome) => DeleteKeyAlive(c, q, e, outcome);
    case Republish(e, outcome) => RepublishAlive(c, q, e, outcome);
    case SetOnce(_, _) => TaskStepAlive(c, q, step);
    case HandlerReturns(_, _) => TaskStepAlive(c, q, step);
    case Ack(_, _) => TaskStepAlive(c, q, step);
    case _ => OtherAlive(c, q, step);
  }

  // ----- permits -----

  lemma GlobalsCarry(c: Config, q: Queue, t: Queue)
    requires PermitsOk(c, q) && t.permits.overall == q.permits.overall
    requires forall r, e :: HoldsGlobal(t, r, e) == HoldsGlobal(q, r, e)
    ensures forall r :: GlobalOk(c, t, r)
  {
    forall r ensures GlobalOk(c, t, r) {
      assert GlobalOk(c, q, r);
      assert GlobalHolders(t, r) == GlobalHolders(q, r);
    }
  }

  lemma BotsCarry(c: Config, q: Queue, t: Queue)
    requires PermitsOk(c, q) && t.permits.perBot == q.permits.perBot && t.permits.overall.Keys == q.permits.overall.Keys
    requires forall r, bot, e :: HoldsBot(t, r, bot, e) == HoldsBot(q, r, bot, e)
    ensures forall r, bot :: BotOk(c, t, r, bot)
  {
    forall r, bot ensures BotOk(c, t, r, bot) {
      assert BotOk(c, q, r, bot);
      assert BotHolders(t, r, bot) == BotHolders(q, r, bot);
    }
  }

  lemma PermitsCarry(c: Config, q: Queue, t: Queue)
    requires PermitsOk(c, q) && t.permits == q.permits
    requires forall r, e :: HoldsGlobal(t, r, e) == HoldsGlobal(q, r, e)
    requires forall r, bot, e :: HoldsBot(t, r, bot, e) == HoldsBot(q, r, bot, e)
    ensures PermitsOk(c, t)
  {
    GlobalsCarry(c, q, t);
    BotsCarry(c, q, t);
  }

  lemma AcquireGlobalPermits(c: Config, q: Queue, e: EntryId)
    requires PermitsOk(c, q) && Enabled(c, q, AcquireGlobal(e))
    ensures PermitsOk(c, AcquireGlobalStep(q, e))
  {
    var t, mine := AcquireGlobalStep(q, e), q.tasks[e].runner;
    forall r ensures GlobalOk(c, t, r) {
      assert GlobalOk(c, q, r);
      assert GlobalHolders(t, r) == GlobalHolders(q, r) + (if r == mine then {e} else {});
    }
    BotsCarry(c, q, t);
  }

  lemma AcquireBotHolders(c: Config, q: Queue, e: EntryId, r: Runner, bot: Id)
    requires Enabled(c, q, AcquireBot(e))
    ensures var mine := r == q.tasks[e].runner && bot == q.stream.entries[e].bot;
            BotHolders(AcquireBotStep(c, q, e), r, bot) == BotHolders(q, r, bot) + (if mine then {e} else {})
  {
    hide BotFree;
  }

  lemma AcquireBotPermits(c: Config, q: Queue, e: EntryId)
    requires PermitsOk(c, q) && TasksOk(q) && Enabled(c, q, AcquireBot(e))
    ensures PermitsOk(c, AcquireBotStep(c, q, e))
  {
    var t := AcquireBotStep(c, q, e);
    forall r ensures GlobalOk(c, t, r) {
      assert GlobalOk(c, q, r);
      assert GlobalHolders(t, r) == GlobalHolders(q, r);
    }
    forall r, bot ensures BotOk(c, t, r, bot) {
      assert BotOk(c, q, r, bot);
      AcquireBotPermit(c, q, e, r, bot);
    }
  }

  lemma AcquireBotPermit(c: Config, q: Queue, e: EntryId, r: Runner, bot: Id)
    requires BotOk(c, q, r, bot) && Enabled(c, q, AcquireBot(e)) && q.tasks[e].runner in q.permits.overall
    ensures BotOk(c, AcquireBotStep(c, q, e), r, bot)
  {
    hide BotHolders;
    AcquireBotHolders(c, q, e, r, bot);
    NotYetHolder(q, e, r, bot);
    OneElse(BotHolders(q, r, bot), e);
  }

  lemma OneElse(holders: set<EntryId>, e: EntryId)
    ensures e !in holders ==> |holders + {e}| == |holders| + 1
    ensures e in holders ==> |holders - {e}| == |holders| - 1
  {
  }

  lemma NotYetHolder(q: Queue, e: EntryId, r: Runner, bot: Id)
    requires AtPhase(q, e, WaitBot)
    ensures e !in BotHolders(q, r, bot)
  {
  }

  lemma EndHolders(c: Config, q: Queue, e: EntryId, r: Runner, bot: Id)
    requires e in q.tasks && e in q.stream.entries
    requires q.tasks[e].phase != WaitGlobal && q.tasks[e].phase != WaitBot
    ensures var t, mine, mybot := End(c, q, e), q.tasks[e].runner, q.stream.entries[e].bot;
            && e in GlobalHolders(q, mine) && e in BotHolders(q, mine, mybot)
            && GlobalHolders(t, r) == GlobalHolders(q, r) - (if r == mine then {e} else {})
            && BotHolders(t, r, bot) == BotHolders(q, r, bot) - (if r == mine && bot == mybot then {e} else {})
  {
    hide BotFree, Release;
  }

  lemma EndCounts(c: Config, q: Queue, e: EntryId, r: Runner, bot: Id)
    requires e in q.tasks && e in q.stream.entries && q.tasks[e].runner in q.permits.overall
    ensures var t, mine, mybot := End(c, q, e), q.tasks[e].runner, q.stream.entries[e].bot;
            && (r in t.permits.overall <==> r in q.permits.overall)
            && (r in q.permits.overall ==>
                  t.permits.overall[r] == q.permits.overall[r] + if r == mine then 1 else 0)
            && BotFree(c, t.permits, r, bot) ==
               BotFree(c, q.permits, r, bot) + (if r == mine && bot == mybot then 1 else 0)
            && ((r, bot) in t.permits.perBot ==> (r, bot) in q.permits.perBot || r == mine)
  {
  }

  lemma EndGlobal(c: Config, q: Queue, e: EntryId, r: Runner)
    requires GlobalOk(c, q, r)
    requires e in q.tasks && e in q.stream.entries && q.tasks[e].runner in q.permits.overall
    requires q.tasks[e].phase != WaitGlobal && q.tasks[e].phase != WaitBot
    ensures GlobalOk(c, End(c, q, e), r)
  {
    EndHolders(c, q, e, r, "");
    EndCounts(c, q, e, r, "");
    OneElse(GlobalHolders(q, r), e);
    hide BotHolders, GlobalHolders, End, BotFree;
  }

  lemma EndBot(c: Config, q: Queue, e: EntryId, r: Runner, bot: Id)
    requires BotOk(c, q, r, bot)
    requires e in q.tasks && e in q.stream.entries && q.tasks[e].runner in q.permits.overall
    requires q.tasks[e].phase != WaitGlobal && q.tasks[e].phase != WaitBot
    ensures BotOk(c, End(c, q, e), r, bot)
  {
    EndHolders(c, q, e, r, bot);
    EndCounts(c, q, e, r, bot);
    OneElse(BotHolders(q, r, bot), e);
    hide BotHolders, GlobalHolders, End, BotFree;
  }

  /** A task that held both permits gives both back. */
  lemma EndPermits(c: Config, q: Queue, e: EntryId)
    requires PermitsOk(c, q) && e in q.tasks && e in q.stream.entries && q.tasks[e].runner in q.permits.overall
    requires q.tasks[e].phase != WaitGlobal && q.tasks[e].phase != WaitBot
    ensures PermitsOk(c, End(c, q, e))
  {
    hide GlobalOk, BotOk, End;
    var t := End(c, q, e);
    forall r ensures GlobalOk(c, t, r) {
      assert GlobalOk(c, q, r);
      EndGlobal(c, q, e, r);
    }
    forall r, bot ensures BotOk(c, t, r, bot) {
      assert BotOk(c, q, r, bot);
      EndBot(c, q, e, r, bot);
    }
  }

  lemma CrashPermits(c: Config, q: Queue, gone: Runner)
    requires PermitsOk(c, q)
    ensures PermitsOk(c, CrashStep(q, gone))
  {
    var t := CrashStep(q, gone);
    forall r ensures GlobalOk(c, t, r) {
      assert GlobalOk(c, q, r);
      assert r != gone ==> GlobalHolders(t, r) == GlobalHolders(q, r);
    }
    forall r, bot ensures BotOk(c, t, r, bot) {
      assert BotOk(c, q, r, bot);
      assert r != gone ==> BotHolders(t, r, bot) == BotHolders(q, r, bot);
    }
  }

  lemma StartPermits(c: Config, q: Queue, newcomer: Runner)
    requires PermitsOk(c, q) && TasksOk(q) && newcomer !in q.permits.overall
    ensures PermitsOk(c, Apply(c, q, StartRunner(newcomer)))
  {
    var t := q.(permits := q.permits.(overall := q.permits.overall[newcomer := c.globalLimit]));
    forall r ensures GlobalOk(c, t, r) {
      assert GlobalOk(c, q, r);
      assert GlobalHolders(t, r) == GlobalHolders(q, r);
      assert GlobalHolders(q, newcomer) == {};
    }
    forall r, bot ensures BotOk(c, t, r, bot) {
      assert BotOk(c, q, r, bot);
      assert BotHolders(t, r, bot) == BotHolders(q, r, bot);
      assert BotHolders(q, newcomer, bot) == {};
    }
  }

  lemma SetOncePermits(c: Config, q: Queue, e: EntryId, outcome: Outcome)
    requires StreamOk(c, q.stream) && TasksOk(q) && PermitsOk(c, q) && AtPhase(q, e, Claiming)
    ensures PermitsOk(c, SetOnceStep(c, q, e, outcome))
  {
    hide PermitsOk, End, Move, HasOutcome;
    var key := KeyOf(q.stream.entries[e]);
    EndPermits(c, q, e);
    if key !in q.keys {
      var t := Claimed(q, e, outcome == Replied);
      PermitsCarry(c, q, t);
      TaskPermits(c, t, e, outcome, Handling);
    } else {
      var t := q.(history := q.history.(skipped := q.history.skipped[e := q.keys[key]]));
      PermitsCarry(c, q, t);
      TaskPermits(c, t, e, Replied, Skipping);
    }
  }

  /** Going on or ending, for a task past both semaphores. */
  lemma TaskPermits(c: Config, q: Queue, e: EntryId, outcome: Outcome, phase: Phase)
    requires PermitsOk(c, q) && e in q.tasks && e in q.stream.entries && q.tasks[e].runner in q.permits.overall
    requires q.tasks[e].phase != WaitGlobal && q.tasks[e].phase != WaitBot
    requires phase != WaitGlobal && phase != WaitBot
    ensures PermitsOk(c, Proceed(c, q, e, outcome, phase)) && PermitsOk(c, Move(q, e, phase))
  {
    EndPermits(c, q, e);
    PermitsCarry(c, q, Move(q, e, phase));
  }

  lemma DeleteKeyPermits(c: Config, q: Queue, e: EntryId, outcome: Outcome)
    requires TasksOk(q) && PermitsOk(c, q) && AtPhase(q, e, Failed)
    ensures PermitsOk(c, DeleteKeyStep(c, q, e, outcome))
  {
    hide PermitsOk, Proceed, End;
    EndPermits(c, q, e);
    var t := q.(keys := q.keys - {KeyOf(q.stream.entries[e])});
    PermitsCarry(c, q, t);
    TaskPermits(c, t, e, outcome, Retrying);
  }

  lemma RepublishPermits(c: Config, q: Queue, e: EntryId, outcome: Outcome)
    requires StreamOk(c, q.stream) && TasksOk(q) && PermitsOk(c, q) && AtPhase(q, e, Retrying)
    ensures PermitsOk(c, RepublishStep(c, q, e, outcome))
  {
    hide PermitsOk, Proceed, End;
    EndPermits(c, q, e);
    PermitsCarry(c, q, DeadLettered(q, e));
    TaskPermits(c, DeadLettered(q, e), e, outcome, Settled);
    PermitsCarry(c, q, Copied(q, e));
    TaskPermits(c, Copied(q, e), e, outcome, Settled);
  }

  lemma AckPermits(c: Config, q: Queue, e: EntryId, outcome: Outcome)
    requires TasksOk(q) && PermitsOk(c, q) && Enabled(c, q, Ack(e, outcome))
    ensures PermitsOk(c, AckStep(c, q, e, outcome))
  {
    hide PermitsOk, End;
    EndPermits(c, q, e);
    var t := q.(stream := q.stream.(pending := q.stream.pending - {e}, acked := q.stream.acked + {e}));
    PermitsCarry(c, q, t);
    EndPermits(c, t, e);
  }

  lemma ArrivalPermits(c: Config, q: Queue, step: Step)
    requires StreamOk(c, q.stream) && TasksOk(q) && PermitsOk(c, q) && Enabled(c, q, step)
    requires step.Enqueue? || step.Trim? || step.Read? || step.ReadLost?
    ensures PermitsOk(c, Apply(c, q, step))
  {
    hide PermitsOk, HasOutcome, PhaseFits;
    PermitsCarry(c, q, Apply(c, q, step));
  }

  lemma PermitsKept(c: Config, q: Queue, step: Step)
    requires StreamOk(c, q.stream) && TasksOk(q) && PermitsOk(c, q) && Enabled(c, q, step)
    ensures PermitsOk(c, Apply(c, q, step))
  {
    hide PermitsOk, StreamOk, TasksOk;
    match step
    case StartRunner(r) => StartPermits(c, q, r);
    case Crash(r) => CrashPermits(c, q, r);
    case AcquireGlobal(e) => AcquireGlobalPermits(c, q, e);
    case AcquireBot(e) => AcquireBotPermits(c, q, e);
    case SetOnce(e, outcome) => SetOncePermits(c, q, e, outcome);
    case HandlerReturns(e, ok) => HandlerPermits(c, q, e, ok);
    case DeleteKey(e, outcome) => DeleteKeyPermits(c, q, e, outcome);
    case Republish(e, outcome) => RepublishPermits(c, q, e, outcome);
    case Ack(e, outcome) => AckPermits(c, q, e, outcome);
    case _ => ArrivalPermits(c, q, step);
  }

  lemma HandlerPermits(c: Config, q: Queue, e: EntryId, ok: bool)
    requires PermitsOk(c, q) && AtPhase(q, e, Handling)
    ensures PermitsOk(c, HandlerReturnsStep(q, e, ok))
  {
    hide PermitsOk;
    PermitsCarry(c, q, HandlerReturnsStep(q, e, ok));
  }

  // ----- the invariant -----

  ghost predicate Inv(c: Config, q: Queue) {
    && StreamOk(c, q.stream) && AllEntriesOk(c, q.stream) && Progress(q)
    && SkipsOk(q.stream.entries, q.history) && DeadOk(c, q.stream.entries, q.history.dead)
    && CopiesOk(q.stream.entries, q.history) && RootsOk(q.stream.entries, q.history.root)
    && KeysOk(q) && AllAlive(q) && PermitsOk(c, q)
  }

  lemma InitialHolds(c: Config)
    ensures Inv(c, Initial())
  {
  }

  lemma StepKeeps(c: Config, q: Queue, step: Step)
    requires Inv(c, q) && Enabled(c, q, step)
    ensures Inv(c, Apply(c, q, step))
  {
    hide Apply, StreamOk, AllEntriesOk, OutcomesOk, SkipsOk, DeadOk, CopiesOk, RootsOk, KeysOk, AllAlive, PermitsOk;
    assert q.tasks.Keys <= q.stream.pending;
    StreamKept(c, q, step);
    EntriesKept(c, q, step);
    ProgressKept(c, q, step);
    SkipsKept(c, q, step);
    DeadKept(c, q, step);
    CopiesKept(c, q, step);
    RootsKept(c, q, step);
    KeysKept(c, q, step);
    AliveKept(c, q, step);
    PermitsKept(c, q, step);
  }
}
