/** One task by itself: the steps it takes for what it is answered, and what it has done when it returns. */
module QueueTask {
  import opened QueueModel

  /** What Redis and the handler will answer one task. */
  datatype Answers = Answers(claim: Outcome, handlerOk: bool, delete: Outcome, republish: Outcome, ack: Outcome)

  /** The step a task takes from a phase. */
  function StepAt(e: EntryId, phase: Phase, answers: Answers): Step {
    match phase
    case WaitGlobal => AcquireGlobal(e)
    case WaitBot => AcquireBot(e)
    case Claiming => SetOnce(e, answers.claim)
    case Handling => HandlerReturns(e, answers.handlerOk)
    case Failed => DeleteKey(e, answers.delete)
    case Retrying => Republish(e, answers.republish)
    case _ => Ack(e, answers.ack)
  }

  /** How many awaits a task has left at most. */
  function Rank(tasks: map<EntryId, Task>, e: EntryId): nat {
    if e !in tasks then 0
    else match tasks[e].phase
      case WaitGlobal => 7
      case WaitBot => 6
      case Claiming => 5
      case Handling => 4
      case Failed => 3
      case Retrying => 2
      case _ => 1
  }

  predicate Live(q: Queue, e: EntryId) {
    e in q.tasks && e in q.stream.entries && e < q.stream.nextId && q.tasks[e].runner in q.permits.overall
  }

  predicate AllReplied(answers: Answers) {
    answers.claim == answers.delete == answers.republish == answers.ack == Replied
  }

  ghost predicate Descends(q: Queue, t: Queue, e: EntryId) {
    Rank(t.tasks, e) < Rank(q.tasks, e) && (e in t.tasks ==> Live(t, e))
  }

  lemma PermitDescends(c: Config, q: Queue, e: EntryId, answers: Answers)
    requires Live(q, e) && Enabled(c, q, StepAt(e, q.tasks[e].phase, answers))
    requires q.tasks[e].phase == WaitGlobal || q.tasks[e].phase == WaitBot
    ensures var t := Apply(c, q, StepAt(e, q.tasks[e].phase, answers));
            Descends(q, t, e) && e in t.tasks
  {
    hide BotFree, SetOnceStep, DeleteKeyStep, RepublishStep, AckStep, End;
  }

  lemma TaskDescends(c: Config, q: Queue, e: EntryId, answers: Answers)
    requires Live(q, e) && q.tasks[e].phase != WaitGlobal && q.tasks[e].phase != WaitBot
    ensures var t := Apply(c, q, StepAt(e, q.tasks[e].phase, answers));
            Descends(q, t, e) && (AllReplied(answers) && e !in t.tasks ==> e in t.stream.acked)
  {
    hide BotFree, Release;
  }

  lemma TaskMoves(c: Config, q: Queue, e: EntryId, answers: Answers)
    requires Live(q, e) && Enabled(c, q, StepAt(e, q.tasks[e].phase, answers))
    ensures var t := Apply(c, q, StepAt(e, q.tasks[e].phase, answers));
            Descends(q, t, e) && (AllReplied(answers) && e !in t.tasks ==> e in t.stream.acked)
  {
    hide Apply;
    if q.tasks[e].phase == WaitGlobal || q.tasks[e].phase == WaitBot {
      PermitDescends(c, q, e, answers);
    } else {
      TaskDescends(c, q, e, answers);
    }
  }

  // ----- what a task leaves behind -----

  /** A task that has not yet asked for its key. */
  predicate Early(phase: Phase) {
    phase == WaitGlobal || phase == WaitBot || phase == Claiming
  }

  /** The global permits, and the bot's, that a task holds at a phase. */
  function Holding(phase: Phase): (int, int) {
    match phase
    case WaitGlobal => (0, 0)
    case WaitBot => (1, 0)
    case _ => (1, 1)
  }

  /** The permits of runner `r` for `bot` have changed by these numbers, and no others have. */
  ghost predicate PermitsMoved(c: Config, before: Permits, after: Permits, r: Runner, bot: Id, overall: int,
                               perBot: int)
  {
    && after.overall.Keys == before.overall.Keys && r in before.overall
    && after.overall[r] == before.overall[r] + overall
    && BotFree(c, after, r, bot) == BotFree(c, before, r, bot) + perBot
    && (forall o <- before.overall :: o != r ==> after.overall[o] == before.overall[o])
    && (forall o: Runner, b: Id :: (o, b) != (r, bot) ==> BotFree(c, after, o, b) == BotFree(c, before, o, b))
  }

  /** How far the answers take an entry: whether its key is free, whether its handler runs, and so on. */
  datatype Course = Course(claims: bool, skips: bool, runs: bool, fails: bool, deletes: bool, retries: bool, acks: bool)

  /**
   The key is set if it was free and the command came through; whoever hears so runs the handler. If that fails the key
   is deleted, and once that is heard the entry is retried. An entry that is skipped, handled, or known to have been
   retried is acknowledged.
   */
  function CourseOf(free: bool, answers: Answers): Course {
    var claims := free && answers.claim != NotSent;
    var skips := !free && answers.claim == Replied;
    var runs := free && answers.claim == Replied;
    var fails := runs && !answers.handlerOk;
    var retries := fails && answers.delete == Replied && answers.republish != NotSent;
    var settles := skips || (runs && answers.handlerOk) || (retries && answers.republish == Replied);
    Course(claims, skips, runs, fails, fails && answers.delete != NotSent, retries, settles && answers.ack != NotSent)
  }

  /** The key is the entry's own if it is set for good; what keys there were before stay. */
  ghost predicate KeyLeft(q: Queue, keys: map<Key, EntryId>, e: EntryId, stays: bool)
    requires e in q.stream.entries
  {
    keys == if stays then q.keys[Key(q.stream.entries[e].bot, q.stream.entries[e].update) := e] else q.keys
  }

  ghost predicate RunLeft(q: Queue, h: History, e: EntryId, claims: bool, runs: bool, succeeds: bool, skips: bool)
    requires e in q.stream.entries
  {
    var key := Key(q.stream.entries[e].bot, q.stream.entries[e].update);
    && h.claimed == q.history.claimed + (if claims then {e} else {})
    && h.entered == q.history.entered + (if runs then {e} else {})
    && h.handled == q.history.handled + (if succeeds then {e} else {})
    && h.skipped == if skips && key in q.keys then q.history.skipped[e := q.keys[key]] else q.history.skipped
  }

  /** A retried entry is copied one attempt on or, at the limit, dead-lettered. */
  ghost predicate RetryLeft(c: Config, q: Queue, h: History, st: Stream, e: EntryId, retries: bool)
    requires e in q.stream.entries
  {
    var entry, id, next := q.stream.entries[e], q.stream.nextId, q.stream.entries[e].attempt + 1;
    var buries, copies := retries && next >= c.maxAttempts, retries && next < c.maxAttempts;
    && h.dead == (if buries then q.history.dead[e := DeadLetter(entry.bot, entry.update, entry.payload, next)]
                  else q.history.dead)
    && h.copies == (if copies then q.history.copies[e := id] else q.history.copies)
    && st.entries == (if copies then q.stream.entries[id := entry.(attempt := next)] else q.stream.entries)
    && st.unread == q.stream.unread + (if copies then {id} else {})
  }

  ghost predicate AckLeft(q: Queue, st: Stream, e: EntryId, acks: bool) {
    && st.acked == q.stream.acked + (if acks then {e} else {})
    && st.pending == q.stream.pending - (if acks then {e} else {})
    && st.trimmed == q.stream.trimmed
  }

  /** What is left on the stream, in the history and among the keys after such a course. */
  ghost predicate Left(c: Config, q: Queue, t: Queue, e: EntryId, handlerOk: bool, course: Course)
    requires e in q.stream.entries
  {
    && KeyLeft(q, t.keys, e, course.claims && !course.deletes)
    && RunLeft(q, t.history, e, course.claims, course.runs, course.runs && handlerOk, course.skips)
    && RetryLeft(c, q, t.history, t.stream, e, course.retries)
    && AckLeft(q, t.stream, e, course.acks)
  }

  /** A task is gone from `t` that stood in `q`, with what the answers imply done, and all its permits given back. */
  ghost predicate Processed(c: Config, q: Queue, t: Queue, e: EntryId, answers: Answers)
    requires e in q.tasks && e in q.stream.entries
  {
    var entry, task := q.stream.entries[e], q.tasks[e];
    && t.tasks == q.tasks - {e}
    && PermitsMoved(c, q.permits, t.permits, task.runner, entry.bot, Holding(task.phase).0, Holding(task.phase).1)
    && Left(c, q, t, e, answers.handlerOk, CourseOf(Key(entry.bot, entry.update) !in q.keys, answers))
  }

  // ----- and has done on the way -----

  function Retried(c: Config, t: Queue, e: EntryId): Queue
    requires e in t.stream.entries
  {
    if t.stream.entries[e].attempt + 1 >= c.maxAttempts then DeadLettered(t, e) else Copied(t, e)
  }

  /** What a task has done when it stands at its phase. */
  function DoneBy(c: Config, q: Queue, e: EntryId, phase: Phase, answers: Answers): Queue
    requires e in q.stream.entries
  {
    var key := KeyOf(q.stream.entries[e]);
    var entered := Claimed(q, e, true);
    match phase
    case Skipping =>
      if key in q.keys then q.(history := q.history.(skipped := q.history.skipped[e := q.keys[key]])) else q
    case Handling => entered
    case Failed => entered
    case Succeeded => entered.(history := entered.history.(handled := entered.history.handled + {e}))
    case Retrying => entered.(keys := q.keys)
    case Settled =>
      Retried(c, entered.(keys := q.keys), e)
    case _ => q
  }

  /** The answers that lead to a phase. */
  predicate LeadsTo(q: Queue, e: EntryId, phase: Phase, answers: Answers)
    requires e in q.stream.entries
  {
    var free := KeyOf(q.stream.entries[e]) !in q.keys;
    match phase
    case Skipping => answers.claim == Replied && !free
    case Handling => answers.claim == Replied && free
    case Succeeded => answers.claim == Replied && free && answers.handlerOk
    case Failed => answers.claim == Replied && free && !answers.handlerOk
    case Retrying => answers.claim == Replied && free && !answers.handlerOk && answers.delete == Replied
    case Settled =>
      && answers.claim == Replied && free && !answers.handlerOk
      && answers.delete == Replied && answers.republish == Replied
    case _ => true
  }

  /** The task started early in `q` and stands at its await in `t`. */
  ghost predicate OnTheWay(c: Config, q: Queue, t: Queue, e: EntryId, answers: Answers) {
    && e in q.tasks && e in q.stream.entries && e < q.stream.nextId && Early(q.tasks[e].phase) && e in t.tasks
    && t.tasks == q.tasks[e := q.tasks[e].(phase := t.tasks[e].phase)]
    && LeadsTo(q, e, t.tasks[e].phase, answers)
    && t.stream == DoneBy(c, q, e, t.tasks[e].phase, answers).stream
    && t.keys == DoneBy(c, q, e, t.tasks[e].phase, answers).keys
    && t.history == DoneBy(c, q, e, t.tasks[e].phase, answers).history
    && var before, now := Holding(q.tasks[e].phase), Holding(t.tasks[e].phase);
       PermitsMoved(c, q.permits, t.permits, q.tasks[e].runner, q.stream.entries[e].bot,
                    before.0 - now.0, before.1 - now.1)
  }

  ghost predicate OnTheWayOrDone(c: Config, q: Queue, t: Queue, e: EntryId, answers: Answers) {
    && e in q.tasks && e in q.stream.entries
    && if e in t.tasks then OnTheWay(c, q, t, e, answers) else Processed(c, q, t, e, answers)
  }

  // ----- permits on the way -----

  lemma MovesAdd(c: Config, x: Permits, y: Permits, z: Permits, r: Runner, bot: Id, a: (int, int), b: (int, int))
    requires PermitsMoved(c, x, y, r, bot, a.0, a.1) && PermitsMoved(c, y, z, r, bot, b.0, b.1)
    ensures PermitsMoved(c, x, z, r, bot, a.0 + b.0, a.1 + b.1)
  {
  }

  lemma ReleaseMoves(c: Config, x: Permits, r: Runner, bot: Id)
    requires r in x.overall
    ensures PermitsMoved(c, x, Release(c, x, r, bot), r, bot, 1, 1)
  {
  }

  lemma AcquireMoves(c: Config, t: Queue, e: EntryId)
    requires Live(t, e)
    ensures var r, bot := t.tasks[e].runner, t.stream.entries[e].bot;
            && (Enabled(c, t, AcquireGlobal(e)) ==>
                  PermitsMoved(c, t.permits, AcquireGlobalStep(t, e).permits, r, bot, -1, 0))
            && (Enabled(c, t, AcquireBot(e)) ==>
                  PermitsMoved(c, t.permits, AcquireBotStep(c, t, e).permits, r, bot, 0, -1))
  {
  }

  /** A task that returns, having changed `t` to `u`, leaves no more behind and gives back all it holds. */
  lemma ReturnIsDone(c: Config, q: Queue, t: Queue, u: Queue, e: EntryId, answers: Answers)
    requires OnTheWay(c, q, t, e, answers) && Live(t, e) && Holding(t.tasks[e].phase) == (1, 1)
    requires u.tasks == t.tasks && u.permits == t.permits && e in u.stream.entries
    requires u.stream.entries[e] == q.stream.entries[e]
    requires Left(c, q, u, e, answers.handlerOk, CourseOf(KeyOf(q.stream.entries[e]) !in q.keys, answers))
    ensures OnTheWayOrDone(c, q, End(c, u, e), e, answers)
  {
    hide PermitsMoved, Release, DoneBy, LeadsTo, CourseOf, KeyLeft, RunLeft, RetryLeft, AckLeft;
    var r, bot, held := q.tasks[e].runner, q.stream.entries[e].bot, Holding(q.tasks[e].phase);
    ReleaseMoves(c, t.permits, r, bot);
    MovesAdd(c, q.permits, t.permits, Release(c, t.permits, r, bot), r, bot, (held.0 - 1, held.1 - 1), (1, 1));
    assert End(c, u, e).tasks == q.tasks - {e};
  }

  // ----- each step is on the way -----

  lemma AcquireIsOnTheWay(c: Config, q: Queue, t: Queue, e: EntryId, answers: Answers)
    requires OnTheWay(c, q, t, e, answers) && Live(t, e)
    ensures t.tasks[e].phase == WaitGlobal && Enabled(c, t, AcquireGlobal(e)) ==>
              OnTheWayOrDone(c, q, AcquireGlobalStep(t, e), e, answers)
    ensures t.tasks[e].phase == WaitBot && Enabled(c, t, AcquireBot(e)) ==>
              OnTheWayOrDone(c, q, AcquireBotStep(c, t, e), e, answers)
  {
    AcquireMoves(c, t, e);
    hide PermitsMoved, BotFree;
    var r, bot := q.tasks[e].runner, q.stream.entries[e].bot;
    var before, now := Holding(q.tasks[e].phase), Holding(t.tasks[e].phase);
    var moved := (before.0 - now.0, before.1 - now.1);
    if t.tasks[e].phase == WaitGlobal && Enabled(c, t, AcquireGlobal(e)) {
      MovesAdd(c, q.permits, t.permits, AcquireGlobalStep(t, e).permits, r, bot, moved, (-1, 0));
    } else if t.tasks[e].phase == WaitBot && Enabled(c, t, AcquireBot(e)) {
      MovesAdd(c, q.permits, t.permits, AcquireBotStep(c, t, e).permits, r, bot, moved, (0, -1));
    }
  }

  lemma ClaimIsOnTheWay(c: Config, q: Queue, t: Queue, e: EntryId, answers: Answers)
    requires OnTheWay(c, q, t, e, answers) && Live(t, e) && t.tasks[e].phase == Claiming
    ensures OnTheWayOrDone(c, q, SetOnceStep(c, t, e, answers.claim), e, answers)
  {
    if answers.claim == Replied {
      hide PermitsMoved, Processed, End;
    } else {
      ClaimUnheard(c, q, t, e, answers);
    }
  }

  lemma ClaimUnheard(c: Config, q: Queue, t: Queue, e: EntryId, answers: Answers)
    requires OnTheWay(c, q, t, e, answers) && Live(t, e) && t.tasks[e].phase == Claiming && answers.claim != Replied
    ensures OnTheWayOrDone(c, q, SetOnceStep(c, t, e, answers.claim), e, answers)
  {
    hide PermitsMoved, End, Processed;
    assert t.stream == q.stream && t.keys == q.keys && t.history == q.history;
    ReturnIsDone(c, q, t, if answers.claim == ReplyLost && KeyOf(q.stream.entries[e]) !in q.keys
                          then Claimed(t, e, false) else t, e, answers);
  }

  lemma HandlerIsOnTheWay(c: Config, q: Queue, t: Queue, e: EntryId, answers: Answers)
    requires OnTheWay(c, q, t, e, answers) && Live(t, e) && t.tasks[e].phase == Handling
    ensures OnTheWayOrDone(c, q, HandlerReturnsStep(t, e, answers.handlerOk), e, answers)
  {
    hide PermitsMoved;
  }

  lemma DeleteIsOnTheWay(c: Config, q: Queue, t: Queue, e: EntryId, answers: Answers)
    requires OnTheWay(c, q, t, e, answers) && Live(t, e) && t.tasks[e].phase == Failed
    ensures OnTheWayOrDone(c, q, DeleteKeyStep(c, t, e, answers.delete), e, answers)
  {
    assert q.keys[KeyOf(q.stream.entries[e]) := e] - {KeyOf(q.stream.entries[e])} == q.keys;
    hide PermitsMoved, End, Processed;
    if answers.delete != Replied {
      ReturnIsDone(c, q, t, if answers.delete == ReplyLost then t.(keys := q.keys) else t, e, answers);
    }
  }

  lemma RepublishIsOnTheWay(c: Config, q: Queue, t: Queue, e: EntryId, answers: Answers)
    requires OnTheWay(c, q, t, e, answers) && Live(t, e) && t.tasks[e].phase == Retrying
    ensures OnTheWayOrDone(c, q, RepublishStep(c, t, e, answers.republish), e, answers)
  {
    hide OnTheWay, OnTheWayOrDone, RepublishStep;
    if answers.republish == Replied {
      RepublishHeard(c, q, t, e, answers);
    } else {
      RepublishUnheard(c, q, t, e, answers);
    }
  }

  lemma RepublishHeard(c: Config, q: Queue, t: Queue, e: EntryId, answers: Answers)
    requires OnTheWay(c, q, t, e, answers) && Live(t, e) && t.tasks[e].phase == Retrying && answers.republish == Replied
    ensures OnTheWayOrDone(c, q, RepublishStep(c, t, e, Replied), e, answers)
  {
    hide PermitsMoved, End, Processed, Claimed, Append;
    var freed := Claimed(q, e, true).(keys := q.keys);
    assert t == freed.(tasks := t.tasks, permits := t.permits);
  }

  lemma RepublishUnheard(c: Config, q: Queue, t: Queue, e: EntryId, answers: Answers)
    requires OnTheWay(c, q, t, e, answers) && Live(t, e) && t.tasks[e].phase == Retrying && answers.republish != Replied
    ensures OnTheWayOrDone(c, q, RepublishStep(c, t, e, answers.republish), e, answers)
  {
    hide PermitsMoved, End, Processed;
    if answers.republish == NotSent {
      ReturnIsDone(c, q, t, t, e, answers);
    } else {
      RetryUnheard(c, q, t, e, answers);
      hide OnTheWay, OnTheWayOrDone, Left, CourseOf;
      ReturnIsDone(c, q, t, Retried(c, t, e), e, answers);
    }
  }

  /** Retrying the entry after its key was set and deleted. */
  lemma RetryLeaves(c: Config, q: Queue, e: EntryId)
    requires e in q.stream.entries && e < q.stream.nextId
    ensures var u := Retried(c, Claimed(q, e, true).(keys := q.keys), e);
            && e in u.stream.entries && u.stream.entries[e] == q.stream.entries[e] && KeyLeft(q, u.keys, e, false)
            && RunLeft(q, u.history, e, true, true, false, false) && RetryLeft(c, q, u.history, u.stream, e, true)
            && AckLeft(q, u.stream, e, false)
  {
  }

  lemma RetryUnheard(c: Config, q: Queue, t: Queue, e: EntryId, answers: Answers)
    requires OnTheWay(c, q, t, e, answers) && Live(t, e) && t.tasks[e].phase == Retrying
    requires answers.republish == ReplyLost
    ensures var u := Retried(c, t, e);
            && u.tasks == t.tasks && u.permits == t.permits && e in u.stream.entries
            && u.stream.entries[e] == q.stream.entries[e]
            && Left(c, q, u, e, answers.handlerOk, CourseOf(KeyOf(q.stream.entries[e]) !in q.keys, answers))
  {
    hide PermitsMoved, KeyLeft, RunLeft, RetryLeft, AckLeft;
    RetryLeaves(c, q, e);
    var freed, u := Claimed(q, e, true).(keys := q.keys), Retried(c, t, e);
    assert t == freed.(tasks := t.tasks, permits := t.permits);
    assert u == Retried(c, freed, e).(tasks := t.tasks, permits := t.permits);
  }

  /** Before it acknowledges, a task has done all else. */
  ghost predicate AllButAck(c: Config, q: Queue, t: Queue, e: EntryId, answers: Answers) {
    && e in q.stream.entries && e in t.stream.entries && t.stream.entries[e] == q.stream.entries[e]
    && var course := CourseOf(KeyOf(q.stream.entries[e]) !in q.keys, answers);
       && (course.acks <==> answers.ack != NotSent)
       && Left(c, q, t, e, answers.handlerOk, course.(acks := false))
  }

  lemma SettledButAck(c: Config, q: Queue, t: Queue, e: EntryId, answers: Answers)
    requires OnTheWay(c, q, t, e, answers) && Live(t, e) && t.tasks[e].phase == Settled
    ensures AllButAck(c, q, t, e, answers)
  {
    hide PermitsMoved, KeyLeft, RunLeft, RetryLeft, AckLeft, Retried, Claimed;
    RetryLeaves(c, q, e);
  }

  lemma AllButAckDone(c: Config, q: Queue, t: Queue, e: EntryId, answers: Answers)
    requires OnTheWay(c, q, t, e, answers) && Live(t, e)
    requires t.tasks[e].phase == Skipping || t.tasks[e].phase == Succeeded || t.tasks[e].phase == Settled
    ensures AllButAck(c, q, t, e, answers)
  {
    hide PermitsMoved;
    if t.tasks[e].phase == Settled {
      hide OnTheWay, AllButAck;
      SettledButAck(c, q, t, e, answers);
    }
  }

  lemma AckIsDone(c: Config, q: Queue, t: Queue, e: EntryId, answers: Answers)
    requires OnTheWay(c, q, t, e, answers) && Live(t, e)
    requires t.tasks[e].phase == Skipping || t.tasks[e].phase == Succeeded || t.tasks[e].phase == Settled
    ensures OnTheWayOrDone(c, q, AckStep(c, t, e, answers.ack), e, answers)
  {
    AllButAckDone(c, q, t, e, answers);
    hide PermitsMoved, OnTheWay, OnTheWayOrDone, CourseOf, End, Processed, KeyLeft, RunLeft;
    if answers.ack == NotSent {
      ReturnIsDone(c, q, t, t, e, answers);
    } else {
      var acked := t.(stream := t.stream.(pending := t.stream.pending - {e}, acked := t.stream.acked + {e}));
      ReturnIsDone(c, q, t, acked, e, answers);
    }
  }

  /** Every step that a task takes keeps it on the way, or is its return with everything done. */
  lemma StepIsOnTheWay(c: Config, q: Queue, t: Queue, e: EntryId, answers: Answers)
    requires OnTheWayOrDone(c, q, t, e, answers) && Live(t, e)
    requires Enabled(c, t, StepAt(e, t.tasks[e].phase, answers))
    ensures OnTheWayOrDone(c, q, Apply(c, t, StepAt(e, t.tasks[e].phase, answers)), e, answers)
  {
    hide OnTheWay, Processed, SetOnceStep, HandlerReturnsStep, DeleteKeyStep, RepublishStep, AckStep, BotFree;
    match t.tasks[e].phase
    case Claiming => ClaimIsOnTheWay(c, q, t, e, answers);
    case Handling => HandlerIsOnTheWay(c, q, t, e, answers);
    case Failed => DeleteIsOnTheWay(c, q, t, e, answers);
    case Retrying => RepublishIsOnTheWay(c, q, t, e, answers);
    case WaitGlobal => AcquireIsOnTheWay(c, q, t, e, answers);
    case WaitBot => AcquireIsOnTheWay(c, q, t, e, answers);
    case _ => AckIsDone(c, q, t, e, answers);
  }

  lemma StartsOnTheWay(c: Config, q: Queue, e: EntryId, answers: Answers)
    requires Live(q, e) && Early(q.tasks[e].phase)
    ensures OnTheWayOrDone(c, q, q, e, answers)
  {
  }

  /** The task waits for a permit and has done nothing. */
  predicate UntouchedSince(q: Queue, t: Queue, e: EntryId) {
    && e in t.tasks && (t.tasks[e].phase == WaitGlobal || t.tasks[e].phase == WaitBot)
    && t.stream == q.stream && t.keys == q.keys && t.history == q.history
  }

  /** Only for a permit does a task ever have to wait. */
  lemma WaitingHasDoneNothing(c: Config, q: Queue, t: Queue, e: EntryId, answers: Answers)
    requires OnTheWayOrDone(c, q, t, e, answers) && Live(t, e)
    requires !Enabled(c, t, StepAt(e, t.tasks[e].phase, answers))
    ensures UntouchedSince(q, t, e)
  {
    hide BotFree, PermitsMoved;
  }

  lemma ReturnedIsProcessed(c: Config, q: Queue, t: Queue, e: EntryId, answers: Answers)
    requires OnTheWayOrDone(c, q, t, e, answers) && e !in t.tasks
    ensures e in q.tasks && e in q.stream.entries && Processed(c, q, t, e, answers)
  {
  }

  /**
   Undisturbed and answered by Redis each time, a task that finds its key free runs its handler, and its entry is
   handled exactly if that returns Ok, and otherwise copied or dead-lettered with the key free again; one that finds it
   held is skipped. Either way it is acknowledged. Unless it hears that it has set the key it never runs the handler.
   */
  lemma TaskObeysItsAnswers(c: Config, q: Queue, t: Queue, e: EntryId, answers: Answers)
    requires e in q.tasks && e in q.stream.entries && Processed(c, q, t, e, answers)
    requires e !in q.history.entered + q.history.handled + q.history.skipped.Keys
    requires e !in q.history.copies.Keys + q.history.dead.Keys
    ensures e in t.history.entered <==> KeyOf(q.stream.entries[e]) !in q.keys && answers.claim == Replied
    ensures e in t.history.handled <==> e in t.history.entered && answers.handlerOk
    ensures e in t.history.skipped <==> KeyOf(q.stream.entries[e]) in q.keys && answers.claim == Replied
    ensures AllReplied(answers) ==>
              && e in t.stream.acked
              && (e in t.history.entered && !answers.handlerOk <==> e in t.history.copies || e in t.history.dead)
              && (e in t.history.entered && !answers.handlerOk ==> t.keys == q.keys)
              && (e in t.history.handled ==> t.keys == q.keys[KeyOf(q.stream.entries[e]) := e])
  {
    hide PermitsMoved;
  }
}
