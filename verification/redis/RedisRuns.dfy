/** What callers can rely on, whatever is lost, late, or repeated. */
module RedisRuns {
  import opened Prelude
  import opened RedisModel
  import opened RedisInvariant

  ghost predicate Reaches(maxRetries: nat, q: Redis, steps: seq<Step>, t: Redis)
    decreases steps
  {
    if steps == [] then q == t
    else Enabled(q, steps[0]) && Reaches(maxRetries, Apply(maxRetries, q, steps[0]), steps[1..], t)
  }

  ghost predicate Reachable(maxRetries: nat, t: Redis) {
    exists steps :: Reaches(maxRetries, Initial(), steps, t)
  }

  lemma {:induction false} RunKeeps(maxRetries: nat, q: Redis, steps: seq<Step>, t: Redis)
    requires Inv(maxRetries, q) && Reaches(maxRetries, q, steps, t)
    ensures Inv(maxRetries, t)
    decreases steps
  {
    hide Inv, Apply, Enabled;
    if steps != [] {
      StepKeeps(maxRetries, q, steps[0]);
      RunKeeps(maxRetries, Apply(maxRetries, q, steps[0]), steps[1..], t);
    }
  }

  lemma ReachableHolds(maxRetries: nat, t: Redis)
    requires Reachable(maxRetries, t)
    ensures Inv(maxRetries, t)
  {
    hide Inv, Initial;
    var steps :| Reaches(maxRetries, Initial(), steps, t);
    InitialHolds(maxRetries);
    RunKeeps(maxRetries, Initial(), steps, t);
  }

  /** The caller has its answer. */
  predicate Answered(q: Redis, a: Caller, op: Op, answer: Answer) {
    && a in q.calls && q.calls[a].Returned? && q.calls[a].op == op
    && q.calls[a].command in q.answers && q.answers[q.calls[a].command] == answer
  }

  /** One set fits into another along a map that keeps its elements apart. */
  lemma {:induction false} FitsInto<A, B>(small: set<A>, large: set<B>, f: map<A, B>)
    requires forall x <- small :: x in f && f[x] in large
    requires forall x <- small, y <- small :: f[x] == f[y] ==> x == y
    ensures |small| <= |large|
  {
    if x :| x in small {
      FitsInto(small - {x}, large - {f[x]}, f);
    }
  }

  // ----- join tickets -----

  /** The commands carried out that put a value under a key that was absent, or over one. */
  function Issues(q: Redis, key: Key): set<CommandId> {
    set i | i in q.answers && i in q.ops && q.ops[i].key == key
            && (q.answers[i].Won? || q.answers[i] == Stored || (q.answers[i].Number? && q.answers[i].n == 1))
  }

  function Consumers(q: Redis, key: Key): set<Caller> {
    set a | a in q.calls && q.calls[a].Returned? && q.calls[a].op == Consume(key)
            && q.calls[a].command in q.answers && q.answers[q.calls[a].command].Value?
  }

  lemma AnswerIsOnesOwn(maxRetries: nat, q: Redis, a: Caller)
    requires Inv(maxRetries, q) && a in q.calls && q.calls[a].Returned?
    ensures var i := q.calls[a].command;
            i in q.answers && i in q.ops && i in q.callers && q.callers[i] == a && q.ops[i] == q.calls[a].op
  {
    assert CallOk(q, a) && CommandOk(q, q.calls[a].command);
  }

  /** Two callers given a value by one ticket were given those of two different issues of it. */
  lemma TicketGoesToOneCaller(maxRetries: nat, q: Redis, key: Key, a: Caller, b: Caller, x: Slot, y: Slot)
    requires Reachable(maxRetries, q) && a != b
    requires Answered(q, a, Consume(key), Value(x)) && Answered(q, b, Consume(key), Value(y))
    ensures x.life in q.store.born && y.life in q.store.born
    ensures var i, j := q.store.born[x.life], q.store.born[y.life];
            i != j && i in Issues(q, key) && j in Issues(q, key)
  {
    ReachableHolds(maxRetries, q);
    AnswerIsOnesOwn(maxRetries, q, a);
    AnswerIsOnesOwn(maxRetries, q, b);
    var i, j := q.calls[a].command, q.calls[b].command;
    assert AnswersApart(q, i, j) && AnswerOk(q, i) && AnswerOk(q, j);
    assert BirthsApart(q, x.life, y.life) && LifeOk(q, x.life) && LifeOk(q, y.life);
  }

  /** However calls are retried, no more callers get a value from a key than times the key was written. */
  lemma ConsumersAreFew(maxRetries: nat, q: Redis, key: Key)
    requires Reachable(maxRetries, q)
    ensures |Consumers(q, key)| <= |Issues(q, key)|
  {
    ReachableHolds(maxRetries, q);
    var some := Consumers(q, key);
    var f := map a | a in some && q.answers[q.calls[a].command].slot.life in q.store.born ::
               q.store.born[q.answers[q.calls[a].command].slot.life];
    forall a <- some ensures a in f && f[a] in Issues(q, key) {
      AnswerIsOnesOwn(maxRetries, q, a);
      assert AnswerOk(q, q.calls[a].command);
      assert LifeOk(q, q.answers[q.calls[a].command].slot.life);
    }
    forall a <- some, b <- some | f[a] == f[b] ensures a == b {
      if a != b {
        var x, y := q.answers[q.calls[a].command].slot, q.answers[q.calls[b].command].slot;
        TicketGoesToOneCaller(maxRetries, q, key, a, b, x, y);
      }
    }
    FitsInto(some, Issues(q, key), f);
  }

  /** The command that began the slot's life wrote its text under the key. */
  predicate WrittenTo(q: Redis, key: Key, slot: Slot) {
    slot.Text? ==>
      && slot.life in q.store.born && q.store.born[slot.life] in q.ops
      && var op := q.ops[q.store.born[slot.life]];
         op == SetUnique(key, slot.value) || op == SetWithTtl(key, slot.value)
  }

  predicate ServedAsWritten(q: Redis, i: CommandId) {
    i in q.answers && q.answers[i].Value? && i in q.ops ==> WrittenTo(q, q.ops[i].key, q.answers[i].slot)
  }

  ghost predicate AsWritten(q: Redis) {
    && (forall key <- q.store.slots :: WrittenTo(q, key, q.store.slots[key]))
    && (forall i: CommandId :: ServedAsWritten(q, i))
  }

  lemma AsWrittenKept(maxRetries: nat, q: Redis, step: Step)
    requires Inv(maxRetries, q) && AsWritten(q) && Enabled(q, step)
    ensures AsWritten(Apply(maxRetries, q, step))
  {
    hide Answers, Tallies, CallOk, BudgetOk;
    assert CommandOk(q, q.nextCommand) && LifeOk(q, q.store.nextLife);
    if step.Execute? { assert CommandOk(q, step.command); }
    var t := Apply(maxRetries, q, step);
    forall i ensures ServedAsWritten(t, i) {
      assert ServedAsWritten(q, i) && CommandOk(q, i);
    }
  }

  lemma {:induction false} AsWrittenLasts(maxRetries: nat, q: Redis, steps: seq<Step>, t: Redis)
    requires Inv(maxRetries, q) && AsWritten(q) && Reaches(maxRetries, q, steps, t)
    ensures AsWritten(t)
    decreases steps
  {
    hide Inv, Apply, Enabled, AsWritten;
    if steps != [] {
      AsWrittenKept(maxRetries, q, steps[0]);
      StepKeeps(maxRetries, q, steps[0]);
      AsWrittenLasts(maxRetries, Apply(maxRetries, q, steps[0]), steps[1..], t);
    }
  }

  /** A consumer is given the very text that the command which began that life of the key wrote under it. */
  lemma ConsumersGetWhatWasWritten(maxRetries: nat, q: Redis, key: Key, a: Caller, value: string, life: Life)
    requires Reachable(maxRetries, q) && Answered(q, a, Consume(key), Value(Text(value, life)))
    ensures life in q.store.born && q.store.born[life] in q.ops
    ensures var op := q.ops[q.store.born[life]];
            op == SetUnique(key, value) || op == SetWithTtl(key, value)
  {
    ReachableHolds(maxRetries, q);
    AnswerIsOnesOwn(maxRetries, q, a);
    hide Inv;
    var steps :| Reaches(maxRetries, Initial(), steps, q);
    InitialHolds(maxRetries);
    AsWrittenLasts(maxRetries, Initial(), steps, q);
    assert ServedAsWritten(q, q.calls[a].command);
  }

  /** Each command, when it is carried out, does to its key what it says and is answered accordingly. */
  lemma CommandTakesEffect(maxRetries: nat, q: Redis, i: CommandId)
    requires Enabled(q, Execute(i))
    ensures var t := Apply(maxRetries, q, Execute(i));
            var slots, after, life := q.store.slots, t.store.slots, q.store.nextLife;
            && i in t.answers && i !in t.travelling && t.calls == q.calls
            && match q.ops[i]
               case SetUnique(key, value) =>
                 if key in slots then after == slots && t.answers[i] == Lost(slots[key].life)
                 else after == slots[key := Text(value, life)] && t.answers[i] == Won(life)
               case SetWithTtl(key, value) => after == slots[key := Text(value, life)] && t.answers[i] == Stored
               case Delete(key) => after == slots - {key} && t.answers[i] == Deleted
               case Consume(key) =>
                 after == slots - {key} && t.answers[i] == if key in slots then Value(slots[key]) else NoValue
               case Increment(key) =>
                 if key in slots && slots[key].Text? then after == slots && t.answers[i] == WrongType
                 else
                   var n := if key in slots then slots[key].count else 0;
                   var l := if key in slots then slots[key].life else life;
                   after == slots[key := Count(n + 1, l)] && t.answers[i] == Number(n + 1, l)
  {
    if q.ops[i].Consume? && q.ops[i].key !in q.store.slots {
      assert q.store.slots - {q.ops[i].key} == q.store.slots;
    }
  }

  // ----- unique pins -----

  /** Whether a step ends a key's presence. */
  predicate Ends(q: Redis, step: Step, key: Key) {
    || step == Expire(key)
    || (step.Execute? && step.command in q.ops &&
        (q.ops[step.command] == Delete(key) || q.ops[step.command] == Consume(key)))
  }

  predicate WonFor(q: Redis, i: CommandId, key: Key) {
    i in q.answers && q.answers[i].Won? && i in q.ops && q.ops[i].key == key
  }

  lemma PresentStep(maxRetries: nat, q: Redis, key: Key, step: Step)
    requires Calls(q, maxRetries) && Enabled(q, step) && key in q.store.slots && !Ends(q, step, key)
    ensures var t := Apply(maxRetries, q, step);
            && key in t.store.slots
            && (forall i <- q.ops :: i in t.ops && t.ops[i] == q.ops[i])
            && (forall i :: WonFor(t, i, key) ==> WonFor(q, i, key))
  {
    assert CommandOk(q, q.nextCommand);
    forall i | WonFor(Apply(maxRetries, q, step), i, key) ensures WonFor(q, i, key) { assert CommandOk(q, i); }
  }

  lemma {:induction false} OpsLast(maxRetries: nat, q: Redis, steps: seq<Step>, t: Redis, i: CommandId)
    requires Calls(q, maxRetries) && Reaches(maxRetries, q, steps, t) && i in q.ops
    ensures i in t.ops && t.ops[i] == q.ops[i]
    decreases steps
  {
    hide Run;
    if steps != [] {
      assert CommandOk(q, q.nextCommand);
      CallsKept(maxRetries, q, steps[0]);
      OpsLast(maxRetries, Apply(maxRetries, q, steps[0]), steps[1..], t, i);
    }
  }

  /** In one life of a pin's key at most one caller is told that it is theirs. */
  lemma PinGoesToOneCaller(maxRetries: nat, q: Redis, a: Caller, b: Caller, op: Op, other: Op, life: Life)
    requires Reachable(maxRetries, q) && Answered(q, a, op, Won(life)) && Answered(q, b, other, Won(life))
    ensures a == b && life in q.store.born && q.store.born[life] == q.calls[a].command && op.SetUnique?
  {
    ReachableHolds(maxRetries, q);
    AnswerIsOnesOwn(maxRetries, q, a);
    AnswerIsOnesOwn(maxRetries, q, b);
    assert AnswerOk(q, q.calls[a].command) && AnswerOk(q, q.calls[b].command);
  }

  /** While a pin's key is there, no command newly takes it. */
  lemma {:induction false} PresentKeyIsNotWonAgain(maxRetries: nat, q: Redis, key: Key, steps: seq<Step>, t: Redis,
                                                   i: CommandId)
    requires Inv(maxRetries, q) && Reaches(maxRetries, q, steps, t) && key in q.store.slots
    requires forall step <- steps :: !Ends(t, step, key)
    ensures key in t.store.slots && (WonFor(t, i, key) ==> WonFor(q, i, key))
    decreases steps
  {
    if steps != [] {
      var p := Apply(maxRetries, q, steps[0]);
      if Ends(q, steps[0], key) && steps[0].Execute? {
        OpsLast(maxRetries, q, steps, t, steps[0].command);
      }
      assert steps[0] in steps;
      PresentStep(maxRetries, q, key, steps[0]);
      StepKeeps(maxRetries, q, steps[0]);
      hide Inv, Apply, Enabled, Ends;
      PresentKeyIsNotWonAgain(maxRetries, p, key, steps[1..], t, i);
    }
  }

  /** A caller told that a pin is taken is told of another command's; at its first attempt, of another caller's. */
  lemma LostToAnother(maxRetries: nat, q: Redis, key: Key, a: Caller, value: string, holder: Life)
    requires Reachable(maxRetries, q) && Answered(q, a, SetUnique(key, value), Lost(holder))
    ensures holder in q.store.born && q.store.born[holder] in q.callers && q.store.born[holder] != q.calls[a].command
    ensures |Sent(q, a)| == 1 ==> q.callers[q.store.born[holder]] != a
  {
    ReachableHolds(maxRetries, q);
    AnswerIsOnesOwn(maxRetries, q, a);
    var mine := q.calls[a].command;
    assert AnswerOk(q, mine) && CommandOk(q, q.store.born[holder]);
    assert mine in Sent(q, a);
    if q.callers[q.store.born[holder]] == a {
      assert {mine, q.store.born[holder]} <= Sent(q, a);
      SubsetIsSmaller({mine, q.store.born[holder]}, Sent(q, a));
    }
  }

  // ----- counters -----

  /** The callers who saw a number up to `limit` in one life of a counter. */
  function SawAtMost(q: Redis, life: Life, limit: nat): set<Caller> {
    set a | a in q.calls && q.calls[a].Returned? && q.calls[a].command in q.answers
            && q.answers[q.calls[a].command].Number? && q.answers[q.calls[a].command].life == life
            && q.answers[q.calls[a].command].n <= limit
  }

  lemma NumbersDiffer(maxRetries: nat, q: Redis, a: Caller, b: Caller, op: Op, n: nat, m: nat, life: Life)
    requires Reachable(maxRetries, q) && a != b
    requires Answered(q, a, op, Number(n, life)) && Answered(q, b, op, Number(m, life))
    ensures n != m && n >= 1
  {
    ReachableHolds(maxRetries, q);
    AnswerIsOnesOwn(maxRetries, q, a);
    AnswerIsOnesOwn(maxRetries, q, b);
    var i, j := q.calls[a].command, q.calls[b].command;
    assert AnswersApart(q, i, j) && AnswerOk(q, i);
  }

  function UpTo(limit: nat): (s: set<nat>)
    ensures |s| == limit && forall n: nat :: n in s <==> 1 <= n <= limit
  {
    if limit == 0 then {} else UpTo(limit - 1) + {limit}
  }

  /** At most `limit` callers ever see a number up to `limit` in one life of a counter. */
  lemma FewSeeLowNumbers(maxRetries: nat, q: Redis, life: Life, limit: nat)
    requires Reachable(maxRetries, q)
    ensures |SawAtMost(q, life, limit)| <= limit
  {
    ReachableHolds(maxRetries, q);
    var some := SawAtMost(q, life, limit);
    var f := map a | a in some :: q.answers[q.calls[a].command].n;
    forall a <- some ensures f[a] in UpTo(limit) {
      AnswerIsOnesOwn(maxRetries, q, a);
      assert AnswerOk(q, q.calls[a].command);
    }
    forall a <- some, b <- some | f[a] == f[b] ensures a == b {
      AnswerIsOnesOwn(maxRetries, q, a);
      AnswerIsOnesOwn(maxRetries, q, b);
      assert AnswersApart(q, q.calls[a].command, q.calls[b].command);
    }
    FitsInto(some, UpTo(limit), f);
  }

  /** What a counter holds is the number of increments carried out in its life, answered or not. */
  lemma CounterCountsIncrements(maxRetries: nat, q: Redis, key: Key)
    requires Reachable(maxRetries, q) && key in q.store.slots && q.store.slots[key].Count?
    ensures q.store.slots[key].count == |Increments(q, q.store.slots[key].life)|
    ensures forall i <- Increments(q, q.store.slots[key].life) :: 1 <= q.answers[i].n <= q.store.slots[key].count
  {
    ReachableHolds(maxRetries, q);
    assert TallyOk(q, key);
    var life := q.store.slots[key].life;
    forall i <- Increments(q, life) ensures 1 <= q.answers[i].n <= q.store.slots[key].count {
      assert AnswerOk(q, i) && CommandOk(q, i) && SlotOk(q, key);
    }
  }

  // ----- retries -----

  /** A call sends at most one command and `max_retries` more. */
  lemma AttemptsAreBounded(maxRetries: nat, q: Redis, a: Caller)
    requires Reachable(maxRetries, q)
    ensures |Sent(q, a)| <= maxRetries + 1
  {
    ReachableHolds(maxRetries, q);
    assert BudgetOk(q, a, maxRetries);
  }

  /** A ticket stored by one caller's calls only goes to at most `max_retries + 1` callers: to one without retries. */
  lemma OneIssuersTicket(maxRetries: nat, q: Redis, key: Key, issuer: Caller)
    requires Reachable(maxRetries, q)
    requires forall i <- Issues(q, key) :: i in q.callers && q.callers[i] == issuer
    ensures |Consumers(q, key)| <= maxRetries + 1
  {
    ConsumersAreFew(maxRetries, q, key);
    AttemptsAreBounded(maxRetries, q, issuer);
    SubsetIsSmaller(Issues(q, key), Sent(q, issuer));
  }
}
