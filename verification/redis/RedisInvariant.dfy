/** What holds of Redis and its callers in every state, whatever is lost, late, or repeated. */
module RedisInvariant {
  import opened RedisModel

  // ----- commands and their callers -----

  /** Each command was sent by one caller for its own operation, and is carried out at most once. */
  predicate CommandOk(q: Redis, i: CommandId) {
    && (i in q.ops <==> i in q.callers) && (i in q.ops ==> i < q.nextCommand)
    && (i in q.answers || i in q.travelling ==> i in q.ops)
    && !(i in q.answers && i in q.travelling)
    && (i in q.ops ==> q.callers[i] in q.calls && q.calls[q.callers[i]].op == q.ops[i])
  }

  predicate CallOk(q: Redis, a: Caller) {
    a in q.calls ==>
      && (q.calls[a].Waiting? ==> q.calls[a].command in q.callers && q.callers[q.calls[a].command] == a)
      && (q.calls[a].Returned? ==> q.calls[a].command in q.answers && q.calls[a].command in q.callers
                                   && !q.answers[q.calls[a].command].WrongType?)
      && (q.calls[a].Returned? ==> q.callers[q.calls[a].command] == a)
  }

  function Sent(q: Redis, a: Caller): set<CommandId> {
    set i | i in q.callers && q.callers[i] == a
  }

  function Budget(call: Call, maxRetries: nat): nat {
    match call
    case Ready(_, attempt) => attempt
    case Waiting(_, attempt, _) => attempt + 1
    case _ => maxRetries + 1
  }

  predicate BudgetOk(q: Redis, a: Caller, maxRetries: nat) {
    if a in q.calls then |Sent(q, a)| <= Budget(q.calls[a], maxRetries) <= maxRetries + 1
                         && (q.calls[a].Ready? ==> q.calls[a].attempt <= maxRetries)
    else Sent(q, a) == {}
  }

  ghost predicate Calls(q: Redis, maxRetries: nat) {
    && (forall i: CommandId :: CommandOk(q, i)) && (forall a: Caller :: CallOk(q, a))
    && (forall a: Caller :: BudgetOk(q, a, maxRetries))
  }

  // ----- the lives of a key -----

  /** Whether command `i`, carried out, began `life`. */
  predicate Began(q: Redis, i: CommandId, life: Life) {
    && i in q.ops && i in q.answers
    && (q.answers[i] == Won(life) || q.answers[i] == Stored || q.answers[i] == Number(1, life))
  }

  /** `life` is one of `key`. */
  predicate LifeOf(q: Redis, life: Life, key: Key) {
    life in q.store.born && q.store.born[life] in q.ops && q.ops[q.store.born[life]].key == key
  }

  predicate LifeOk(q: Redis, life: Life) {
    && (life in q.store.born <==> life < q.store.nextLife)
    && (life in q.store.born ==> Began(q, q.store.born[life], life))
  }

  predicate BirthsApart(q: Redis, a: Life, b: Life) {
    a in q.store.born && b in q.store.born && q.store.born[a] == q.store.born[b] ==> a == b
  }

  predicate SlotOk(q: Redis, key: Key) {
    key in q.store.slots ==> LifeOf(q, q.store.slots[key].life, key)
  }

  ghost predicate Lives(q: Redis) {
    && (forall life: Life :: LifeOk(q, life)) && (forall a: Life, b: Life :: BirthsApart(q, a, b))
    && (forall key: Key :: SlotOk(q, key))
  }

  // ----- answers -----

  /** A value handed out belongs to a life that is over, a number to one that has counted at least so far. */
  predicate AnswerOk(q: Redis, i: CommandId) {
    i in q.answers && i in q.ops ==>
      var key := q.ops[i].key;
      match q.answers[i]
      case Value(slot) =>
        && q.ops[i].Consume? && LifeOf(q, slot.life, key)
        && (key in q.store.slots ==> q.store.slots[key].life != slot.life)
      case Number(n, life) =>
        && q.ops[i].Increment? && LifeOf(q, life, key) && n >= 1
        && (key in q.store.slots && q.store.slots[key].life == life ==>
              q.store.slots[key].Count? && n <= q.store.slots[key].count)
      case Won(life) => q.ops[i].SetUnique? && LifeOf(q, life, key) && q.store.born[life] == i
      case Stored => q.ops[i].SetWithTtl?
      case Lost(life) => LifeOf(q, life, key) && q.store.born[life] != i
      case _ => true
  }

  /** No value is handed out twice in its life, no number twice in one life. */
  predicate AnswersApart(q: Redis, i: CommandId, j: CommandId) {
    i in q.answers && j in q.answers && i != j ==>
      && (q.answers[i].Value? && q.answers[j].Value? ==> q.answers[i].slot.life != q.answers[j].slot.life)
      && (q.answers[i].Number? && q.answers[j].Number? && q.answers[i].life == q.answers[j].life ==>
            q.answers[i].n != q.answers[j].n)
  }

  ghost predicate Answers(q: Redis) {
    (forall i: CommandId :: AnswerOk(q, i)) && (forall i: CommandId, j: CommandId :: AnswersApart(q, i, j))
  }

  function Increments(q: Redis, life: Life): set<CommandId> {
    set i | i in q.answers && q.answers[i].Number? && q.answers[i].life == life
  }

  /** A counter holds the number of increments carried out in its life. */
  predicate TallyOk(q: Redis, key: Key) {
    key in q.store.slots && q.store.slots[key].Count? ==>
      |Increments(q, q.store.slots[key].life)| == q.store.slots[key].count
  }

  ghost predicate Tallies(q: Redis) {
    forall key: Key :: TallyOk(q, key)
  }

  ghost predicate Inv(maxRetries: nat, q: Redis) {
    Calls(q, maxRetries) && Lives(q) && Answers(q) && Tallies(q)
  }

  // ----- preservation -----

  lemma SentAfter(q: Redis, a: Caller, b: Caller)
    requires CommandOk(q, q.nextCommand) && Enabled(q, Send(a))
    ensures Sent(SendStep(q, a), b) == Sent(q, b) + (if b == a then {q.nextCommand} else {})
    ensures q.nextCommand !in Sent(q, b)
  {
  }

  lemma OneElse(some: set<CommandId>, i: CommandId)
    requires i !in some
    ensures |some + {i}| == |some| + 1
  {
  }

  lemma SendBudget(q: Redis, a: Caller, b: Caller, maxRetries: nat)
    requires CommandOk(q, q.nextCommand) && BudgetOk(q, a, maxRetries) && BudgetOk(q, b, maxRetries)
    requires Enabled(q, Send(a))
    ensures BudgetOk(SendStep(q, a), b, maxRetries)
  {
    hide Sent;
    SentAfter(q, a, b);
    OneElse(Sent(q, b), q.nextCommand);
  }

  lemma SendCalls(q: Redis, a: Caller, maxRetries: nat)
    requires Calls(q, maxRetries) && Enabled(q, Send(a))
    ensures Calls(SendStep(q, a), maxRetries)
  {
    hide BudgetOk;
    var t := SendStep(q, a);
    assert CommandOk(q, q.nextCommand);
    forall i ensures CommandOk(t, i) { assert CommandOk(q, i); }
    forall b ensures CallOk(t, b) { assert CallOk(q, b); }
    forall b ensures BudgetOk(t, b, maxRetries) { SendBudget(q, a, b, maxRetries); }
  }

  lemma CallsKept(maxRetries: nat, q: Redis, step: Step)
    requires Calls(q, maxRetries) && Enabled(q, step)
    ensures Calls(Apply(maxRetries, q, step), maxRetries)
  {
    if step.Send? {
      SendCalls(q, step.caller, maxRetries);
    } else {
      hide Run;
      var t := Apply(maxRetries, q, step);
      forall i ensures CommandOk(t, i) { assert CommandOk(q, i); }
      assert step.Execute? ==> CommandOk(q, step.command);
      forall b ensures CallOk(t, b) { assert CallOk(q, b) && BudgetOk(q, b, maxRetries); }
      forall b ensures BudgetOk(t, b, maxRetries) {
        assert BudgetOk(q, b, maxRetries);
        assert Sent(t, b) == Sent(q, b);
      }
    }
  }

  lemma ExecuteLives(q: Redis, i: CommandId)
    requires (forall j: CommandId :: CommandOk(q, j)) && Lives(q) && Enabled(q, Execute(i))
    ensures Lives(ExecuteStep(q, i))
  {
    var t := ExecuteStep(q, i);
    assert CommandOk(q, i) && LifeOk(q, q.store.nextLife);
    forall life ensures LifeOk(t, life) { assert LifeOk(q, life); }
    forall a, b ensures BirthsApart(t, a, b) { assert BirthsApart(q, a, b) && LifeOk(q, a) && LifeOk(q, b); }
    forall key ensures SlotOk(t, key) { assert SlotOk(q, key); }
  }

  lemma LivesKept(maxRetries: nat, q: Redis, step: Step)
    requires Calls(q, maxRetries) && Lives(q) && Enabled(q, step)
    ensures Lives(Apply(maxRetries, q, step))
  {
    if step.Execute? {
      ExecuteLives(q, step.command);
    } else {
      hide Run;
      var t := Apply(maxRetries, q, step);
      assert CommandOk(q, q.nextCommand);
      forall life ensures LifeOk(t, life) { assert LifeOk(q, life); }
      forall a, b ensures BirthsApart(t, a, b) { assert BirthsApart(q, a, b); }
      forall key ensures SlotOk(t, key) { assert SlotOk(q, key); }
    }
  }

  lemma NewAnswerOk(q: Redis, i: CommandId)
    requires (forall x: CommandId :: CommandOk(q, x)) && Lives(q) && Enabled(q, Execute(i))
    ensures AnswerOk(ExecuteStep(q, i), i)
  {
    var key := q.ops[i].key;
    assert CommandOk(q, i) && SlotOk(q, key) && LifeOk(q, q.store.nextLife);
    assert key in q.store.slots ==> LifeOk(q, q.store.slots[key].life);
    hide Lives;
  }

  lemma ExecuteAnswerOk(q: Redis, i: CommandId, j: CommandId)
    requires (forall x: CommandId :: CommandOk(q, x)) && Lives(q) && AnswerOk(q, j) && Enabled(q, Execute(i))
    ensures AnswerOk(ExecuteStep(q, i), j)
  {
    if i == j {
      NewAnswerOk(q, i);
    } else {
      assert CommandOk(q, i) && CommandOk(q, j) && SlotOk(q, q.ops[i].key) && LifeOk(q, q.store.nextLife);
      hide Lives;
    }
  }

  lemma ExecuteApart(q: Redis, i: CommandId, j: CommandId)
    requires (forall x: CommandId :: CommandOk(q, x)) && Lives(q) && AnswerOk(q, j) && Enabled(q, Execute(i)) && i != j
    ensures AnswersApart(ExecuteStep(q, i), i, j)
  {
    var key := q.ops[i].key;
    assert CommandOk(q, i) && CommandOk(q, j) && SlotOk(q, key) && LifeOk(q, q.store.nextLife);
    hide Lives;
  }

  lemma ExecuteAnswers(q: Redis, i: CommandId)
    requires (forall j: CommandId :: CommandOk(q, j)) && Lives(q) && Answers(q) && Enabled(q, Execute(i))
    ensures Answers(ExecuteStep(q, i))
  {
    var t := ExecuteStep(q, i);
    forall j ensures AnswerOk(t, j) { ExecuteAnswerOk(q, i, j); }
    forall a, b ensures AnswersApart(t, a, b) {
      assert AnswersApart(q, a, b);
      if a == i && b != i { ExecuteApart(q, i, b); }
      if b == i && a != i { ExecuteApart(q, i, a); }
    }
  }

  lemma AnswersKept(maxRetries: nat, q: Redis, step: Step)
    requires Calls(q, maxRetries) && Lives(q) && Answers(q) && Enabled(q, step)
    ensures Answers(Apply(maxRetries, q, step))
  {
    if step.Execute? {
      ExecuteAnswers(q, step.command);
    } else {
      hide Run;
      var t := Apply(maxRetries, q, step);
      assert CommandOk(q, q.nextCommand);
      forall j ensures AnswerOk(t, j) { assert AnswerOk(q, j); }
      forall a, b ensures AnswersApart(t, a, b) { assert AnswersApart(q, a, b); }
    }
  }

  lemma IncrementsAfter(q: Redis, i: CommandId, life: Life)
    requires CommandOk(q, i) && Enabled(q, Execute(i))
    ensures var t := ExecuteStep(q, i);
            Increments(t, life) ==
            Increments(q, life) + (if t.answers[i].Number? && t.answers[i].life == life then {i} else {})
    ensures i !in Increments(q, life)
  {
    hide Run;
  }

  lemma ExecuteTally(q: Redis, i: CommandId, key: Key)
    requires CommandOk(q, i) && Lives(q) && (forall j: CommandId :: AnswerOk(q, j) && CommandOk(q, j))
    requires TallyOk(q, key) && Enabled(q, Execute(i))
    ensures TallyOk(ExecuteStep(q, i), key)
  {
    var t := ExecuteStep(q, i);
    if key in t.store.slots {
      var life := t.store.slots[key].life;
      IncrementsAfter(q, i, life);
      assert SlotOk(q, key) && SlotOk(q, q.ops[i].key) && LifeOk(q, q.store.nextLife);
      if life == q.store.nextLife {
        forall j ensures j !in Increments(q, life) { assert AnswerOk(q, j) && CommandOk(q, j); }
        assert Increments(q, life) == {};
      }
      hide Increments, Lives;
    }
  }

  lemma TalliesKept(maxRetries: nat, q: Redis, step: Step)
    requires Calls(q, maxRetries) && Lives(q) && Answers(q) && Tallies(q) && Enabled(q, step)
    ensures Tallies(Apply(maxRetries, q, step))
  {
    var t := Apply(maxRetries, q, step);
    forall key ensures TallyOk(t, key) {
      assert TallyOk(q, key);
      if step.Execute? {
        assert CommandOk(q, step.command);
        ExecuteTally(q, step.command, key);
      } else {
        assert t.answers == q.answers;
      }
    }
  }

  lemma InitialHolds(maxRetries: nat)
    ensures Inv(maxRetries, Initial())
  {
  }

  lemma StepKeeps(maxRetries: nat, q: Redis, step: Step)
    requires Inv(maxRetries, q) && Enabled(q, step)
    ensures Inv(maxRetries, Apply(maxRetries, q, step))
  {
    hide Calls, Lives, Answers, Tallies, Apply, Enabled;
    CallsKept(maxRetries, q, step);
    LivesKept(maxRetries, q, step);
    AnswersKept(maxRetries, q, step);
    TalliesKept(maxRetries, q, step);
  }
}
