/** Two runs that show what retrying a command which may still take effect costs. */
module RedisWitness {
  import opened Prelude
  import opened RedisModel
  import opened RedisInvariant
  import opened RedisRuns

  lemma {:induction false} RunThen(maxRetries: nat, q: Redis, steps: seq<Step>, t: Redis, step: Step)
    requires Reaches(maxRetries, q, steps, t) && Enabled(t, step)
    ensures Reaches(maxRetries, q, steps + [step], Apply(maxRetries, t, step))
    decreases steps
  {
    hide Enabled, Apply;
    var more := steps + [step];
    if steps == [] {
      assert more == [step] && more[1..] == [];
      assert Reaches(maxRetries, Apply(maxRetries, q, step), [], Apply(maxRetries, q, step));
    } else {
      RunThen(maxRetries, Apply(maxRetries, q, steps[0]), steps[1..], t, step);
      assert more[1..] == steps[1..] + [step];
    }
  }

  lemma Next(maxRetries: nat, t: Redis, step: Step)
    requires Reachable(maxRetries, t) && Enabled(t, step)
    ensures Reachable(maxRetries, Apply(maxRetries, t, step))
  {
    hide Enabled, Apply;
    var steps :| Reaches(maxRetries, Initial(), steps, t);
    RunThen(maxRetries, Initial(), steps, t, step);
  }

  lemma InitialReachable(maxRetries: nat)
    ensures Reachable(maxRetries, Initial())
  {
    assert Reaches(maxRetries, Initial(), [], Initial());
  }

  /** Caller 0 has sent its command twice, giving up on the first; neither has taken effect yet. */
  ghost predicate SentTwice(maxRetries: nat, q: Redis, op: Op) {
    && Reachable(maxRetries, q)
    && q == Redis(Store(map[], 0, map[]), map[0 := op, 1 := op], map[0 := 0, 1 := 0], 2, {0, 1}, map[],
                  map[0 := Waiting(op, 1, 1)])
  }

  lemma SendTwice(maxRetries: nat, op: Op) returns (q: Redis)
    requires maxRetries >= 1
    ensures SentTwice(maxRetries, q, op)
  {
    hide Reachable;
    q := Initial();
    assert Reachable(maxRetries, q) by { InitialReachable(maxRetries); }
    Next(maxRetries, q, Begin(0, op));
    q := CallTo(q, 0, Ready(op, 0));
    Next(maxRetries, q, Send(0));
    q := SendStep(q, 0);
    Next(maxRetries, q, GiveUp(0));
    q := GiveUpStep(q, 0, maxRetries);
    Next(maxRetries, q, Send(0));
    q := SendStep(q, 0);
  }

  /** A caller whose first attempt succeeded unnoticed is told that the pin, which now holds its value, is taken. */
  lemma WinnerToldItLost(maxRetries: nat, key: Key, value: string) returns (q: Redis)
    requires maxRetries >= 1
    ensures Reachable(maxRetries, q) && Answered(q, 0, SetUnique(key, value), Lost(0))
    ensures key in q.store.slots && q.store.slots[key] == Text(value, 0)
    ensures 0 in q.store.born && q.store.born[0] in q.callers && q.callers[q.store.born[0]] == 0
  {
    hide Reachable;
    q := SendTwice(maxRetries, SetUnique(key, value));
    Next(maxRetries, q, Execute(0));
    q := ExecuteStep(q, 0);
    Next(maxRetries, q, Execute(1));
    q := ExecuteStep(q, 1);
    Next(maxRetries, q, Receive(0));
    q := CallTo(q, 0, Returned(q.calls[0].op, q.calls[0].command));
  }

  lemma Taken(maxRetries: nat, q: Redis, key: Key, a: Caller) returns (t: Redis)
    requires Reachable(maxRetries, q) && a !in q.calls && q.nextCommand !in q.answers && key in q.store.slots
    ensures Reachable(maxRetries, t) && Answered(t, a, Consume(key), Value(q.store.slots[key]))
    ensures t.store == q.store.(slots := q.store.slots - {key}) && t.nextCommand == q.nextCommand + 1
    ensures t.ops == q.ops[q.nextCommand := Consume(key)] && t.callers == q.callers[q.nextCommand := a]
    ensures t.calls.Keys == q.calls.Keys + {a}
    ensures t.answers == q.answers[q.nextCommand := Value(q.store.slots[key])]
    ensures t.travelling == q.travelling - {q.nextCommand}
    ensures forall b <- q.calls :: t.calls[b] == q.calls[b]
    ensures t.calls[a].Returned? && t.calls[a].command == q.nextCommand
  {
    hide Reachable;
    t := q;
    Next(maxRetries, t, Begin(a, Consume(key)));
    t := CallTo(t, a, Ready(Consume(key), 0));
    Next(maxRetries, t, Send(a));
    t := SendStep(t, a);
    Next(maxRetries, t, Execute(q.nextCommand));
    t := ExecuteStep(t, q.nextCommand);
    Next(maxRetries, t, Receive(a));
    t := CallTo(t, a, Returned(t.calls[a].op, t.calls[a].command));
  }

  /** Caller 1 has consumed what caller 0's second attempt stored; its first is still on its way. */
  lemma SecondAttemptConsumed(maxRetries: nat, key: Key, value: string) returns (q: Redis)
    requires maxRetries >= 1
    ensures Reachable(maxRetries, q) && Answered(q, 1, Consume(key), Value(Text(value, 0)))
    ensures q.store.slots == map[] && q.store.nextLife == 1 && q.travelling == {0} && q.nextCommand == 3
    ensures q.ops == map[0 := SetWithTtl(key, value), 1 := SetWithTtl(key, value), 2 := Consume(key)]
    ensures q.callers == map[0 := 0, 1 := 0, 2 := 1] && q.calls.Keys == {0, 1} && q.answers.Keys == {1, 2}
    ensures q.calls[1].command == 2
  {
    hide Reachable;
    q := SendTwice(maxRetries, SetWithTtl(key, value));
    Next(maxRetries, q, Execute(1));
    q := ExecuteStep(q, 1);
    q := Taken(maxRetries, q, key, 1);
  }

  /**
   A ticket stored by one call may be consumed by two callers: the first attempt to store it comes through only after
   the second has been stored and consumed.
   */
  lemma OneTicketTwoCallers(maxRetries: nat, key: Key, value: string) returns (q: Redis)
    requires maxRetries >= 1
    ensures Reachable(maxRetries, q)
    ensures Answered(q, 1, Consume(key), Value(Text(value, 0))) && Answered(q, 2, Consume(key), Value(Text(value, 1)))
    ensures q.callers.Keys == q.ops.Keys
    ensures forall i <- q.ops :: q.ops[i] == Consume(key) || (q.ops[i] == SetWithTtl(key, value) && q.callers[i] == 0)
  {
    hide Reachable;
    q := SecondAttemptConsumed(maxRetries, key, value);
    Next(maxRetries, q, Execute(0));
    q := ExecuteStep(q, 0);
    q := Taken(maxRetries, q, key, 2);
  }

  // ----- exactly without retries -----

  /** Whatever was written under the key was written by one caller's call. */
  ghost predicate SoleIssuer(q: Redis, key: Key, issuer: Caller) {
    forall i <- Issues(q, key) :: i in q.callers && q.callers[i] == issuer
  }

  /** A ticket stored by one call goes to at most one caller, in every run. */
  ghost predicate TicketsGoOnce(maxRetries: nat) {
    forall q, key, issuer :: Reachable(maxRetries, q) && SoleIssuer(q, key, issuer) ==> |Consumers(q, key)| <= 1
  }

  lemma TicketsGoOnceExactlyWithoutRetries(maxRetries: nat)
    ensures TicketsGoOnce(maxRetries) <==> maxRetries == 0
  {
    hide Reachable;
    if maxRetries == 0 {
      forall q, key, issuer | Reachable(maxRetries, q) && SoleIssuer(q, key, issuer) ensures |Consumers(q, key)| <= 1 {
        OneIssuersTicket(maxRetries, q, key, issuer);
      }
    } else {
      var q := OneTicketTwoCallers(maxRetries, "ticket", "value");
      ReachableHolds(maxRetries, q);
      forall i <- Issues(q, "ticket") ensures i in q.callers && q.callers[i] == 0 { assert AnswerOk(q, i); }
      assert SoleIssuer(q, "ticket", 0);
      assert {1, 2} <= Consumers(q, "ticket");
      SubsetIsSmaller({1, 2}, Consumers(q, "ticket"));
    }
  }

  /** The life was begun by a command of another caller than `a`. */
  predicate HeldByAnother(q: Redis, a: Caller, life: Life) {
    life in q.store.born && q.store.born[life] in q.callers && q.callers[q.store.born[life]] != a
  }

  /** Whoever is told that a pin is taken is told so of another caller, in every run. */
  ghost predicate LosersLostToOthers(maxRetries: nat) {
    forall q, key, value, a, holder ::
      Reachable(maxRetries, q) && Answered(q, a, SetUnique(key, value), Lost(holder)) ==> HeldByAnother(q, a, holder)
  }

  lemma LosersLostToOthersExactlyWithoutRetries(maxRetries: nat)
    ensures LosersLostToOthers(maxRetries) <==> maxRetries == 0
  {
    hide Reachable;
    if maxRetries == 0 {
      forall q, key, value, a, holder | Reachable(maxRetries, q) && Answered(q, a, SetUnique(key, value), Lost(holder))
        ensures HeldByAnother(q, a, holder)
      {
        LostToAnother(maxRetries, q, key, a, value, holder);
        AttemptsAreBounded(maxRetries, q, a);
        ReachableHolds(maxRetries, q);
        AnswerIsOnesOwn(maxRetries, q, a);
        assert q.calls[a].command in Sent(q, a);
      }
    } else {
      var q := WinnerToldItLost(maxRetries, "pin", "value");
      assert !HeldByAnother(q, 0, 0);
    }
  }
}
