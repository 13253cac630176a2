/** The retry loop of the Redis client and the two scripts it runs, for a caller nobody else interferes with. */
module RedisClientModule {
  import opened RedisModel

  /** What becomes of one attempt. */
  datatype Fate = Replied | ReplyLost | NotSent | NoConnection

  datatype Result = Ok(answer: Answer) | Error

  function Attempts(s: Store, op: Op, net: nat -> Fate, attempt: nat, maxRetries: nat): (Store, Result)
    requires attempt <= maxRetries
    decreases maxRetries - attempt
  {
    var (t, answer) := if net(attempt).Replied? || net(attempt).ReplyLost? then Run(s, op, attempt) else (s, WrongType);
    if net(attempt).NoConnection? then (s, Error)
    else if net(attempt).Replied? && !answer.WrongType? then (t, Ok(answer))
    else if attempt < maxRetries then Attempts(t, op, net, attempt + 1, maxRetries)
    else (t, Error)
  }

  /** Whether the first attempt to take effect is also answered. */
  predicate FirstEffectIsSeen(net: nat -> Fate, attempt: nat, maxRetries: nat)
    requires attempt <= maxRetries
    decreases maxRetries - attempt
  {
    match net(attempt)
    case Replied => true
    case NotSent => attempt < maxRetries && FirstEffectIsSeen(net, attempt + 1, maxRetries)
    case _ => false
  }

  /** A consumer gets the value of a ticket exactly if its first attempt to take effect is answered. */
  lemma {:induction false} ConsumeGetsIffSeen(s: Store, key: Key, net: nat -> Fate, attempt: nat, maxRetries: nat)
    requires attempt <= maxRetries && key in s.slots
    ensures var result := Attempts(s, Consume(key), net, attempt, maxRetries).1;
            (result == Ok(Value(s.slots[key])) <==> FirstEffectIsSeen(net, attempt, maxRetries))
    decreases maxRetries - attempt
  {
    if attempt < maxRetries {
      if net(attempt).NotSent? {
        ConsumeGetsIffSeen(s, key, net, attempt + 1, maxRetries);
      } else if net(attempt).ReplyLost? {
        AbsentTicketIsNothing(s.(slots := s.slots - {key}), key, net, attempt + 1, maxRetries);
      }
    }
  }

  /** Some attempt is answered, and none before it fails to get a connection. */
  ghost predicate Heard(net: nat -> Fate, attempt: nat, maxRetries: nat) {
    exists i: nat :: attempt <= i <= maxRetries && net(i).Replied? && Connected(net, attempt, i)
  }

  ghost predicate Connected(net: nat -> Fate, attempt: nat, until: nat) {
    forall j: nat | attempt <= j < until :: !net(j).NoConnection?
  }

  /** Some attempt takes effect: all before it, if any, were not even sent. */
  ghost predicate CarriedOut(net: nat -> Fate, attempt: nat, maxRetries: nat) {
    exists i: nat :: attempt <= i <= maxRetries && (net(i).Replied? || net(i).ReplyLost?) && Unsent(net, attempt, i)
  }

  ghost predicate Unsent(net: nat -> Fate, attempt: nat, until: nat) {
    forall j: nat | attempt <= j < until :: net(j).NotSent?
  }

  lemma HeardNext(net: nat -> Fate, attempt: nat, maxRetries: nat)
    requires attempt <= maxRetries
    ensures Heard(net, attempt, maxRetries) <==>
              net(attempt).Replied?
              || (!net(attempt).NoConnection? && attempt < maxRetries && Heard(net, attempt + 1, maxRetries))
  {
    if net(attempt).Replied? {
      assert Connected(net, attempt, attempt);
    } else if Heard(net, attempt, maxRetries) {
      var i: nat :| attempt <= i <= maxRetries && net(i).Replied? && Connected(net, attempt, i);
      assert Connected(net, attempt + 1, i);
    }
  }

  lemma CarriedOutNext(net: nat -> Fate, attempt: nat, maxRetries: nat)
    requires attempt <= maxRetries
    ensures CarriedOut(net, attempt, maxRetries) <==>
              net(attempt).Replied? || net(attempt).ReplyLost?
              || (net(attempt).NotSent? && attempt < maxRetries && CarriedOut(net, attempt + 1, maxRetries))
  {
    if net(attempt).Replied? || net(attempt).ReplyLost? {
      assert Unsent(net, attempt, attempt);
    } else if CarriedOut(net, attempt, maxRetries) {
      var i: nat :| attempt <= i <= maxRetries && (net(i).Replied? || net(i).ReplyLost?) && Unsent(net, attempt, i);
      assert Unsent(net, attempt + 1, i);
    } else if net(attempt).NotSent? && attempt < maxRetries && CarriedOut(net, attempt + 1, maxRetries) {
      var i: nat :| attempt + 1 <= i <= maxRetries && (net(i).Replied? || net(i).ReplyLost?)
                    && Unsent(net, attempt + 1, i);
      assert Unsent(net, attempt, i);
    }
  }

  predicate CountsText(s: Store, op: Op) {
    op.Increment? && op.key in s.slots && s.slots[op.key].Text?
  }

  /** A call returns an answer exactly if it hears one; but text cannot be counted, which is an error each time. */
  lemma {:induction false} AnswersExactlyWhenHeard(s: Store, op: Op, net: nat -> Fate, attempt: nat, maxRetries: nat)
    requires attempt <= maxRetries
    ensures var (t, result) := Attempts(s, op, net, attempt, maxRetries);
            && (result.Ok? <==> Heard(net, attempt, maxRetries) && !CountsText(s, op))
            && (CountsText(s, op) ==> t == s)
    decreases maxRetries - attempt
  {
    HeardNext(net, attempt, maxRetries);
    hide Heard;
    if attempt < maxRetries {
      AnswersExactlyWhenHeard(s, op, net, attempt + 1, maxRetries);
      AnswersExactlyWhenHeard(Run(s, op, attempt).0, op, net, attempt + 1, maxRetries);
    }
  }

  /** An absent ticket is answered with nothing if any answer is heard, with an error if none is; nothing changes. */
  lemma {:induction false} AbsentTicketIsNothing(s: Store, key: Key, net: nat -> Fate, attempt: nat, maxRetries: nat)
    requires attempt <= maxRetries && key !in s.slots
    ensures var (t, result) := Attempts(s, Consume(key), net, attempt, maxRetries);
            t == s && result == if Heard(net, attempt, maxRetries) then Ok(NoValue) else Error
    decreases maxRetries - attempt
  {
    HeardNext(net, attempt, maxRetries);
    hide Heard;
    if attempt < maxRetries {
      AbsentTicketIsNothing(s, key, net, attempt + 1, maxRetries);
    }
  }

  /** What an operation leaves under its key, and what it may answer, once it has been carried out at least once. */
  ghost predicate Effected(s: Store, op: Op, t: Store, result: Result) {
    match op
    case SetUnique(key, value) =>
      if key in s.slots then t == s && (result.Ok? ==> result.answer == Lost(s.slots[key].life))
      else
        && t.slots == s.slots[key := Text(value, s.nextLife)]
        && (result.Ok? ==> result.answer == Won(s.nextLife) || result.answer == Lost(s.nextLife))
    case SetWithTtl(key, value) =>
      && key in t.slots && t.slots[key].Text? && t.slots[key].value == value
      && t.slots == s.slots[key := t.slots[key]] && (result.Ok? ==> result.answer == Stored)
    case Delete(key) => t.slots == s.slots - {key} && (result.Ok? ==> result.answer == Deleted)
    case Consume(key) =>
      && t.slots == s.slots - {key}
      && (result.Ok? ==> result.answer == NoValue || (key in s.slots && result.answer == Value(s.slots[key])))
    case Increment(key) =>
      && CountAt(t, key) > CountAt(s, key) && t.slots == s.slots[key := t.slots[key]]
      && (result.Ok? ==> result.answer.Number?)
  }

  /** A call that is carried out at all does to the store what its operation says, however often; otherwise nothing. */
  lemma {:induction false} CallTakesEffect(s: Store, op: Op, net: nat -> Fate, attempt: nat, maxRetries: nat)
    requires attempt <= maxRetries && !CountsText(s, op)
    ensures var (t, result) := Attempts(s, op, net, attempt, maxRetries);
            if CarriedOut(net, attempt, maxRetries) then Effected(s, op, t, result) else t == s && result == Error
    decreases maxRetries - attempt
  {
    CarriedOutNext(net, attempt, maxRetries);
    hide CarriedOut;
    if attempt < maxRetries {
      CallTakesEffect(s, op, net, attempt + 1, maxRetries);
      CallTakesEffect(Run(s, op, attempt).0, op, net, attempt + 1, maxRetries);
    }
  }

  /** A caller is told that a free pin is its own exactly if its first attempt to take effect is answered. */
  lemma {:induction false} FreePinIsWonIffSeen(s: Store, key: Key, value: string, net: nat -> Fate, attempt: nat,
                                               maxRetries: nat)
    requires attempt <= maxRetries && key !in s.slots
    ensures var result := Attempts(s, SetUnique(key, value), net, attempt, maxRetries).1;
            (result == Ok(Won(s.nextLife)) <==> FirstEffectIsSeen(net, attempt, maxRetries))
    decreases maxRetries - attempt
  {
    if attempt < maxRetries {
      if net(attempt).NotSent? {
        FreePinIsWonIffSeen(s, key, value, net, attempt + 1, maxRetries);
      } else if net(attempt).ReplyLost? {
        TakenPinIsLost(Fresh(s, key, value, attempt), key, value, net, attempt + 1, maxRetries);
      }
    }
  }

  lemma {:induction false} TakenPinIsLost(s: Store, key: Key, value: string, net: nat -> Fate, attempt: nat,
                                          maxRetries: nat)
    requires attempt <= maxRetries && key in s.slots
    ensures var (t, result) := Attempts(s, SetUnique(key, value), net, attempt, maxRetries);
            t == s && (result == Error || result == Ok(Lost(s.slots[key].life)))
    decreases maxRetries - attempt
  {
    if attempt < maxRetries {
      TakenPinIsLost(s, key, value, net, attempt + 1, maxRetries);
    }
  }

  /** The attempts that took effect unnoticed before the call returned. */
  function Unnoticed(net: nat -> Fate, attempt: nat, maxRetries: nat): nat
    requires attempt <= maxRetries
    decreases maxRetries - attempt
  {
    (if net(attempt).ReplyLost? then 1 else 0)
    + if (net(attempt).NotSent? || net(attempt).ReplyLost?) && attempt < maxRetries
      then Unnoticed(net, attempt + 1, maxRetries) else 0
  }

  function CountAt(s: Store, key: Key): nat {
    if key in s.slots && s.slots[key].Count? then s.slots[key].count else 0
  }

  /** The number a caller sees is one more than what was there and its own unnoticed increments together. */
  lemma {:induction false} IncrementSees(s: Store, key: Key, net: nat -> Fate, attempt: nat, maxRetries: nat)
    requires attempt <= maxRetries && (key in s.slots ==> s.slots[key].Count?)
    ensures var (t, result) := Attempts(s, Increment(key), net, attempt, maxRetries);
            var seen := CountAt(s, key) + Unnoticed(net, attempt, maxRetries);
            if result.Ok? then result.answer.Number? && result.answer.n == seen + 1 == CountAt(t, key)
            else CountAt(t, key) == seen
    decreases maxRetries - attempt
  {
    if attempt < maxRetries {
      if net(attempt).NotSent? {
        IncrementSees(s, key, net, attempt + 1, maxRetries);
      } else if net(attempt).ReplyLost? {
        IncrementSees(Run(s, Increment(key), attempt).0, key, net, attempt + 1, maxRetries);
      }
    }
  }

  class RedisClient {
    const maxRetries: nat
    var slots: map<Key, Slot>
    /** The keys with a time to live. */
    var expiring: set<Key>
    var nextLife: Life
    ghost var born: map<Life, CommandId>

    ghost function View(): Store
      reads this
    {
      Store(slots, nextLife, born)
    }

    /** No key stays for ever: each has a time to live. */
    predicate Valid()
      reads this
    {
      slots.Keys == expiring
    }

    constructor (maxRetries: nat)
      ensures Valid() && slots == map[] && this.maxRetries == maxRetries
    {
      this.maxRetries := maxRetries;
      slots, expiring, nextLife, born := map[], {}, 0, map[];
    }

    method Put(key: Key, value: string, ghost command: CommandId)
      requires Valid()
      modifies this`slots, this`expiring, this`nextLife, this`born
      ensures Valid() && View() == Fresh(old(View()), key, value, command)
    {
      slots := slots[key := Text(value, nextLife)];
      born := born[nextLife := command];
      nextLife := nextLife + 1;
      expiring := expiring + {key};
    }

    method Remove(key: Key)
      requires Valid()
      modifies this`slots, this`expiring
      ensures Valid() && View() == old(View()).(slots := old(slots) - {key})
    {
      slots := slots - {key};
      expiring := expiring - {key};
    }

    /** The script of `consume_join_ticket`. */
    method ConsumeScript(key: Key) returns (answer: Answer)
      requires Valid()
      modifies this`slots, this`expiring
      ensures Valid() && (View(), answer) == Run(old(View()), Consume(key), 0)
      ensures slots == old(slots) - {key}
      ensures answer == if key in old(slots) then Value(old(slots)[key]) else NoValue
    {
      if key in slots {
        answer := Value(slots[key]);
        Remove(key);
      } else {
        answer := NoValue;
      }
    }

    /** The script of `increment_with_ttl`: a counter gets its time to live with its first increment. */
    method IncrementScript(key: Key, ghost command: CommandId) returns (answer: Answer)
      requires Valid()
      modifies this`slots, this`expiring, this`nextLife, this`born
      ensures Valid() && (View(), answer) == Run(old(View()), Increment(key), command)
      ensures if key in old(slots) && old(slots)[key].Text? then answer == WrongType && slots == old(slots)
              else answer.Number? && key in slots && slots == old(slots)[key := Count(answer.n, slots[key].life)]
                   && answer.n == 1 + if key in old(slots) then old(slots)[key].count else 0
    {
      if key in slots && slots[key].Text? {
        return WrongType;
      }
      var count := 1;
      if key in slots {
        count := slots[key].count + 1;
        slots := slots[key := slots[key].(count := count)];
      } else {
        slots := slots[key := Count(1, nextLife)];
        born := born[nextLife := command];
        nextLife := nextLife + 1;
      }
      if count == 1 {
        expiring := expiring + {key};
      }
      answer := Number(count, slots[key].life);
    }

    method Execute(op: Op, ghost command: CommandId) returns (answer: Answer)
      requires Valid()
      modifies this`slots, this`expiring, this`nextLife, this`born
      ensures Valid() && (View(), answer) == Run(old(View()), op, command)
    {
      match op
      case SetUnique(key, value) =>
        if key in slots {
          answer := Lost(slots[key].life);
        } else {
          Put(key, value, command);
          answer := Won(nextLife - 1);
        }
      case SetWithTtl(key, value) => Put(key, value, command); answer := Stored;
      case Delete(key) => Remove(key); answer := Deleted;
      case Consume(key) => answer := ConsumeScript(key);
      case Increment(key) => answer := IncrementScript(key, command);
    }

    /** The retry loop that every operation is. */
    method Call(op: Op, net: nat -> Fate) returns (result: Result)
      requires Valid()
      modifies this`slots, this`expiring, this`nextLife, this`born
      ensures Valid() && (View(), result) == Attempts(old(View()), op, net, 0, maxRetries)
    {
      var attempt := 0;
      while true
        invariant Valid() && attempt <= maxRetries
        invariant Attempts(View(), op, net, attempt, maxRetries) == Attempts(old(View()), op, net, 0, maxRetries)
        decreases maxRetries - attempt
      {
        var answer := WrongType;
        if net(attempt).NoConnection? {
          return Error;
        }
        if !net(attempt).NotSent? {
          answer := Execute(op, attempt);
        }
        if net(attempt).Replied? && !answer.WrongType? {
          return Ok(answer);
        }
        if attempt >= maxRetries {
          return Error;
        }
        attempt := attempt + 1;
      }
    }
  }
}
