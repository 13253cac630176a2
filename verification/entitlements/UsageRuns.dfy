/** What the service may and may not be relied on for, over any interleaving of checks and reports. */
module UsageRuns {
  import opened Prelude
  import opened UsageModel
  import opened UsageInvariant

  ghost predicate Reaches(c: Config, q: Usage, steps: seq<Step>, t: Usage)
    decreases steps
  {
    if steps == [] then q == t
    else Enabled(c, q, steps[0]) && Reaches(c, Apply(c, q, steps[0]), steps[1..], t)
  }

  ghost predicate Reachable(c: Config, t: Usage) {
    exists now, steps :: Reaches(c, Initial(now), steps, t)
  }

  lemma {:induction false} RunKeeps(c: Config, q: Usage, steps: seq<Step>, t: Usage)
    requires Inv(c, q) && Reaches(c, q, steps, t)
    ensures Inv(c, t)
    decreases steps
  {
    hide Inv, Apply, Enabled;
    if steps != [] {
      StepKeeps(c, q, steps[0]);
      RunKeeps(c, Apply(c, q, steps[0]), steps[1..], t);
    }
  }

  lemma ReachableHolds(c: Config, t: Usage)
    requires Formats(c) && Reachable(c, t)
    ensures Inv(c, t)
  {
    hide Inv, Initial;
    var now, steps :| Reaches(c, Initial(now), steps, t);
    InitialHolds(c, now);
    RunKeeps(c, Initial(now), steps, t);
  }

  // ----- the counters -----

  /** In every run, a feature's usage is the sum of the capped units of all reports counted in its column. */
  lemma UsageIsSumOfReports(c: Config, t: Usage, u: Uuid, f: Feature, p: Period)
    requires Reachable(c, t)
    ensures Used(t, u, f, p) == Total(t.postings, u, f, p)
  {
    var now, steps :| Reaches(c, Initial(now), steps, t);
    forall v: Uuid, g, r: Period ensures LedgerOk(Initial(now), v, g, r) { }
    LedgerLasts(c, Initial(now), steps, t);
    assert LedgerOk(t, u, f, p);
  }

  lemma {:induction false} LedgerLasts(c: Config, q: Usage, steps: seq<Step>, t: Usage)
    requires Ledger(q) && Reaches(c, q, steps, t)
    ensures Ledger(t)
    decreases steps
  {
    hide Ledger, Apply, Enabled;
    if steps != [] {
      LedgerKept(c, q, steps[0]);
      LedgerLasts(c, Apply(c, q, steps[0]), steps[1..], t);
    }
  }

  /** Whether a report of these units still leaves every feature's usage in its column. */
  ghost predicate HasRoom(q: Usage, u: Uuid, p: Period, f: Feature, units: nat) {
    forall g: Feature :: Used(q, u, g, p) + (if SameColumn(f, g) then Capped(units) else 0) <= I32_MAX
  }

  lemma FitsEveryFeature(row: Counters)
    ensures Fits(row) <==> forall g: Feature :: UsageForFeature(g, row) <= I32_MAX
  {
    assert UsageForFeature("CREATE_ROOM", row) == row.roomsCreated;
    assert UsageForFeature("START_GAME", row) == row.roomsStarted;
    assert UsageForFeature("REGISTER_BOT", row) == row.botsRegistered;
    assert UsageForFeature("AI_GENERATE", row) == row.aiJobsStarted;
    assert UsageForFeature("CREATE_QUIZ", row) == row.quizzesCreated;
    assert UsageForFeature("", row) == row.messagesSent;
  }

  lemma HasRoomExactlyWhen(q: Usage, u: Uuid, p: Period, f: Feature, units: nat)
    ensures HasRoom(q, u, p, f, units) <==> Fits(Add(RowAt(q.counters, u, p), UsageUnits(f, units)))
  {
    hide Add, UsageUnits, UsageForFeature, Fits, SameColumn, RowAt;
    var before := RowAt(q.counters, u, p);
    var row := Add(before, UsageUnits(f, units));
    forall g: Feature
      ensures UsageForFeature(g, row) == Used(q, u, g, p) + if SameColumn(f, g) then Capped(units) else 0
    {
      ReportRaisesItsColumn(before, f, units, g);
      assert Used(q, u, g, p) == UsageForFeature(g, before);
    }
    FitsEveryFeature(row);
  }

  /**
   A report's increment counts its units, capped, for the user it names and in the month it began, in the feature's
   column and no other, exactly if the database carries it out and there is room; the report goes on if it hears so.
   */
  lemma ReportCountsExactlyWhen(c: Config, q: Usage, t: TaskId, outcome: Outcome)
    requires Formats(c) && Reachable(c, q) && Enabled(c, q, Increment(t, outcome))
    ensures var r, task := Apply(c, q, Increment(t, outcome)), q.tasks[t];
            var u, f, p, units := task.user, task.request.feature, task.begun, task.request.units;
            var counts := outcome != NotDone && HasRoom(q, u, p, f, units);
            && c.parse(task.request.user) == Some(u)
            && (forall g: Feature :: Used(r, u, g, p) ==
                  Used(q, u, g, p) + if counts && SameColumn(f, g) then Capped(units) else 0)
            && (forall v: Uuid, g: Feature, o: Period :: (v, o) != (u, p) ==> Used(r, v, g, o) == Used(q, v, g, o))
            && r.postings == q.postings + (if counts then [Posting(u, p, f, units)] else [])
            && t in r.tasks && r.tasks[t].phase == (if counts && outcome == Replied then Counted else Failed)
            && r.cache == q.cache && r.writes == q.writes
  {
    ReachableHolds(c, q);
    assert TaskOk(c, q, t);
    var r, task := Apply(c, q, Increment(t, outcome)), q.tasks[t];
    var u, f, p, units := task.user, task.request.feature, task.begun, task.request.units;
    HasRoomExactlyWhen(q, u, p, f, units);
    hide Inv, Reachable, Formats, HasRoom, Fits, UsageKey;
    forall g: Feature ensures UsageForFeature(g, Add(RowAt(q.counters, u, p), UsageUnits(f, units))) ==
      Used(q, u, g, p) + if SameColumn(f, g) then Capped(units) else 0
    {
      ReportRaisesItsColumn(RowAt(q.counters, u, p), f, units, g);
    }
    hide Add, UsageUnits, UsageForFeature;
  }

  predicate RowFits(q: Usage, u: Uuid, p: Period) {
    Fits(RowAt(q.counters, u, p))
  }

  lemma {:induction false} RowsFit(c: Config, q: Usage, steps: seq<Step>, t: Usage, u: Uuid, p: Period)
    requires RowFits(q, u, p) && Reaches(c, q, steps, t)
    ensures RowFits(t, u, p)
    decreases steps
  {
    if steps != [] {
      assert RowFits(Apply(c, q, steps[0]), u, p);
      hide Enabled, Apply, RowFits;
      RowsFit(c, Apply(c, q, steps[0]), steps[1..], t, u, p);
    }
  }

  /** In every run each usage stays within its 32-bit column: a report that would leave it is not counted. */
  lemma UsageStaysInRange(c: Config, t: Usage, u: Uuid, f: Feature, p: Period)
    requires Reachable(c, t)
    ensures 0 <= Used(t, u, f, p) <= I32_MAX
  {
    UsageIsSumOfReports(c, t, u, f, p);
    var now, steps :| Reaches(c, Initial(now), steps, t);
    RowsFit(c, Initial(now), steps, t, u, p);
    assert RowFits(t, u, p);
  }

  // ----- the cache -----

  /** What was posted in the feature's column from one moment to another. */
  function Posted(q: Usage, since: nat, until: nat, u: Uuid, f: Feature, p: Period): nat
    requires since <= until <= |q.postings|
  {
    Total(q.postings[since..until], u, f, p)
  }

  lemma PostedJoins(q: Usage, since: nat, until: nat, u: Uuid, f: Feature, p: Period)
    requires since <= until <= |q.postings|
    ensures Posted(q, 0, until, u, f, p) == Posted(q, 0, since, u, f, p) + Posted(q, since, until, u, f, p)
  {
    assert q.postings[..until] == q.postings[..since] + q.postings[since..until];
    TotalJoins(q.postings[..since], q.postings[since..until], u, f, p);
  }

  /**
   Under a user's key for a feature and a month the cache holds the usage at an earlier moment of that month; or else
   of a later month, and then because a report of this user and feature, begun in this month, strayed with the figure.
   */
  lemma CacheHoldsAnEarlierUsage(c: Config, q: Usage, u: Uuid, f: Feature, p: Period)
    requires Formats(c) && Reachable(c, q) && UsageKey(c, c.render(u), f, p) in q.cache
    ensures var figure := q.cache[UsageKey(c, c.render(u), f, p)];
            && figure.asOf <= |q.postings| && figure.value == Posted(q, 0, figure.asOf, u, f, figure.of)
            && (figure.of != p ==> p < figure.of <= q.now && Stray(u, f, p, figure) in q.strays)
  {
    ReachableHolds(c, q);
    var key := UsageKey(c, c.render(u), f, p);
    assert Told(c, q, key, q.cache[key]);
    assert Speaks(c, q, key, q.cache[key], u, f, p);
    assert StrayOk(q, Stray(u, f, p, q.cache[key]));
  }

  /** A report strays exactly when it finishes in another, hence a later, month than it began in. */
  lemma StraysAreAstride(c: Config, q: Usage, step: Step, stray: Stray)
    requires Formats(c) && Reachable(c, q) && Enabled(c, q, step)
    ensures stray in Apply(c, q, step).strays && stray !in q.strays ==>
              && step.Finish? && q.tasks[step.task].request.Report?
              && stray.user == q.tasks[step.task].user && stray.feature == q.tasks[step.task].request.feature
              && stray.begun == q.tasks[step.task].begun < q.tasks[step.task].phase.period
              && stray.figure == q.tasks[step.task].phase.figure
    ensures step.Finish? && q.tasks[step.task].request.Report?
            && q.tasks[step.task].begun != q.tasks[step.task].phase.period ==>
              var task := q.tasks[step.task];
              Stray(task.user, task.request.feature, task.begun, task.phase.figure) in Apply(c, q, step).strays
  {
    ReachableHolds(c, q);
    if step.Finish? { assert TaskOk(c, q, step.task); }
    hide Inv, Reachable, Formats, UsageKey, Used, Fits, Add, UsageUnits, RowAt;
  }

  /** What is cached for a month exceeds its usage only if it has strayed there, which the current month's has not. */
  lemma CacheNeverExceedsUsage(c: Config, q: Usage, u: Uuid, f: Feature, p: Period)
    requires Formats(c) && Reachable(c, q) && UsageKey(c, c.render(u), f, p) in q.cache
    requires var figure := q.cache[UsageKey(c, c.render(u), f, p)];
             p == q.now || figure.of == p || Stray(u, f, p, figure) !in q.strays
    ensures q.cache[UsageKey(c, c.render(u), f, p)].value <= Used(q, u, f, p)
  {
    CacheHoldsAnEarlierUsage(c, q, u, f, p);
    UsageIsSumOfReports(c, q, u, f, p);
    assert q.postings[0..|q.postings|] == q.postings;
    PostedJoins(q, q.cache[UsageKey(c, c.render(u), f, p)].asOf, |q.postings|, u, f, p);
  }

  /**
   What is cached for a month exceeds its usage exactly when it is of a later month, a report of this user and feature
   having strayed with it, and by then more had been posted in that month than was ever posted in this one.
   */
  lemma CacheExceedsExactlyWhen(c: Config, q: Usage, u: Uuid, f: Feature, p: Period)
    requires Formats(c) && Reachable(c, q) && UsageKey(c, c.render(u), f, p) in q.cache
    ensures var figure := q.cache[UsageKey(c, c.render(u), f, p)];
            && figure.asOf <= |q.postings|
            && (figure.value > Used(q, u, f, p) <==>
                  figure.of > p
                  && Posted(q, 0, figure.asOf, u, f, figure.of) > Posted(q, 0, |q.postings|, u, f, p))
            && (figure.value > Used(q, u, f, p) ==> Stray(u, f, p, figure) in q.strays)
  {
    CacheHoldsAnEarlierUsage(c, q, u, f, p);
    UsageIsSumOfReports(c, q, u, f, p);
    var figure := q.cache[UsageKey(c, c.render(u), f, p)];
    assert q.postings[..|q.postings|] == q.postings;
    PostedJoins(q, figure.asOf, |q.postings|, u, f, p);
  }

  // ----- decisions -----

  /** Whatever strays, nobody decides on it: the figure of every decision is of the month it decides on. */
  lemma NoDecisionStrays(c: Config, q: Usage, t: TaskId)
    requires Formats(c) && Reachable(c, q) && t in q.tasks && q.tasks[t].phase.Decided?
    ensures var task := q.tasks[t];
            && task.phase.figure.of == task.phase.period
            && Stray(task.user, task.request.feature, task.phase.period, task.phase.figure) !in q.strays
  {
    ReachableHolds(c, q);
    var task := q.tasks[t];
    assert TaskOk(c, q, t);
    assert StrayOk(q, Stray(task.user, task.request.feature, task.phase.period, task.phase.figure));
  }

  /**
   Every decision ever made weighs an earlier usage against the quota. Judged by the usage when it is made, it allows
   wrongly exactly when the units posted in the feature's column since the figure was counted carry it to the quota.
   */
  lemma DecisionIsRightExactlyWhen(c: Config, q: Usage, t: TaskId)
    requires Formats(c) && Reachable(c, q) && t in q.tasks && q.tasks[t].phase.Decided?
    ensures var task, u, f := q.tasks[t], q.tasks[t].user, q.tasks[t].request.feature;
            var figure, at, p := task.phase.figure, task.phase.at, task.phase.period;
            && figure.asOf <= at <= |q.postings|
            && var counted, since := Posted(q, 0, figure.asOf, u, f, p), Posted(q, figure.asOf, at, u, f, p);
               && Posted(q, 0, at, u, f, p) == counted + since
               && (Allows(task.phase) && Posted(q, 0, at, u, f, p) >= task.phase.quota <==>
                     counted < task.phase.quota <= counted + since)
  {
    ReachableHolds(c, q);
    assert TaskOk(c, q, t);
    var task := q.tasks[t];
    PostedJoins(q, task.phase.figure.asOf, task.phase.at, task.user, task.request.feature, task.phase.period);
  }

  /** Every denial is justified: when it was made, and ever since, the real usage has reached the quota. */
  lemma DeniedOnlyOverQuota(c: Config, q: Usage, t: TaskId)
    requires Formats(c) && Reachable(c, q) && t in q.tasks && q.tasks[t].phase.Decided? && !Allows(q.tasks[t].phase)
    ensures var task, u, f := q.tasks[t], q.tasks[t].user, q.tasks[t].request.feature;
            && task.phase.at <= |q.postings|
            && task.phase.quota <= Posted(q, 0, task.phase.at, u, f, task.phase.period)
            && Posted(q, 0, task.phase.at, u, f, task.phase.period) <= Used(q, u, f, task.phase.period)
  {
    ReachableHolds(c, q);
    assert TaskOk(c, q, t);
    var task := q.tasks[t];
    var u, f, p := task.user, task.request.feature, task.phase.period;
    PostedJoins(q, task.phase.figure.asOf, task.phase.at, u, f, p);
    PostedJoins(q, task.phase.at, |q.postings|, u, f, p);
    UsageIsSumOfReports(c, q, u, f, p);
    assert q.postings[0..|q.postings|] == q.postings;
  }

  /** A check that nobody interrupts, with every reply. */
  function Checked(c: Config, q: Usage, t: TaskId, quota: int): Usage
    requires t in q.tasks && q.tasks[t].request.Check?
  {
    var looked := LookupStep(c, q, t, true);
    var resolved := if looked.tasks[t].phase.Missed? then RefillStep(c, QueryStep(looked, t, true), t) else looked;
    FinishStep(c, resolved, t, quota)
  }

  /**
   The check it makes of the state it finds: with no cached figure the answer is right; with one, it is wrong exactly
   when that figure is below the quota and the units posted since it was counted carry it there.
   */
  lemma CheckIsWrongExactlyWhen(c: Config, q: Usage, t: TaskId, quota: int)
    requires Formats(c) && Reachable(c, q) && AtPhase(q, t, Started) && q.tasks[t].request.Check?
    ensures var u, f, key := q.tasks[t].user, q.tasks[t].request.feature,
                             UsageKey(c, c.render(q.tasks[t].user), q.tasks[t].request.feature, q.now);
            var phase, actual := Checked(c, q, t, quota).tasks[t].phase, Used(q, u, f, q.now);
            && phase.Decided?
            && (key !in q.cache ==> (Allows(phase) <==> actual < quota))
            && (key in q.cache ==>
                  && q.cache[key].asOf <= |q.postings|
                  && var counted := Posted(q, 0, q.cache[key].asOf, u, f, q.now);
                     var since := Posted(q, q.cache[key].asOf, |q.postings|, u, f, q.now);
                     && actual == counted + since
                     && ((Allows(phase) <==> actual < quota) <==> !(counted < quota <= counted + since)))
  {
    var u, f := q.tasks[t].user, q.tasks[t].request.feature;
    var key := UsageKey(c, c.render(u), f, q.now);
    UsageIsSumOfReports(c, q, u, f, q.now);
    assert q.postings[0..|q.postings|] == q.postings;
    if key in q.cache {
      CacheHoldsAnEarlierUsage(c, q, u, f, q.now);
      PostedJoins(q, q.cache[key].asOf, |q.postings|, u, f, q.now);
      assert Checked(c, q, t, quota).tasks[t].phase == Decided(q.now, q.cache[key], quota, |q.postings|);
    } else {
      assert Checked(c, q, t, quota).tasks[t].phase ==
             Decided(q.now, Figure(Used(q, u, f, q.now), q.now, |q.postings|), quota, |q.postings|);
    }
  }

  // ----- a cached figure stays -----

  predicate FrozenTask(c: Config, q: Usage, t: TaskId, key: CacheKey, figure: Figure) {
    t in q.tasks ==>
      var task := q.tasks[t];
      var f := task.request.feature;
      && (task.phase.Missed? || task.phase.Read? ==> UsageKey(c, c.render(task.user), f, task.phase.period) != key)
      && (task.phase.Resolved? && UsageKey(c, c.render(task.user), f, task.phase.period) == key ==>
            task.phase.figure == figure)
      && (task.phase.Resolved? && task.request.Report? && UsageKey(c, task.request.user, f, task.begun) == key ==>
            task.phase.figure == figure)
  }

  predicate FrozenWrite(w: Write, key: CacheKey, figure: Figure) {
    w.key == key ==> w.figure == figure
  }

  /** The figure is cached; no write in flight to its key, and no task that has resolved it, has another. */
  ghost predicate Frozen(c: Config, q: Usage, key: CacheKey, figure: Figure) {
    && key in q.cache && q.cache[key] == figure
    && (forall w <- q.writes :: FrozenWrite(w, key, figure))
    && (forall t: TaskId :: FrozenTask(c, q, t, key, figure))
  }

  /** Once nobody is resolving usage, any cached figure freezes as soon as the writes in flight have settled. */
  lemma {:induction false} SettledIsFrozen(c: Config, q: Usage, key: CacheKey) returns (steps: seq<Step>, r: Usage)
    requires key in q.cache
    requires forall t <- q.tasks :: var phase := q.tasks[t].phase; !phase.Missed? && !phase.Read? && !phase.Resolved?
    ensures Reaches(c, q, steps, r) && r == q.(writes := {}) && Frozen(c, r, key, q.cache[key])
    decreases q.writes
  {
    if w :| w in q.writes {
      var rest;
      rest, r := SettledIsFrozen(c, Apply(c, q, Settle(w)), key);
      steps := [Settle(w)] + rest;
      assert steps[1..] == rest;
    } else {
      steps, r := [], q;
    }
  }

  /** A report that will write to the key also resolves usage by it, in this month. */
  predicate SameKey(c: Config, q: Usage, task: Task, key: CacheKey) {
    task.request.Report? && UsageKey(c, task.request.user, task.request.feature, task.begun) == key ==>
      task.begun == q.now && UsageKey(c, c.render(task.user), task.request.feature, task.begun) == key
      && ((task.phase.Missed? || task.phase.Read? || task.phase.Resolved?) ==> task.phase.period == q.now)
  }

  lemma FrozenTaskStep(c: Config, q: Usage, step: Step, key: CacheKey, figure: Figure, t: TaskId)
    requires Enabled(c, q, step) && !step.NewMonth? && key in q.cache && q.cache[key] == figure
    requires FrozenTask(c, q, t, key, figure)
    requires t in q.tasks && !q.tasks[t].phase.Failed? ==> SameKey(c, q, q.tasks[t], key)
    ensures FrozenTask(c, Apply(c, q, step), t, key, figure)
  {
    hide UsageKey, Used, Fits, RowAt, UsageUnits, Add;
  }

  lemma TaskHasSameKey(c: Config, q: Usage, t: TaskId, u: Uuid, f: Feature)
    requires Inv(c, q) && t in q.tasks && !q.tasks[t].phase.Failed?
    ensures SameKey(c, q, q.tasks[t], UsageKey(c, c.render(u), f, q.now))
  {
    var task := q.tasks[t];
    assert TaskOk(c, q, t);
    if task.request.Report?
       && UsageKey(c, task.request.user, task.request.feature, task.begun) == UsageKey(c, c.render(u), f, q.now) {
      KeyTellsApart(c, task.request.user, task.request.feature, task.begun, u, f, q.now);
    }
  }

  lemma FrozenStep(c: Config, q: Usage, step: Step, u: Uuid, f: Feature, figure: Figure)
    requires Inv(c, q) && Enabled(c, q, step) && !step.NewMonth?
    requires Frozen(c, q, UsageKey(c, c.render(u), f, q.now), figure)
    requires step != Expire(UsageKey(c, c.render(u), f, q.now))
    ensures Frozen(c, Apply(c, q, step), UsageKey(c, c.render(u), f, q.now), figure)
    ensures Apply(c, q, step).now == q.now
  {
    var key, r := UsageKey(c, c.render(u), f, q.now), Apply(c, q, step);
    forall t ensures FrozenTask(c, r, t, key, figure) {
      if t in q.tasks && !q.tasks[t].phase.Failed? { TaskHasSameKey(c, q, t, u, f); }
      assert FrozenTask(c, q, t, key, figure);
      FrozenTaskStep(c, q, step, key, figure, t);
    }
    if step.Refill? || step.Finish? { assert FrozenTask(c, q, step.task, key, figure); }
    if step.Land? { assert FrozenWrite(step.write, key, figure); }
    hide UsageKey, Formats, Ledger, Cache, Tasks, Strays, Used, Fits;
    forall w <- r.writes ensures FrozenWrite(w, key, figure) { assert w in q.writes ==> FrozenWrite(w, key, figure); }
  }

  /**
   Reports do not refresh a cached figure: from any moment at which no other figure for its key is in flight, until it
   expires or the month ends, every check of that user and feature resolves to it, whatever is reported meanwhile.
   */
  lemma {:induction false} CachedFigureStays(c: Config, q: Usage, steps: seq<Step>, r: Usage, u: Uuid, f: Feature,
                                             figure: Figure)
    requires Inv(c, q) && Reaches(c, q, steps, r) && Frozen(c, q, UsageKey(c, c.render(u), f, q.now), figure)
    requires forall step <- steps :: !step.NewMonth? && step != Expire(UsageKey(c, c.render(u), f, q.now))
    ensures r.now == q.now && Frozen(c, r, UsageKey(c, c.render(u), f, q.now), figure)
    decreases steps
  {
    hide Inv, Apply, Enabled, Frozen, UsageKey;
    if steps != [] {
      assert steps[0] in steps && forall step <- steps[1..] :: step in steps;
      FrozenStep(c, q, steps[0], u, f, figure);
      StepKeeps(c, q, steps[0]);
      CachedFigureStays(c, Apply(c, q, steps[0]), steps[1..], r, u, f, figure);
    }
  }
}
