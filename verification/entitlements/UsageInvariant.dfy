/** What holds of counters and cache in every state, however requests interleave and writes are delayed. */
module UsageInvariant {
  import opened Prelude
  import opened UsageModel

  // ----- columns -----

  const KNOWN: set<Feature> := {"CREATE_ROOM", "START_GAME", "REGISTER_BOT", "AI_GENERATE", "CREATE_QUIZ"}

  /** All features without a column of their own share the last. */
  predicate SameColumn(f: Feature, g: Feature) {
    f == g || (f !in KNOWN && g !in KNOWN)
  }

  function Capped(units: nat): nat {
    if units < I32_MAX then units else I32_MAX
  }

  /** Reporting a feature raises the usage of the features of its column by the capped units, and of no other. */
  lemma ReportRaisesItsColumn(row: Counters, f: Feature, units: nat, g: Feature)
    ensures UsageForFeature(g, Add(row, UsageUnits(f, units))) ==
            UsageForFeature(g, row) + if SameColumn(f, g) then Capped(units) else 0
  {
  }

  /** Two features share a column exactly if no row tells their usage apart. */
  lemma ColumnsApart(f: Feature, g: Feature)
    ensures SameColumn(f, g) <==> forall row :: UsageForFeature(f, row) == UsageForFeature(g, row)
  {
    if !SameColumn(f, g) {
      var row := Counters(0, 1, 2, 3, 4, 5);
      assert UsageForFeature(f, row) != UsageForFeature(g, row);
    }
  }

  // ----- keys -----

  /**
   Users are written in 36 characters without a colon and read back, months in 7, each in one way; and no other way to
   write a user begins with such a text and a colon.
   */
  ghost predicate Formats(c: Config) {
    && (forall u: Uuid :: |c.render(u)| == 36 && ':' !in c.render(u) && c.parse(c.render(u)) == Some(u))
    && (forall p: Period :: |c.month(p)| == 7) && (forall p: Period, r: Period :: c.month(p) == c.month(r) ==> p == r)
    && (forall user, u: Uuid :: c.parse(user).Some? ==> !(c.render(u) + [':'] <= user))
  }

  /** A user text of another length than 36 is followed by its colon somewhere else. */
  lemma LengthTellsApart(user: string, rest: string, canonical: string, other: string)
    requires |user| != |canonical| && ':' !in canonical && !(canonical + [':'] <= user)
    ensures user + [':'] + rest != canonical + [':'] + other
  {
    var a, b, n := user + [':'] + rest, canonical + [':'] + other, |canonical|;
    if |user| < n {
      assert a[|user|] == ':' && b[|user|] == canonical[|user|];
    } else {
      assert a[..n + 1] == user[..n + 1] && b[..n + 1] == canonical + [':'];
    }
  }

  lemma KeyTellsApart(c: Config, user: string, f: Feature, p: Period, u: Uuid, g: Feature, r: Period)
    requires Formats(c) && c.parse(user).Some? && UsageKey(c, user, f, p) == UsageKey(c, c.render(u), g, r)
    ensures c.parse(user) == Some(u) && f == g && p == r
  {
    var x, y := f + [':'] + c.month(p), g + [':'] + c.month(r);
    var a, b := user + [':'] + x, c.render(u) + [':'] + y;
    assert a == UsageKey(c, user, f, p)[|PREFIX|..] && b == UsageKey(c, c.render(u), g, r)[|PREFIX|..];
    if |user| != |c.render(u)| {
      LengthTellsApart(user, x, c.render(u), y);
    }
    assert user == a[..36] == b[..36] == c.render(u) && x == a[37..] == b[37..] == y;
    assert c.month(p) == x[|x| - 7..] == y[|y| - 7..] == c.month(r);
    assert f == x[..|x| - 8] == y[..|y| - 8] == g;
  }

  // ----- the ledger -----

  function Share(posting: Posting, u: Uuid, f: Feature, p: Period): nat {
    if posting.user == u && posting.period == p && SameColumn(posting.feature, f) then Capped(posting.units) else 0
  }

  function Total(postings: seq<Posting>, u: Uuid, f: Feature, p: Period): nat {
    if postings == [] then 0
    else Total(postings[..|postings| - 1], u, f, p) + Share(postings[|postings| - 1], u, f, p)
  }

  predicate LedgerOk(q: Usage, u: Uuid, f: Feature, p: Period) {
    Used(q, u, f, p) == Total(q.postings, u, f, p)
  }

  ghost predicate Ledger(q: Usage) {
    forall u: Uuid, f, p: Period :: LedgerOk(q, u, f, p)
  }

  /** One posting list after another. */
  lemma {:induction false} TotalJoins(a: seq<Posting>, b: seq<Posting>, u: Uuid, f: Feature, p: Period)
    ensures Total(a + b, u, f, p) == Total(a, u, f, p) + Total(b, u, f, p)
  {
    if b == [] {
      assert a + b == a;
    } else {
      var rest := b[..|b| - 1];
      assert (a + b)[..|a + b| - 1] == a + rest;
      TotalJoins(a, rest, u, f, p);
    }
  }

  // ----- figures -----

  /** A figure is what the postings made of the feature's usage, in its month, when it was counted. */
  predicate FigureOk(q: Usage, u: Uuid, f: Feature, figure: Figure) {
    figure.asOf <= |q.postings| && figure.value == Total(q.postings[..figure.asOf], u, f, figure.of)
  }

  /** It is of the month it is held for, unless a report has strayed with it. */
  predicate Sound(q: Usage, u: Uuid, f: Feature, p: Period, figure: Figure) {
    FigureOk(q, u, f, figure) && (figure.of == p || Stray(u, f, p, figure) in q.strays)
  }

  predicate Speaks(c: Config, q: Usage, key: CacheKey, figure: Figure, u: Uuid, f: Feature, p: Period) {
    key == UsageKey(c, c.render(u), f, p) ==> Sound(q, u, f, p, figure)
  }

  /** Under this key the figure is sound, whosever key it is. */
  ghost predicate Told(c: Config, q: Usage, key: CacheKey, figure: Figure) {
    forall u: Uuid, f, p: Period :: Speaks(c, q, key, figure, u, f, p)
  }

  predicate TaskOk(c: Config, q: Usage, t: TaskId) {
    t in q.tasks && !q.tasks[t].phase.Failed? ==>
      var task := q.tasks[t];
      && c.parse(task.request.user) == Some(task.user) && task.begun <= q.now
      && (task.phase.Missed? ==> task.begun <= task.phase.period <= q.now)
      && (task.phase.Read? || task.phase.Resolved? || task.phase.Decided? ==>
            && task.begun <= task.phase.period <= q.now && task.phase.figure.of == task.phase.period
            && FigureOk(q, task.user, task.request.feature, task.phase.figure))
      && (task.phase.Decided? ==> task.request.Check? && task.phase.figure.asOf <= task.phase.at <= |q.postings|)
  }

  ghost predicate Cache(c: Config, q: Usage) {
    && (forall key <- q.cache :: Told(c, q, key, q.cache[key]))
    && (forall w <- q.writes :: Told(c, q, w.key, w.figure))
  }

  ghost predicate Tasks(c: Config, q: Usage) {
    forall t: TaskId :: TaskOk(c, q, t)
  }

  /** A report strays from a month that is over, with the figure of a later one. */
  predicate StrayOk(q: Usage, stray: Stray) {
    stray in q.strays ==>
      stray.begun < stray.figure.of <= q.now && FigureOk(q, stray.user, stray.feature, stray.figure)
  }

  ghost predicate Strays(q: Usage) {
    forall stray: Stray :: StrayOk(q, stray)
  }

  ghost predicate Inv(c: Config, q: Usage) {
    Formats(c) && Ledger(q) && Cache(c, q) && Tasks(c, q) && Strays(q)
  }

  // ----- preservation -----

  lemma LedgerKept(c: Config, q: Usage, step: Step)
    requires Ledger(q) && Enabled(c, q, step)
    ensures Ledger(Apply(c, q, step))
  {
    var r := Apply(c, q, step);
    forall u: Uuid, f, p: Period ensures LedgerOk(r, u, f, p) {
      assert LedgerOk(q, u, f, p);
      if step.Increment? && r.postings != q.postings {
        var task := q.tasks[step.task];
        ReportRaisesItsColumn(RowAt(q.counters, task.user, task.begun), task.request.feature, task.request.units, f);
        assert r.postings[..|r.postings| - 1] == q.postings;
        hide UsageForFeature, UsageUnits, Add;
      }
    }
  }

  /** Time, postings and strays only grow. */
  ghost predicate Extends(q: Usage, r: Usage) {
    q.now <= r.now && q.postings <= r.postings && q.strays <= r.strays
  }

  lemma StepExtends(c: Config, q: Usage, step: Step)
    requires Enabled(c, q, step)
    ensures Extends(q, Apply(c, q, step))
  {
    hide Used, UsageKey, Fits, Add, UsageUnits, RowAt;
  }

  lemma StaysSound(q: Usage, r: Usage, u: Uuid, f: Feature, p: Period, figure: Figure)
    requires Extends(q, r)
    ensures FigureOk(q, u, f, figure) ==> FigureOk(r, u, f, figure)
    ensures Sound(q, u, f, p, figure) ==> Sound(r, u, f, p, figure)
  {
    if figure.asOf <= |q.postings| {
      assert r.postings[..figure.asOf] == q.postings[..figure.asOf];
    }
  }

  lemma StaysTold(c: Config, q: Usage, r: Usage, key: CacheKey, figure: Figure)
    requires Extends(q, r) && Told(c, q, key, figure)
    ensures Told(c, r, key, figure)
  {
    hide Sound, Extends;
    forall u: Uuid, f, p: Period ensures Speaks(c, r, key, figure, u, f, p) {
      assert Speaks(c, q, key, figure, u, f, p);
      StaysSound(q, r, u, f, p, figure);
    }
  }

  /** A sound figure may be written under any way of writing its user. */
  lemma SoundIsTold(c: Config, q: Usage, user: string, u: Uuid, f: Feature, p: Period, figure: Figure)
    requires Formats(c) && c.parse(user) == Some(u) && Sound(q, u, f, p, figure)
    ensures Told(c, q, UsageKey(c, user, f, p), figure)
  {
    var key := UsageKey(c, user, f, p);
    forall v: Uuid, g, r: Period ensures Speaks(c, q, key, figure, v, g, r) {
      if key == UsageKey(c, c.render(v), g, r) {
        KeyTellsApart(c, user, f, p, v, g, r);
      }
    }
  }

  lemma RefillTells(c: Config, q: Usage, t: TaskId)
    requires Inv(c, q) && Enabled(c, q, Refill(t))
    ensures Cache(c, RefillStep(c, q, t))
  {
    var task, r := q.tasks[t], RefillStep(c, q, t);
    assert TaskOk(c, q, t);
    SoundIsTold(c, q, c.render(task.user), task.user, task.request.feature, task.phase.period, task.phase.figure);
    hide Told, Formats, Sound;
    forall w <- r.writes ensures Told(c, r, w.key, w.figure) { StaysTold(c, q, r, w.key, w.figure); }
    forall key <- r.cache ensures Told(c, r, key, r.cache[key]) { StaysTold(c, q, r, key, r.cache[key]); }
  }

  lemma FinishTells(c: Config, q: Usage, t: TaskId, quota: int)
    requires Inv(c, q) && Enabled(c, q, Finish(t, quota))
    ensures Cache(c, FinishStep(c, q, t, quota))
  {
    var task, r := q.tasks[t], FinishStep(c, q, t, quota);
    assert TaskOk(c, q, t);
    StaysSound(q, r, task.user, task.request.feature, task.begun, task.phase.figure);
    if task.request.Report? {
      assert Sound(r, task.user, task.request.feature, task.begun, task.phase.figure);
      SoundIsTold(c, r, task.request.user, task.user, task.request.feature, task.begun, task.phase.figure);
    }
    hide Told, Formats, Sound;
    forall w <- r.writes ensures Told(c, r, w.key, w.figure) {
      if w in q.writes { StaysTold(c, q, r, w.key, w.figure); }
    }
    forall key <- r.cache ensures Told(c, r, key, r.cache[key]) { StaysTold(c, q, r, key, r.cache[key]); }
  }

  lemma CacheKept(c: Config, q: Usage, step: Step)
    requires Inv(c, q) && Enabled(c, q, step)
    ensures Cache(c, Apply(c, q, step))
  {
    if step.Refill? {
      RefillTells(c, q, step.task);
    } else if step.Finish? {
      FinishTells(c, q, step.task, step.quota);
    } else {
      StepExtends(c, q, step);
      hide Told, Formats, Extends, Used, UsageKey, RefillStep, FinishStep;
      var r := Apply(c, q, step);
      forall key <- r.cache ensures Told(c, r, key, r.cache[key]) { StaysTold(c, q, r, key, r.cache[key]); }
      forall w <- r.writes ensures Told(c, r, w.key, w.figure) { StaysTold(c, q, r, w.key, w.figure); }
    }
  }

  lemma LookupIsSound(c: Config, q: Usage, t: TaskId, ok: bool)
    requires Inv(c, q) && Enabled(c, q, Lookup(t, ok))
    ensures TaskOk(c, LookupStep(c, q, t, ok), t)
  {
    var task := q.tasks[t];
    var key := UsageKey(c, c.render(task.user), task.request.feature, q.now);
    assert TaskOk(c, q, t);
    if key in q.cache {
      assert Told(c, q, key, q.cache[key]);
      assert Speaks(c, q, key, q.cache[key], task.user, task.request.feature, q.now);
      assert StrayOk(q, Stray(task.user, task.request.feature, q.now, q.cache[key]));
    }
  }

  lemma QueryIsSound(c: Config, q: Usage, t: TaskId, ok: bool)
    requires Inv(c, q) && Enabled(c, q, Query(t, ok))
    ensures TaskOk(c, QueryStep(q, t, ok), t)
  {
    var task := q.tasks[t];
    assert TaskOk(c, q, t) && LedgerOk(q, task.user, task.request.feature, task.phase.period);
    assert q.postings[..|q.postings|] == q.postings;
  }

  lemma SameTaskKept(c: Config, q: Usage, r: Usage, t: TaskId)
    requires Extends(q, r) && TaskOk(c, q, t) && t in q.tasks && t in r.tasks && r.tasks[t] == q.tasks[t]
    ensures TaskOk(c, r, t)
  {
    var task := q.tasks[t];
    if task.phase.Read? || task.phase.Resolved? || task.phase.Decided? {
      StaysSound(q, r, task.user, task.request.feature, task.phase.period, task.phase.figure);
    }
    hide FigureOk;
  }

  /** The steps by which a task takes its figure along. */
  lemma OwnTaskKept(c: Config, q: Usage, step: Step)
    requires Enabled(c, q, step) && (step.Increment? || step.Refill? || step.Finish?) && TaskOk(c, q, step.task)
    ensures TaskOk(c, Apply(c, q, step), step.task)
  {
    var r, task := Apply(c, q, step), q.tasks[step.task];
    StepExtends(c, q, step);
    if task.phase.Read? || task.phase.Resolved? {
      StaysSound(q, r, task.user, task.request.feature, task.phase.period, task.phase.figure);
      assert task.phase.figure.asOf <= |q.postings|;
    }
    hide Used, UsageKey, Fits, UsageUnits, Add, RowAt, FigureOk;
  }

  lemma OldTaskKept(c: Config, q: Usage, step: Step, t: TaskId)
    requires Enabled(c, q, step) && TaskOk(c, q, t) && t in q.tasks
    requires !(step.Lookup? && step.task == t) && !(step.Query? && step.task == t)
    ensures TaskOk(c, Apply(c, q, step), t)
  {
    if (step.Increment? || step.Refill? || step.Finish?) && step.task == t {
      OwnTaskKept(c, q, step);
    } else {
      StepExtends(c, q, step);
      assert t in Apply(c, q, step).tasks && Apply(c, q, step).tasks[t] == q.tasks[t] by {
        hide Used, UsageKey, Fits, UsageUnits, Add, RowAt, TaskOk;
      }
      hide Apply, TaskOk, Extends;
      SameTaskKept(c, q, Apply(c, q, step), t);
    }
  }

  lemma TasksKept(c: Config, q: Usage, step: Step)
    requires Inv(c, q) && Enabled(c, q, step)
    ensures Tasks(c, Apply(c, q, step))
  {
    var r := Apply(c, q, step);
    forall t ensures TaskOk(c, r, t) {
      assert TaskOk(c, q, t);
      if step.Lookup? && step.task == t {
        LookupIsSound(c, q, t, step.ok);
      } else if step.Query? && step.task == t {
        QueryIsSound(c, q, t, step.ok);
      } else if t in q.tasks {
        OldTaskKept(c, q, step, t);
      } else {
        hide UsageKey, Used, LookupStep, QueryStep, RefillStep, FinishStep, IncrementStep, Inv;
      }
    }
  }

  lemma StraysKept(c: Config, q: Usage, step: Step)
    requires Inv(c, q) && Enabled(c, q, step)
    ensures Strays(Apply(c, q, step))
  {
    var r := Apply(c, q, step);
    StepExtends(c, q, step);
    if step.Finish? { assert TaskOk(c, q, step.task); }
    hide Used, UsageKey, Fits, UsageUnits, Add, RowAt, FigureOk, LookupStep, QueryStep, RefillStep, Ledger, Cache,
         Formats;
    forall stray ensures StrayOk(r, stray) {
      assert StrayOk(q, stray);
      StaysSound(q, r, stray.user, stray.feature, stray.begun, stray.figure);
    }
  }

  lemma InitialHolds(c: Config, now: Period)
    requires Formats(c)
    ensures Inv(c, Initial(now))
  {
    forall u: Uuid, f, p: Period ensures LedgerOk(Initial(now), u, f, p) { }
  }

  lemma StepKeeps(c: Config, q: Usage, step: Step)
    requires Inv(c, q) && Enabled(c, q, step)
    ensures Inv(c, Apply(c, q, step))
  {
    hide Apply, Enabled, Ledger, Cache, Tasks, Strays, Formats;
    LedgerKept(c, q, step);
    CacheKept(c, q, step);
    TasksKept(c, q, step);
    StraysKept(c, q, step);
  }
}
