/** Two runs that mark the limits of what the cache promises, and ways of writing users and months that fit it. */
module UsageWitness {
  import opened Prelude
  import opened UsageModel
  import opened UsageInvariant
  import opened UsageRuns

  lemma {:induction false} RunThen(c: Config, q: Usage, steps: seq<Step>, t: Usage, step: Step)
    requires Reaches(c, q, steps, t) && Enabled(c, t, step)
    ensures Reaches(c, q, steps + [step], Apply(c, t, step))
    decreases steps
  {
    hide Enabled, Apply;
    var more := steps + [step];
    if steps == [] {
      assert more == [step] && more[1..] == [];
      assert Reaches(c, Apply(c, q, step), [], Apply(c, q, step));
    } else {
      RunThen(c, Apply(c, q, steps[0]), steps[1..], t, step);
      assert more[1..] == steps[1..] + [step];
    }
  }

  lemma Next(c: Config, t: Usage, step: Step)
    requires Reachable(c, t) && Enabled(c, t, step)
    ensures Reachable(c, Apply(c, t, step))
  {
    hide Enabled, Apply, Initial;
    var now, steps :| Reaches(c, Initial(now), steps, t);
    RunThen(c, Initial(now), steps, t, step);
  }

  lemma InitialReachable(c: Config, now: Period)
    ensures Reachable(c, Initial(now))
  {
    assert Reaches(c, Initial(now), [], Initial(now));
  }

  /** A few units in an empty row. */
  lemma FirstUnits(f: Feature, units: nat)
    requires units <= 5
    ensures Fits(Add(ZERO, UsageUnits(f, units))) && UsageForFeature(f, Add(ZERO, UsageUnits(f, units))) == units
    ensures UsageForFeature(f, ZERO) == 0
  {
    ReportRaisesItsColumn(ZERO, f, units, f);
  }

  /** What beginning a report and counting it makes of a state. */
  function Counting(q: Usage, t: TaskId, text: string, u: Uuid, f: Feature, units: nat): Usage {
    var row := Add(RowAt(q.counters, u, q.now), UsageUnits(f, units));
    q.(counters := q.counters[(u, q.now) := row],
       tasks := q.tasks[t := Task(Report(text, f, units), u, q.now, Counted)],
       postings := q.postings + [Posting(u, q.now, f, units)])
  }

  lemma CountingSteps(c: Config, q: Usage, t: TaskId, text: string, u: Uuid, f: Feature, units: nat)
    requires c.parse(text) == Some(u) && t !in q.tasks && Fits(Add(RowAt(q.counters, u, q.now), UsageUnits(f, units)))
    ensures var begun := BeginStep(c, q, t, Report(text, f, units));
            && Enabled(c, begun, Increment(t, Replied))
            && IncrementStep(begun, t, Replied) == Counting(q, t, text, u, f, units)
  {
    hide UsageUnits, Add, RowAt, Fits;
    var begun := BeginStep(c, q, t, Report(text, f, units));
    assert begun.tasks[t] == Task(Report(text, f, units), u, q.now, Started);
    assert IncrementStep(begun, t, Replied).tasks == Counting(q, t, text, u, f, units).tasks;
  }

  lemma CountingReachable(c: Config, q: Usage, t: TaskId, text: string, u: Uuid, f: Feature, units: nat)
    requires Reachable(c, q) && c.parse(text) == Some(u) && t !in q.tasks
    requires Fits(Add(RowAt(q.counters, u, q.now), UsageUnits(f, units)))
    ensures Reachable(c, Counting(q, t, text, u, f, units))
  {
    var begin := Begin(t, Report(text, f, units));
    CountingSteps(c, q, t, text, u, f, units);
    hide BeginStep, IncrementStep, Counting, Reachable, Fits, Add, RowAt, UsageUnits;
    Next(c, q, begin);
    Next(c, BeginStep(c, q, t, begin.request), Increment(t, Replied));
  }

  // ----- over the quota -----

  /** A first check has cached that nothing is used. */
  lemma NothingUsedIsCached(c: Config, u: Uuid, f: Feature, now: Period) returns (q: Usage)
    requires Formats(c)
    ensures Reachable(c, q) && q.now == now && q.counters == map[] && q.tasks.Keys == {0}
    ensures q.postings == [] && q.strays == {}
    ensures q.cache == map[UsageKey(c, c.render(u), f, now) := Figure(0, now, 0)]
  {
    hide Reachable, UsageKey;
    q := Initial(now);
    assert Reachable(c, q) by { InitialReachable(c, now); }
    Next(c, q, Begin(0, Check(c.render(u), f)));
    q := BeginStep(c, q, 0, Check(c.render(u), f));
    Next(c, q, Lookup(0, true));
    q := LookupStep(c, q, 0, true);
    Next(c, q, Query(0, true));
    q := QueryStep(q, 0, true);
    Next(c, q, Refill(0));
    q := RefillStep(c, q, 0);
    var w := Write(UsageKey(c, c.render(u), f, now), Figure(0, now, 0));
    assert w in q.writes;
    Next(c, q, Land(w));
    q := Apply(c, q, Land(w));
  }

  lemma OneUnitCounted(c: Config, u: Uuid, f: Feature, now: Period) returns (q: Usage)
    requires Formats(c)
    ensures Reachable(c, q) && 2 !in q.tasks && q.now == now && Used(q, u, f, now) == 1 && |q.postings| == 1
    ensures q.cache == map[UsageKey(c, c.render(u), f, now) := Figure(0, now, 0)]
  {
    assert c.parse(c.render(u)) == Some(u);
    FirstUnits(f, 1);
    hide UsageKey, Reachable, Formats, UsageUnits, UsageForFeature, Add, Fits;
    var s := NothingUsedIsCached(c, u, f, now);
    CountingReachable(c, s, 1, c.render(u), u, f, 1);
    q := Counting(s, 1, c.render(u), u, f, 1);
  }

  /** A check may be allowed although the quota is used up: one unit was reported, none is cached. */
  lemma AllowedOverQuota(c: Config, u: Uuid, f: Feature, now: Period) returns (q: Usage)
    requires Formats(c)
    ensures Reachable(c, q) && AtPhase(q, 2, Decided(now, Figure(0, now, 0), 1, 1)) && Allows(q.tasks[2].phase)
    ensures q.tasks[2].request == Check(c.render(u), f) && q.now == now && Used(q, u, f, now) == 1
  {
    hide Reachable, UsageKey;
    q := OneUnitCounted(c, u, f, now);
    var counters := q.counters;
    Next(c, q, Begin(2, Check(c.render(u), f)));
    q := BeginStep(c, q, 2, Check(c.render(u), f));
    Next(c, q, Lookup(2, true));
    q := LookupStep(c, q, 2, true);
    Next(c, q, Finish(2, 1));
    q := FinishStep(c, q, 2, 1);
    assert q.counters == counters;
  }

  // ----- astride two months -----

  /** A report of nothing has begun and been counted in month `p`; then, in month `r`, five units have been. */
  lemma BothCounted(c: Config, u: Uuid, f: Feature, p: Period, r: Period) returns (q: Usage)
    requires Formats(c) && p < r
    ensures Reachable(c, q) && q.now == r && q.cache == map[] && q.writes == {} && |q.postings| == 2
    ensures 1 in q.tasks && q.tasks[1] == Task(Report(c.render(u), f, 0), u, p, Counted)
    ensures Used(q, u, f, r) == 5 && Used(q, u, f, p) == 0
  {
    var text := c.render(u);
    assert c.parse(text) == Some(u);
    InitialReachable(c, p);
    FirstUnits(f, 0);
    FirstUnits(f, 5);
    hide Reachable, Formats, UsageUnits, UsageForFeature, Add, Fits;
    CountingReachable(c, Initial(p), 1, text, u, f, 0);
    var first := Counting(Initial(p), 1, text, u, f, 0);
    Next(c, first, NewMonth(r));
    var later := first.(now := r);
    CountingReachable(c, later, 0, text, u, f, 5);
    q := Counting(later, 0, text, u, f, 5);
  }

  /** A report that began in month `p` and resolves usage in the later month `r` caches `r`'s figure as `p`'s. */
  lemma MonthsMixed(c: Config, u: Uuid, f: Feature, p: Period, r: Period) returns (q: Usage)
    requires Formats(c) && p < r
    ensures Reachable(c, q) && UsageKey(c, c.render(u), f, p) in q.cache
    ensures q.cache[UsageKey(c, c.render(u), f, p)].value == 5 && Used(q, u, f, p) == 0
  {
    hide UsageKey, Formats, RowAt, UsageForFeature, Reachable;
    q := BothCounted(c, u, f, p, r);
    Next(c, q, Lookup(1, true));
    q := LookupStep(c, q, 1, true);
    Next(c, q, Query(1, true));
    q := QueryStep(q, 1, true);
    assert q.tasks[1].phase == Read(r, Figure(5, r, 2));
    Next(c, q, Refill(1));
    q := RefillStep(c, q, 1);
    Next(c, q, Finish(1, 0));
    q := FinishStep(c, q, 1, 0);
    var w := Write(UsageKey(c, c.render(u), f, p), Figure(5, r, 2));
    assert w in q.writes;
    Next(c, q, Land(w));
    q := Apply(c, q, Land(w));
  }

  // ----- ways of writing users and months -----

  const BASE: nat := 0x8000

  function Digits(n: nat, width: nat): (s: string)
    ensures |s| == width && ':' !in s
  {
    if width == 0 then "" else Digits(n / BASE, width - 1) + [('A' as int + n % BASE) as char]
  }

  function Pow(n: nat): nat {
    if n == 0 then 1 else BASE * Pow(n - 1)
  }

  lemma {:induction false} PowGrows(m: nat, n: nat)
    requires m <= n
    ensures 1 <= Pow(m) <= Pow(n)
  {
    if n > 0 {
      PowGrows(if m < n then m else n - 1, n - 1);
    }
  }

  lemma {:induction false} DigitsTellApart(a: nat, b: nat, width: nat)
    requires a < Pow(width) && b < Pow(width) && Digits(a, width) == Digits(b, width)
    ensures a == b
  {
    if width > 0 {
      var s, t := Digits(a, width), Digits(b, width);
      assert s[..width - 1] == Digits(a / BASE, width - 1) && t[..width - 1] == Digits(b / BASE, width - 1);
      assert s[width - 1] == t[width - 1];
      DigitsTellApart(a / BASE, b / BASE, width - 1);
    }
  }

  ghost function ParseDigits(s: string): Option<Uuid> {
    if exists u: Uuid :: Digits(u, 36) == s then
      var u: Uuid :| Digits(u, 36) == s;
      Some(u)
    else None
  }

  /** The formats the theorems ask for can be had. */
  lemma FormatsExist() returns (c: Config)
    ensures Formats(c)
  {
    c := Config(s => ParseDigits(s), (u: Uuid) => Digits(u, 36), (p: Period) => Digits(p, 7));
    assert Pow(3) == 0x2000_0000_0000 && Pow(6) == 0x2000_0000_0000 * Pow(3) && Pow(9) == 0x2000_0000_0000 * Pow(6);
    PowGrows(9, 36);
    PowGrows(3, 7);
    forall u: Uuid, v: Uuid | Digits(u, 36) == Digits(v, 36) ensures u == v { DigitsTellApart(u, v, 36); }
    forall p: Period, r: Period | Digits(p, 7) == Digits(r, 7) ensures p == r { DigitsTellApart(p, r, 7); }
    forall u: Uuid ensures |c.render(u)| == 36 && ':' !in c.render(u) && c.parse(c.render(u)) == Some(u) { }
    forall user, u: Uuid | c.parse(user).Some? ensures !(c.render(u) + [':'] <= user) { }
  }
}
