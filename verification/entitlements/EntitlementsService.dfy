/** The entitlement service as a program, for one request at a time. */
module EntitlementsServiceModule {
  import opened Prelude
  import opened UsageModel
  import opened UsageInvariant

  /** Which of the calls to Redis and to the database succeed. */
  datatype Faults = Faults(cacheRead: bool, query: bool, cacheWrite: bool, ensureUser: bool, increment: bool,
                           finalWrite: bool)

  datatype Answer = Decision(allowed: bool, used: int) | Recorded | InvalidArgument | FailedPrecondition | Internal

  datatype Plan = Plan(code: string, quota: int)

  /** The calls `resolve_user_plan` may make, each of which may fail. */
  datatype PlanCall =
    | ReadCache | FindCached | EnsureUser | FindCode | FindOwn | FindFree | FindDefault | WriteCache

  datatype PlanAnswer = Got(plan: Plan) | NoPlans | Unavailable

  class EntitlementsService {
    const config: Config
    /** Every plan's monthly quota, by code. */
    const plans: map<string, int>
    /** The users' rows: the plan code of each, if any. */
    var users: map<Uuid, Option<string>>
    var planCache: map<Uuid, string>
    var counters: map<(Uuid, Period), Counters>
    var cache: map<CacheKey, int>

    constructor (config: Config, plans: map<string, int>)
      ensures this.config == config && this.plans == plans
      ensures users == map[] && planCache == map[] && counters == map[] && cache == map[]
    {
      this.config, this.plans := config, plans;
      users, planCache, counters, cache := map[], map[], map[], map[];
    }

    // ----- plans -----

    function FindByCode(code: string): Option<Plan> {
      if code in plans then Some(Plan(code, plans[code])) else None
    }

    predicate Least(code: string) {
      code in plans && forall other <- plans :: plans[code] <= plans[other]
    }

    method FindDefaultPlan() returns (plan: Option<Plan>)
      ensures plan.None? <==> plans == map[]
      ensures plan.Some? ==> Least(plan.value.code) && plan.value.quota == plans[plan.value.code]
    {
      plan := None;
      var rest := plans.Keys;
      while rest != {}
        invariant rest <= plans.Keys
        invariant plan.None? ==> rest == plans.Keys
        invariant plan.Some? ==> plan.value.code in plans && plan.value.quota == plans[plan.value.code]
        invariant plan.Some? ==> forall other <- plans.Keys - rest :: plan.value.quota <= plans[other]
        decreases rest
      {
        var code :| code in rest;
        rest := rest - {code};
        if plan.None? || plans[code] < plan.value.quota {
          plan := Some(Plan(code, plans[code]));
        }
      }
    }

    /** The code in a user's row, which is made if there is none. */
    function OwnCode(user: Uuid): Option<string>
      reads this
    {
      if user in users then users[user] else None
    }

    predicate HasCached(user: Uuid)
      reads this
    {
      user in planCache && planCache[user] in plans
    }

    predicate HasOwn(user: Uuid)
      reads this
    {
      OwnCode(user).Some? && OwnCode(user).value in plans
    }

    /** The cached plan if it still exists, else the user's own, else the free one, else one of the least quota. */
    predicate IsPlanOf(user: Uuid, plan: Plan)
      reads this
    {
      && FindByCode(plan.code) == Some(plan)
      && if HasCached(user) then plan.code == planCache[user]
         else if HasOwn(user) then plan.code == OwnCode(user).value
         else if "free" in plans then plan.code == "free"
         else Least(plan.code)
    }

    /** Whether all calls needed to find a user's plan succeed. */
    predicate PlanAnswers(user: Uuid, up: PlanCall -> bool)
      reads this
    {
      && up(ReadCache)
      && (user in planCache ==> up(FindCached))
      && (HasCached(user)
          || (&& up(EnsureUser) && up(FindCode)
              && (OwnCode(user).Some? ==> up(FindOwn))
              && (HasOwn(user) || (up(FindFree) && ("free" in plans || up(FindDefault))))))
    }

    method ResolveUserPlan(user: Uuid, up: PlanCall -> bool) returns (answer: PlanAnswer)
      modifies this`users, this`planCache
      ensures answer.Unavailable? <==> !old(PlanAnswers(user, up))
      ensures answer.NoPlans? <==> plans == map[] && old(PlanAnswers(user, up))
      ensures answer.Got? ==> old(IsPlanOf(user, answer.plan))
      ensures planCache == if answer.Got? && !old(HasCached(user)) && up(WriteCache)
                           then old(planCache)[user := answer.plan.code] else old(planCache)
      ensures users == old(users) || (user !in old(users) && users == old(users)[user := None])
    {
      if !up(ReadCache) {
        return Unavailable;
      }
      if user in planCache {
        if !up(FindCached) {
          return Unavailable;
        }
        var cached := FindByCode(planCache[user]);
        if cached.Some? {
          return Got(cached.value);
        }
      }
      if !up(EnsureUser) {
        return Unavailable;
      }
      if user !in users {
        users := users[user := None];
      }
      if !up(FindCode) {
        return Unavailable;
      }
      var plan: Option<Plan> := None;
      var code := users[user];
      if code.Some? {
        if !up(FindOwn) {
          return Unavailable;
        }
        plan := FindByCode(code.value);
      }
      if plan.None? {
        if !up(FindFree) {
          return Unavailable;
        }
        plan := FindByCode("free");
      }
      if plan.None? {
        if !up(FindDefault) {
          return Unavailable;
        }
        plan := FindDefaultPlan();
      }
      if plan.None? {
        return NoPlans;
      }
      if up(WriteCache) {
        planCache := planCache[user := plan.value.code];
      }
      answer := Got(plan.value);
    }

    // ----- usage -----

    function KeyOf(user: Uuid, feature: Feature, period: Period): CacheKey {
      UsageKey(config, config.render(user), feature, period)
    }

    function Stored(user: Uuid, feature: Feature, period: Period): int
      reads this
    {
      UsageForFeature(feature, RowAt(counters, user, period))
    }

    /** The cached figure if there is one, and otherwise the stored one, which it caches. */
    method ResolveUsage(user: Uuid, feature: Feature, period: Period, faults: Faults) returns (used: Option<int>)
      modifies this`cache
      ensures used.Some? <==> faults.cacheRead && (KeyOf(user, feature, period) in old(cache) || faults.query)
      ensures used.Some? ==>
                var key := KeyOf(user, feature, period);
                used.value == if key in old(cache) then old(cache)[key] else Stored(user, feature, period)
      ensures cache == if used.Some? && KeyOf(user, feature, period) !in old(cache) && faults.cacheWrite
                       then old(cache)[KeyOf(user, feature, period) := used.value] else old(cache)
    {
      if !faults.cacheRead {
        return None;
      }
      var key := KeyOf(user, feature, period);
      if key in cache {
        return Some(cache[key]);
      }
      if !faults.query {
        return None;
      }
      var row := RowAt(counters, user, period);
      used := Some(UsageForFeature(feature, row));
      if faults.cacheWrite {
        cache := cache[key := used.value];
      }
    }

    /** Whether usage can be resolved: the cache answers, and the database does unless the figure is cached. */
    predicate UsageAnswers(user: Uuid, feature: Feature, period: Period, faults: Faults)
      reads this
    {
      faults.cacheRead && (KeyOf(user, feature, period) in cache || faults.query)
    }

    /**
     Decides by the user's plan and the resolved usage, and says so exactly if all calls it needs succeed: it denies for
     want of any plan, and otherwise allows if the usage is below the quota.
     */
    method CheckEntitlement(user: string, feature: Feature, period: Period, up: PlanCall -> bool, faults: Faults)
      returns (answer: Answer)
      modifies this`cache, this`users, this`planCache
      ensures answer.InvalidArgument? <==> config.parse(user).None?
      ensures answer.Internal? <==>
                && config.parse(user).Some?
                && var id := config.parse(user).value;
                   || !old(PlanAnswers(id, up))
                   || (plans != map[] && !old(UsageAnswers(id, feature, period, faults)))
      ensures answer.FailedPrecondition? <==>
                config.parse(user).Some? && plans == map[] && old(PlanAnswers(config.parse(user).value, up))
      ensures answer.Decision? ==>
                var id := config.parse(user).value;
                var key := KeyOf(id, feature, period);
                && answer.used == (if key in old(cache) then old(cache)[key] else Stored(id, feature, period))
                && exists plan :: old(IsPlanOf(id, plan)) && (answer.allowed <==> answer.used < plan.quota)
      ensures !answer.Recorded?
    {
      match config.parse(user)
      case None => return InvalidArgument;
      case Some(id) =>
        var resolved := ResolveUserPlan(id, up);
        match resolved
        case Unavailable => return Internal;
        case NoPlans => return FailedPrecondition;
        case Got(plan) =>
          assert plans != map[];
          var used := ResolveUsage(id, feature, period, faults);
          match used
          case None => return Internal;
          case Some(figure) => return Decision(figure < plan.quota, figure);
    }

    /** Whether the database takes the increment: it answers both times, and every column still fits. */
    predicate Counts(user: Uuid, feature: Feature, units: nat, period: Period, faults: Faults)
      reads this
    {
      faults.ensureUser && faults.increment && Fits(Add(RowAt(counters, user, period), UsageUnits(feature, units)))
    }

    /**
     Counts the units in the feature's column, capped, and in no other, even if the caller is told of an error after
     that. The cached figure does not follow unless there was none.
     */
    method ReportUsage(user: string, feature: Feature, units: nat, period: Period, faults: Faults)
      returns (answer: Answer)
      modifies this`users, this`counters, this`cache
      ensures answer.InvalidArgument? <==> config.parse(user).None?
      ensures answer.InvalidArgument? ==> counters == old(counters) && cache == old(cache)
      ensures !answer.InvalidArgument? ==>
                var id := config.parse(user).value;
                (answer.Recorded? <==> old(Counts(id, feature, units, period, faults)) && faults.cacheRead
                                       && (KeyOf(id, feature, period) in old(cache) || faults.query))
      ensures !answer.InvalidArgument? ==> forall g ::
                var id := config.parse(user).value;
                Stored(id, g, period) == old(Stored(id, g, period)) +
                  if old(Counts(id, feature, units, period, faults)) && SameColumn(feature, g) then Capped(units) else 0
      ensures !answer.InvalidArgument? ==> forall k :: k != (config.parse(user).value, period) ==>
                (k in counters <==> k in old(counters)) && (k in counters ==> counters[k] == old(counters)[k])
      ensures answer.Recorded? ==>
                var key := KeyOf(config.parse(user).value, feature, period);
                if key in old(cache) then key in cache && cache[key] == old(cache)[key]
                else key in cache ==> cache[key] == Stored(config.parse(user).value, feature, period)
      ensures answer.Recorded? ==>
                var key := KeyOf(config.parse(user).value, feature, period);
                var raw := UsageKey(config, user, feature, period);
                && (forall k :: k != key && k != raw ==>
                      (k in cache <==> k in old(cache)) && (k in cache ==> cache[k] == old(cache)[k]))
                && (faults.finalWrite ==>
                      raw in cache && cache[raw] == if key in old(cache) then old(cache)[key]
                                                    else Stored(config.parse(user).value, feature, period))
      ensures answer.Internal? ==> cache == old(cache)
      ensures !answer.Decision? && !answer.FailedPrecondition?
      ensures answer.InvalidArgument? ==> users == old(users)
      ensures users == old(users) ||
              (config.parse(user).Some? && config.parse(user).value !in old(users)
               && users == old(users)[config.parse(user).value := None])
    {
      match config.parse(user)
      case None => return InvalidArgument;
      case Some(id) =>
        if !faults.ensureUser {
          return Internal;
        }
        if id !in users {
          users := users[id := None];
        }
        var row := Add(RowAt(counters, id, period), UsageUnits(feature, units));
        if !faults.increment || !Fits(row) {
          return Internal;
        }
        forall g ensures UsageForFeature(g, row) ==
          UsageForFeature(g, RowAt(counters, id, period)) + if SameColumn(feature, g) then Capped(units) else 0
        {
          ReportRaisesItsColumn(RowAt(counters, id, period), feature, units, g);
        }
        counters := counters[(id, period) := row];
        assert RowAt(counters, id, period) == row;
        var updated := ResolveUsage(id, feature, period, faults);
        match updated
        case None => return Internal;
        case Some(figure) =>
          if faults.finalWrite {
            cache := cache[UsageKey(config, user, feature, period) := figure];
          }
          return Recorded;
    }
  }
}
