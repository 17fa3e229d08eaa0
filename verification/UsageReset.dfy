/** `UsageResetScheduler.handleCron`: the monthly reset deletes by glob pattern. */
module UsageReset {
  import opened Ttl
  import opened Keys
  import opened RedisServer
  import opened Cache
  import opened Usage
  import Calendar

  const COUNTER_PATTERN := "usage:*:api_calls:*"
  const FLAG_PATTERN := "usage:*:limit_exceeded"

  datatype Metric = ApiCalls | WebhookCalls | DataStorage | ActiveUsers {
    function Name(): string {
      match this
      case ApiCalls => API_CALLS
      case WebhookCalls => "webhook_calls"
      case DataStorage => "data_storage"
      case ActiveUsers => "active_users"
    }
  }

  /** The keys the application writes: the three usage families, and all the others
      (`apikey:`, `auth:`, `invite:`, ...), none of which starts with `usage:`. */
  datatype RedisKey =
    | UsageCounter(org: OrgId, metric: Metric, month: Calendar.YearMonth)
    | LimitFlag(org: OrgId)
    | PlanLimit(org: OrgId)
    | OtherKey(text: string)
  {
    predicate WellFormed() {
      match this
      case UsageCounter(org, _, month) => ColonFree(org) && 0 <= month.month <= 11
      case LimitFlag(org) => ColonFree(org)
      case PlanLimit(org) => ColonFree(org)
      case OtherKey(text) => !("usage:" <= text)
    }

    function Render(): string
      requires WellFormed()
    {
      match this
      case UsageCounter(org, metric, month) => UsageKey(org, metric.Name(), Calendar.FormatYYMM(month))
      case LimitFlag(org) => FlagKey(org)
      case PlanLimit(org) => PlanKey(org)
      case OtherKey(text) => text
    }

    predicate IsReset() {
      (UsageCounter? && metric.ApiCalls?) || LimitFlag?
    }
  }

  lemma MonthNameFacts(p: Calendar.YearMonth)
    requires 0 <= p.month <= 11
    ensures ColonFree(Calendar.FormatYYMM(p)) && Calendar.FormatYYMM(p) != "limit_exceeded"
  {
    DecimalDigits(if p.year < 0 then -p.year else p.year);
    DecimalDigits(p.month + 1);
    assert 'l' !in Calendar.FormatYYMM(p);
    assert 'l' in "limit_exceeded" by { assert "limit_exceeded"[0] == 'l'; }
  }

  /** The colon-separated segments of a rendered usage key. */
  lemma Segments(k: RedisKey)
    requires k.WellFormed() && !k.OtherKey?
    ensures Split(k.Render()) ==
              match k
              case UsageCounter(org, metric, month) => ["usage", org, metric.Name(), Calendar.FormatYYMM(month)]
              case LimitFlag(org) => ["usage", org, "limit_exceeded"]
              case PlanLimit(org) => ["usage", org, "limit"]
  {
    match k
    case UsageCounter(org, metric, month) =>
      MonthNameFacts(month);
      UsageKeyParts(org, metric.Name(), Calendar.FormatYYMM(month));
    case LimitFlag(org) => FlagAndPlanKeyParts(org);
    case PlanLimit(org) => FlagAndPlanKeyParts(org);
  }

  lemma CounterPatternShape(s: string)
    ensures Glob(COUNTER_PATTERN, s) <==> exists x: string, y: string :: s == "usage:" + x + ":api_calls:" + y
  {
    assert COUNTER_PATTERN == "usage:" + "*" + ":api_calls:" + "*";
    GlobTwoStars("usage:", ":api_calls:", s);
  }

  lemma FlagPatternShape(s: string)
    ensures Glob(FLAG_PATTERN, s) <==> exists x: string :: s == "usage:" + x + ":limit_exceeded"
  {
    assert FLAG_PATTERN == "usage:" + "*" + ":limit_exceeded";
    GlobOneStar("usage:", ":limit_exceeded", s);
  }

  lemma InfixSegments(a: string, x: string, b: string)
    ensures Split((a + ":") + x + (":" + b)) == Split(a) + Split(x) + Split(b)
  {
    assert (a + ":") + x + (":" + b) == a + ":" + (x + ":" + b);
    SplitConcat(a, x + ":" + b);
    SplitConcat(x, b);
  }

  lemma CounterShapeSegments(x: string, y: string)
    ensures Split("usage:" + x + ":api_calls:" + y) == ["usage"] + Split(x) + (["api_calls"] + Split(y))
  {
    assert "usage:" == "usage" + ":" && ":api_calls:" == ":" + ("api_calls" + ":");
    assert ":api_calls:" + y == ":" + ("api_calls" + ":" + y);
    assert "usage:" + x + ":api_calls:" + y == "usage:" + x + (":api_calls:" + y);
    InfixSegments("usage", x, "api_calls" + ":" + y);
    SplitConcat("api_calls", y);
    SplitColonFree("usage"); SplitColonFree("api_calls");
  }

  lemma ColonsApart()
    ensures "usage" + ":" == "usage:" && ":" + "limit_exceeded" == ":limit_exceeded"
  {}

  lemma FlagShapeSegments(x: string)
    ensures Split("usage:" + x + ":limit_exceeded") == ["usage"] + Split(x) + ["limit_exceeded"]
  {
    ColonsApart();
    InfixSegments("usage", x, "limit_exceeded");
    SplitColonFree("usage"); SplitColonFree("limit_exceeded");
  }

  lemma CounterShapeIsCounter(k: RedisKey, x: string, y: string)
    requires k.WellFormed() && k.Render() == "usage:" + x + ":api_calls:" + y
    ensures k.UsageCounter? && k.metric.ApiCalls?
  {
    assert "usage:" <= k.Render();
    assert !k.OtherKey?;
    Segments(k);
    CounterShapeSegments(x, y);
    var parts := ["usage"] + Split(x) + (["api_calls"] + Split(y));
    assert |parts| >= 4;
    assert |Split(x)| == 1 && parts[2] == "api_calls";
  }

  lemma CounterHasShape(org: OrgId, period: string)
    ensures UsageKey(org, API_CALLS, period) == "usage:" + org + ":api_calls:" + period
  {
    assert "usage" + ":" == "usage:" && ":" + (API_CALLS + ":") == ":api_calls:";
    assert UsageKey(org, API_CALLS, period) == ("usage" + ":") + org + (":" + (API_CALLS + ":")) + period;
  }

  /** Among well-formed keys the counter pattern matches exactly the API-call counters. */
  lemma CounterPatternExact(k: RedisKey)
    requires k.WellFormed()
    ensures Glob(COUNTER_PATTERN, k.Render()) <==> k.UsageCounter? && k.metric.ApiCalls?
  {
    CounterPatternShape(k.Render());
    if x: string, y: string :| k.Render() == "usage:" + x + ":api_calls:" + y { CounterShapeIsCounter(k, x, y); }
    if k.UsageCounter? && k.metric.ApiCalls? { CounterHasShape(k.org, Calendar.FormatYYMM(k.month)); }
  }

  lemma FlagShapeIsFlag(k: RedisKey, x: string)
    requires k.WellFormed() && k.Render() == "usage:" + x + ":limit_exceeded"
    ensures k.LimitFlag?
  {
    assert "usage:" <= k.Render();
    assert !k.OtherKey?;
    Segments(k);
    FlagShapeSegments(x);
    var parts := ["usage"] + Split(x) + ["limit_exceeded"];
    assert parts[|parts| - 1] == "limit_exceeded";
    if k.UsageCounter? { MonthNameFacts(k.month); }
  }

  /** Among well-formed keys the flag pattern matches exactly the limit flags. */
  lemma FlagPatternExact(k: RedisKey)
    requires k.WellFormed()
    ensures Glob(FLAG_PATTERN, k.Render()) <==> k.LimitFlag?
  {
    FlagPatternShape(k.Render());
    if x: string :| k.Render() == "usage:" + x + ":limit_exceeded" { FlagShapeIsFlag(k, x); }
    if k.LimitFlag? { FlagHasShape(k.org); }
  }

  lemma FlagHasShape(org: OrgId)
    ensures FlagKey(org) == "usage:" + org + ":limit_exceeded"
  {
    assert "usage" + ":" == "usage:" && ":" + "limit_exceeded" == ":limit_exceeded";
    assert FlagKey(org) == ("usage" + ":") + org + (":" + "limit_exceeded");
  }

  /** Everything that happens on the server during the reset. */
  function ResetTrace(counters: seq<Round<PlanLimits>>, flags: seq<Round<PlanLimits>>): seq<Step<PlanLimits>> {
    PurgeTrace(counters) + PurgeTrace(flags)
  }

  /** Both scans are full and keep SCAN's guarantee, over the keyspaces each of them meets. */
  ghost predicate ScansHold(m: UsageStore, counters: seq<Round<PlanLimits>>, flags: seq<Round<PlanLimits>>) {
    && FullScan(counters) && OnlyMatching(counters, COUNTER_PATTERN)
    && ScanCovers(m, COUNTER_PATTERN, PurgeTrace(counters))
    && FullScan(flags) && OnlyMatching(flags, FLAG_PATTERN)
    && ScanCovers(Replay(m, PurgeTrace(counters)), FLAG_PATTERN, PurgeTrace(flags))
  }

  lemma LiveInPrefix(m: UsageStore, a: seq<Step<PlanLimits>>, b: seq<Step<PlanLimits>>, i: nat, k: string)
    requires i < |a|
    ensures LiveBefore(m, a + b, i, k) <==> LiveBefore(m, a, i, k)
  {
    assert (a + b)[..i] == a[..i];
  }

  lemma LiveInSuffix(m: UsageStore, a: seq<Step<PlanLimits>>, b: seq<Step<PlanLimits>>, i: nat, k: string)
    requires i < |b|
    ensures LiveBefore(m, a + b, |a| + i, k) <==> LiveBefore(Replay(m, a), b, i, k)
  {
    assert (a + b)[..|a| + i] == a + b[..i];
    ReplayJoin(m, a, b[..i]);
  }

  lemma CounterMissing(m: UsageStore, counters: seq<Round<PlanLimits>>, flags: seq<Round<PlanLimits>>, k: string)
    returns (i: nat)
    requires ScansHold(m, counters, flags) && Glob(COUNTER_PATTERN, k)
    ensures i < |ResetTrace(counters, flags)| && !LiveBefore(m, ResetTrace(counters, flags), i, k)
  {
    var a, b := PurgeTrace(counters), PurgeTrace(flags);
    TracePurges(counters);
    i := MissingOnce(m, COUNTER_PATTERN, a, k);
    if i < |a| {
      LiveInPrefix(m, a, b, i, k);
    } else {
      LiveInSuffix(m, a, b, 0, k);
      assert b[..0] == [];
    }
  }

  lemma FlagMissing(m: UsageStore, counters: seq<Round<PlanLimits>>, flags: seq<Round<PlanLimits>>, k: string)
    returns (i: nat)
    requires ScansHold(m, counters, flags) && Glob(FLAG_PATTERN, k)
    ensures i <= |ResetTrace(counters, flags)|
    ensures if i < |ResetTrace(counters, flags)| then !LiveBefore(m, ResetTrace(counters, flags), i, k)
            else k !in Replay(m, ResetTrace(counters, flags))
  {
    var a, b := PurgeTrace(counters), PurgeTrace(flags);
    TracePurges(flags);
    i := MissingOnce(Replay(m, a), FLAG_PATTERN, b, k);
    if i < |b| { LiveInSuffix(m, a, b, i, k); } else { ReplayJoin(m, a, b); }
    i := |a| + i;
  }

  lemma NotPurged(counters: seq<Round<PlanLimits>>, flags: seq<Round<PlanLimits>>, k: string)
    requires OnlyMatching(counters, COUNTER_PATTERN) && OnlyMatching(flags, FLAG_PATTERN)
    requires !Glob(COUNTER_PATTERN, k) && !Glob(FLAG_PATTERN, k)
    ensures var steps := ResetTrace(counters, flags);
            forall i :: 0 <= i < |steps| && steps[i].Purge? ==> k !in steps[i].keys
  {
    PurgesOnlyMatching(counters, COUNTER_PATTERN);
    PurgesOnlyMatching(flags, FLAG_PATTERN);
  }

  /** Whatever the two scans reply and whatever other clients do meanwhile: an API-call counter or
      limit flag that can be read afterwards was written after a moment at which it was missing;
      every other well-formed key, the cached plan limits included, ends as those clients alone
      leave it. */
  lemma ResetKeys(m: UsageStore, counters: seq<Round<PlanLimits>>, flags: seq<Round<PlanLimits>>, k: RedisKey,
                  t: Instant)
    requires ScansHold(m, counters, flags) && k.WellFormed()
    requires OverBy(ResetTrace(counters, flags), t)
    ensures var steps := ResetTrace(counters, flags);
            && (k.IsReset() && Live(Replay(m, steps), k.Render(), t) ==> Rewritten(m, steps, k.Render()))
            && (!k.IsReset() ==> SameAt(Replay(m, steps), Replay(m, Foreign(steps)), k.Render()))
  {
    var steps, key := ResetTrace(counters, flags), k.Render();
    CounterPatternExact(k);
    FlagPatternExact(k);
    if !k.IsReset() {
      NotPurged(counters, flags, key);
      BystandersKeep(m, steps, key);
    } else if Live(Replay(m, steps), key, t) {
      var i: nat;
      if k.LimitFlag? {
        i := FlagMissing(m, counters, flags, key);
      } else {
        i := CounterMissing(m, counters, flags, key);
      }
      BackAgain(m, steps, i, key, t);
    }
  }

  /** An API-call counter that the reset deletes, and that is only ever counted up, ends with
      exactly the calls made since: none from before, and none lost. */
  lemma ResetCounts(m: UsageStore, counters: seq<Round<PlanLimits>>, flags: seq<Round<PlanLimits>>, k: RedisKey, j: nat)
    requires OnlyMatching(flags, FLAG_PATTERN) && k.WellFormed() && k.UsageCounter? && k.metric.ApiCalls?
    requires j < |PurgeTrace(counters)| && PurgeTrace(counters)[j].Purge? && k.Render() in PurgeTrace(counters)[j].keys
    requires forall l :: j < l < |PurgeTrace(counters)| && PurgeTrace(counters)[l].Purge? ==>
               k.Render() !in PurgeTrace(counters)[l].keys
    requires OnlyCounted(ResetTrace(counters, flags), k.Render())
    ensures var steps := ResetTrace(counters, flags);
            HoldsCount(Replay(m, steps), k.Render(), Counts(steps[j + 1..], k.Render()))
  {
    FlagPatternExact(k);
    PurgesOnlyMatching(flags, FLAG_PATTERN);
    CountsSincePurge(m, ResetTrace(counters, flags), j, k.Render());
  }

  class UsageResetScheduler {
    const cache: CacheService<PlanLimits>

    constructor (cache: CacheService<PlanLimits>)
      ensures this.cache == cache
    {
      this.cache := cache;
    }

    method HandleCron(counters: seq<Round<PlanLimits>>, flags: seq<Round<PlanLimits>>)
      requires ScansHold(cache.store, counters, flags)
      modifies cache
      ensures cache.store == Replay(old(cache.store), ResetTrace(counters, flags))
      ensures forall k: RedisKey, t ::
                && k.WellFormed() && k.IsReset() && Live(cache.store, k.Render(), t)
                && OverBy(ResetTrace(counters, flags), t)
                ==> Rewritten(old(cache.store), ResetTrace(counters, flags), k.Render())
      ensures forall k: RedisKey :: k.WellFormed() && !k.IsReset() ==>
                SameAt(cache.store, Replay(old(cache.store), Foreign(ResetTrace(counters, flags))), k.Render())
    {
      cache.DeleteByPattern(COUNTER_PATTERN, counters);
      cache.DeleteByPattern(FLAG_PATTERN, flags);
      ReplayJoin(old(cache.store), PurgeTrace(counters), PurgeTrace(flags));
      ResetAllKeys(old(cache.store), counters, flags);
    }
  }

  lemma ResetAllKeys(m: UsageStore, counters: seq<Round<PlanLimits>>, flags: seq<Round<PlanLimits>>)
    requires ScansHold(m, counters, flags)
    ensures var steps := ResetTrace(counters, flags);
            && (forall k: RedisKey, t ::
                  && k.WellFormed() && k.IsReset() && Live(Replay(m, steps), k.Render(), t)
                  && OverBy(steps, t)
                  ==> Rewritten(m, steps, k.Render()))
            && forall k: RedisKey :: k.WellFormed() && !k.IsReset() ==>
                  SameAt(Replay(m, steps), Replay(m, Foreign(steps)), k.Render())
  {
    var steps := ResetTrace(counters, flags);
    forall k: RedisKey, t | k.WellFormed() && k.IsReset() && Live(Replay(m, steps), k.Render(), t) && OverBy(steps, t)
      ensures Rewritten(m, steps, k.Render())
    {
      ResetKeys(m, counters, flags, k, t);
    }
    forall k: RedisKey | k.WellFormed() && !k.IsReset()
      ensures SameAt(Replay(m, steps), Replay(m, Foreign(steps)), k.Render())
    {
      CounterPatternExact(k);
      FlagPatternExact(k);
      NotPurged(counters, flags, k.Render());
      BystandersKeep(m, steps, k.Render());
    }
  }
}
