/** `UsageService` and `UsageTrackerInterceptor`: metering API calls against the plan limit. */
module Usage {
  import opened Wrappers
  import opened Ttl
  import opened Keys
  import opened RedisServer
  import opened Cache
  import opened Runs
  import Calendar

  type OrgId = string

  const API_CALLS := "api_calls"

  /** The plan fields `getPlanLimit` returns, also the JSON document it caches. */
  datatype PlanLimits = PlanLimits(apiCallsPerMonth: int, maxWebhooks: int, planId: nat)

  type UsageStore = Redis<PlanLimits>

  datatype UsageError = OrganizationNotFound | RedisFailure(e: RedisError)

  function UsageKey(org: OrgId, metric: string, period: string): string {
    "usage" + ":" + (org + ":" + (metric + ":" + period))
  }

  function FlagKey(org: OrgId): string {
    "usage" + ":" + (org + ":" + "limit_exceeded")
  }

  function PlanKey(org: OrgId): string {
    "usage" + ":" + (org + ":" + "limit")
  }

  /** Splitting a counter key at its colons gives back what it was built from. */
  lemma UsageKeyParts(org: OrgId, metric: string, period: string)
    requires ColonFree(org) && ColonFree(metric) && ColonFree(period)
    ensures Split(UsageKey(org, metric, period)) == ["usage", org, metric, period]
  {
    SplitConcat("usage", org + ":" + (metric + ":" + period));
    SplitConcat(org, metric + ":" + period);
    SplitConcat(metric, period);
    SplitColonFree("usage"); SplitColonFree(org); SplitColonFree(metric); SplitColonFree(period);
  }

  lemma ThreePartKey(org: OrgId, tail: string)
    requires ColonFree(org) && ColonFree(tail)
    ensures Split("usage" + ":" + (org + ":" + tail)) == ["usage", org, tail]
  {
    SplitConcat("usage", org + ":" + tail);
    SplitConcat(org, tail);
    SplitColonFree("usage"); SplitColonFree(org); SplitColonFree(tail);
  }

  lemma FlagAndPlanKeyParts(org: OrgId)
    requires ColonFree(org)
    ensures Split(FlagKey(org)) == ["usage", org, "limit_exceeded"]
    ensures Split(PlanKey(org)) == ["usage", org, "limit"]
  {
    ThreePartKey(org, "limit_exceeded");
    ThreePartKey(org, "limit");
  }

  /** Keys of different kinds or of different organizations never coincide. */
  lemma KeysDistinct(a: OrgId, b: OrgId, p: string)
    requires ColonFree(a) && ColonFree(b) && ColonFree(p)
    ensures UsageKey(a, API_CALLS, p) != FlagKey(b) && UsageKey(a, API_CALLS, p) != PlanKey(b)
            && FlagKey(a) != PlanKey(b)
    ensures a != b ==>
              && UsageKey(a, API_CALLS, p) != UsageKey(b, API_CALLS, p)
              && FlagKey(a) != FlagKey(b) && PlanKey(a) != PlanKey(b)
  {
    UsageKeyParts(a, API_CALLS, p); UsageKeyParts(b, API_CALLS, p);
    FlagAndPlanKeyParts(a); FlagAndPlanKeyParts(b);
    assert Split(UsageKey(a, API_CALLS, p))[1] == a && Split(UsageKey(b, API_CALLS, p))[1] == b;
    assert Split(FlagKey(a))[1] == a && Split(FlagKey(b))[1] == b;
    assert Split(PlanKey(a))[1] == a && Split(PlanKey(b))[1] == b;
    assert Split(FlagKey(a))[2] != Split(PlanKey(b))[2];
  }

  function Period(at: Instant, offset: int): string {
    Calendar.FormatYYMM(Calendar.LocalMonth(at, offset))
  }

  lemma PeriodColonFree(at: Instant, offset: int)
    ensures ColonFree(Period(at, offset))
  {
    MonthNameColonFree(Calendar.LocalMonth(at, offset));
  }

  lemma MonthNameColonFree(p: Calendar.YearMonth)
    requires 0 <= p.month <= 11
    ensures ColonFree(Calendar.FormatYYMM(p))
  {
    DecimalDigits(if p.year < 0 then -p.year else p.year);
    DecimalDigits(p.month + 1);
  }

  /** What the service is configured with, and the organization rows joined to their plans. */
  datatype World = World(plans: map<OrgId, PlanLimits>, ttlExpiration: nat, offset: int)

  /** The keys of one organization in one period. */
  datatype Slots = Slots(counter: string, flag: string, plan: string) {
    predicate Apart() {
      counter != flag && counter != plan && flag != plan
    }
  }

  function SlotsOf(org: OrgId, period: string): Slots {
    Slots(UsageKey(org, API_CALLS, period), FlagKey(org), PlanKey(org))
  }

  /** `getPlanLimit`: the cached limits if there are any, else the organization's, then cached. */
  function LookupAt(m: UsageStore, key: string, row: Option<PlanLimits>, ttlExpiration: nat, now: Instant)
    : (Result<PlanLimits, UsageError>, UsageStore)
  {
    var cached := Get(m, key, now);
    if cached.Some? && cached.value.Json? then (Ok(cached.value.doc), m)
    else if row.None? then (Err(OrganizationNotFound), m)
    else (Ok(row.value), Put(m, key, Json(row.value), ttlExpiration, now))
  }

  function RowOf(w: World, org: OrgId): Option<PlanLimits> {
    if org in w.plans then Some(w.plans[org]) else None
  }

  function LookupPlan(w: World, m: UsageStore, org: OrgId, now: Instant): (Result<PlanLimits, UsageError>, UsageStore) {
    LookupAt(m, PlanKey(org), RowOf(w, org), w.ttlExpiration, now)
  }

  /** A stored limit of -1 means no limit. */
  predicate LimitReached(limit: int, count: int) {
    limit != -1 && count >= limit
  }

  /** `setLimitExceeded` with the TTL `logUsage` computes; refused when that TTL is negative. */
  function RaiseAt(m: UsageStore, key: string, ttl: int, now: Instant): (Result<(), UsageError>, UsageStore) {
    if ttl < 0 then (Err(RedisFailure(InvalidExpire)), m)
    else (Ok(()), Put(m, key, Text("true"), ttl, now))
  }

  function RaiseFlag(w: World, m: UsageStore, org: OrgId, now: Instant): (Result<(), UsageError>, UsageStore) {
    RaiseAt(m, FlagKey(org), Calendar.EndOfMonthTtl(now, w.offset), now)
  }

  /** `logUsage`: the period is named and the call counted at `now`; the flag's TTL is computed and
      the flag set at `flagAt`, after the awaits in between. */
  function LogAt(m: UsageStore, k: Slots, row: Option<PlanLimits>, ttlExpiration: nat, ttl: int, now: Instant,
                 flagAt: Instant)
    : (Result<(), UsageError>, UsageStore)
  {
    var c := IncrCell(m, k.counter, now);
    if c.Err? then (Err(RedisFailure(c.error)), m)
    else
      var m1 := m[k.counter := c.value];
      var (plan, m2) := LookupAt(m1, k.plan, row, ttlExpiration, now);
      if plan.Err? then (Err(plan.error), m2)
      else if LimitReached(plan.value.apiCallsPerMonth, c.value.value.n) then RaiseAt(m2, k.flag, ttl, flagAt)
      else (Ok(()), m2)
  }

  function LogUsage(w: World, m: UsageStore, org: OrgId, now: Instant, flagAt: Instant)
    : (Result<(), UsageError>, UsageStore)
  {
    LogAt(m, SlotsOf(org, Period(now, w.offset)), RowOf(w, org), w.ttlExpiration,
          Calendar.EndOfMonthTtl(flagAt, w.offset), now, flagAt)
  }

  /** One request: whether its route is tracked, when it checks the flag, counts, and sets the flag,
      and how its handler ends. */
  datatype Call = Call(org: OrgId, tracked: bool, checkAt: Instant, logAt: Instant, flagAt: Instant, handlerOk: bool)

  datatype Verdict = Untracked | LimitExceeded | HandlerFailed | TrackingFailed(e: UsageError) | Served

  function Flagged(m: UsageStore, org: OrgId, now: Instant): bool {
    Truthy(Get(m, FlagKey(org), now))
  }

  function TrackAt(m: UsageStore, k: Slots, row: Option<PlanLimits>, ttlExpiration: nat, ttl: int, c: Call)
    : (Verdict, UsageStore)
  {
    if !c.tracked then (Untracked, m)
    else if Truthy(Get(m, k.flag, c.checkAt)) then (LimitExceeded, m)
    else if !c.handlerOk then (HandlerFailed, m)
    else
      var (r, m') := LogAt(m, k, row, ttlExpiration, ttl, c.logAt, c.flagAt);
      (if r.Err? then TrackingFailed(r.error) else Served, m')
  }

  function Track(w: World, m: UsageStore, c: Call): (Verdict, UsageStore) {
    TrackAt(m, SlotsOf(c.org, Period(c.logAt, w.offset)), RowOf(w, c.org), w.ttlExpiration,
            Calendar.EndOfMonthTtl(c.flagAt, w.offset), c)
  }

  class UsageService {
    const cache: CacheService<PlanLimits>
    const ttlExpiration: nat
    const offset: int
    var plans: map<OrgId, PlanLimits>

    constructor (cache: CacheService<PlanLimits>, ttlExpiration: nat, offset: int)
      ensures this.cache == cache && this.ttlExpiration == ttlExpiration && this.offset == offset && plans == map[]
    {
      this.cache, this.ttlExpiration, this.offset, plans := cache, ttlExpiration, offset, map[];
    }

    function Config(): World
      reads this
    {
      World(plans, ttlExpiration, offset)
    }

    method IncrementUsage(org: OrgId, metric: string, period: string, now: Instant) returns (r: Result<int, RedisError>)
      modifies cache
      ensures var key := UsageKey(org, metric, period);
              var c := IncrCell(old(cache.store), key, now);
              if c.Err? then r == Err(NotAnInteger) && cache.store == old(cache.store)
              else cache.store == old(cache.store)[key := c.value] && r == Ok(c.value.value.n)
    {
      r := cache.Incr(UsageKey(org, metric, period), now);
    }

    method IsLimitExceeded(org: OrgId, now: Instant) returns (exceeded: bool)
      ensures exceeded == Flagged(cache.store, org, now)
      ensures exceeded <==> Live(cache.store, FlagKey(org), now) && cache.store[FlagKey(org)].value != Text("")
    {
      var flag := cache.Get(FlagKey(org), now);
      exceeded := Truthy(flag);
    }

    method SetLimitExceeded(org: OrgId, ttl: int, now: Instant) returns (r: Result<(), RedisError>)
      modifies cache
      ensures r == if ttl < 0 then Err(InvalidExpire) else Ok(())
      ensures cache.store == if ttl < 0 then old(cache.store)
                             else Put(old(cache.store), FlagKey(org), Text("true"), ttl, now)
    {
      r := cache.Set(FlagKey(org), Text("true"), Some(ttl), now);
    }

    method GetPlanLimit(org: OrgId, now: Instant) returns (r: Result<PlanLimits, UsageError>)
      modifies cache
      ensures (r, cache.store) == LookupPlan(Config(), old(cache.store), org, now)
    {
      var cached := cache.Get(PlanKey(org), now);
      if cached.Some? && cached.value.Json? { return Ok(cached.value.doc); }
      if org !in plans { return Err(OrganizationNotFound); }
      var _ := cache.Set(PlanKey(org), Json(plans[org]), Some(ttlExpiration), now);
      r := Ok(plans[org]);
    }
  }

  class UsageTrackerInterceptor {
    const service: UsageService

    constructor (service: UsageService)
      ensures this.service == service
    {
      this.service := service;
    }

    method Log(org: OrgId, now: Instant, flagAt: Instant) returns (r: Result<(), UsageError>)
      modifies service.cache
      ensures (r, service.cache.store) == LogUsage(service.Config(), old(service.cache.store), org, now, flagAt)
    {
      var count := service.IncrementUsage(org, API_CALLS, Period(now, service.offset), now);
      if count.Err? { return Err(RedisFailure(count.error)); }
      var plan := service.GetPlanLimit(org, now);
      if plan.Err? { return Err(plan.error); }
      if LimitReached(plan.value.apiCallsPerMonth, count.value) {
        var raised := service.SetLimitExceeded(org, Calendar.EndOfMonthTtl(flagAt, service.offset), flagAt);
        if raised.Err? { return Err(RedisFailure(raised.error)); }
      }
      r := Ok(());
    }

    /** The handler's own outcome is an input; only a request that was let through reaches it. */
    method Intercept(c: Call) returns (v: Verdict)
      modifies service.cache
      ensures (v, service.cache.store) == Track(service.Config(), old(service.cache.store), c)
    {
      if !c.tracked { return Untracked; }
      var exceeded := service.IsLimitExceeded(c.org, c.checkAt);
      if exceeded { return LimitExceeded; }
      if !c.handlerOk { return HandlerFailed; }
      var r := Log(c.org, c.logAt, c.flagAt);
      v := if r.Err? then TrackingFailed(r.error) else Served;
    }
  }

  // ---- One request at a time ----

  /** 23:59:59.000 of the last day of start's month. */
  function MonthEnd(w: World, start: Instant): Instant {
    Calendar.EndOfMonth(start, w.offset)
  }

  /** The last instant of start's month at which a raised flag still gets a positive TTL. */
  function WindowEnd(w: World, start: Instant): Instant {
    MonthEnd(w, start) - 1000
  }

  function TtlAt(w: World, t: Instant): int {
    Calendar.EndOfMonthTtl(t, w.offset)
  }

  predicate InWindow(w: World, start: Instant, t: Instant) {
    start <= t <= WindowEnd(w, start)
  }

  /** The rest of the month, from start on. */
  predicate InMonth(w: World, start: Instant, t: Instant) {
    start <= t <= MonthEnd(w, start) + 999
  }

  lemma MonthFacts(w: World, start: Instant, t: Instant)
    requires InMonth(w, start, t)
    ensures Period(t, w.offset) == Period(start, w.offset) && MonthEnd(w, t) == MonthEnd(w, start)
    ensures var ttl := TtlAt(w, t);
            && t + 1000 * ttl <= MonthEnd(w, start) < t + 1000 * ttl + 1000
            && (ttl >= 1 <==> InWindow(w, start, t)) && (ttl == 0 <==> WindowEnd(w, start) < t <= MonthEnd(w, start))
            && (ttl == -1 <==> MonthEnd(w, start) < t)
  {
    Calendar.SameMonth(start, w.offset, t);
    Calendar.SameEnd(start, w.offset, t);
    Calendar.WholeSeconds(t, MonthEnd(w, start));
  }

  function Max(a: int, b: int): int {
    if a > b then a else b
  }

  /** The count at which calls stop being let through, when n0 were counted at the start: even a
      limit that is 0, or already reached, is only noticed after one more. */
  function Ceiling(limit: int, n0: nat): int {
    Max(limit, n0 + 1)
  }

  // ---- One organization's keys ----

  predicate PlanFits(m: UsageStore, k: Slots, row: PlanLimits) {
    k.plan in m ==> m[k.plan].value == Json(row)
  }

  predicate CountAt(m: UsageStore, k: Slots, n: int) {
    if n == 0 then k.counter !in m else k.counter in m && m[k.counter] == Cell(Num(n), None)
  }

  /** n calls are counted, no flag is up, and no other plan is cached. */
  predicate Clear(m: UsageStore, k: Slots, row: PlanLimits, n: nat) {
    PlanFits(m, k, row) && CountAt(m, k, n) && k.flag !in m
  }

  /** A flag that cannot expire up to the instant `last`. */
  predicate FlagLasts(m: UsageStore, k: Slots, last: Instant) {
    && k.flag in m && m[k.flag].value == Text("true")
    && (m[k.flag].expiresAt.Some? ==> m[k.flag].expiresAt.value > last)
  }

  /** The flag key after a flag was raised at t with this TTL, if it could be. */
  predicate FlagLeft(m: UsageStore, k: Slots, ttl: int, t: Instant) {
    if ttl < 0 then k.flag !in m
    else k.flag in m && m[k.flag] == Cell(Text("true"), if ttl == 0 then None else Some(t + 1000 * ttl))
  }

  /** What one succeeding, unflagged call does: it is counted, and if that reaches the limit the
      flag is raised as far as it can be. */
  predicate Logged(r: Result<(), UsageError>, m: UsageStore, k: Slots, row: PlanLimits, n: nat, ttl: int, t: Instant) {
    if !LimitReached(row.apiCallsPerMonth, n) then r.Ok? && Clear(m, k, row, n)
    else
      && PlanFits(m, k, row) && CountAt(m, k, n) && FlagLeft(m, k, ttl, t)
      && r == if ttl >= 0 then Ok(()) else Err(RedisFailure(InvalidExpire))
  }

  lemma ClearCallLogged(m: UsageStore, k: Slots, row: PlanLimits, ttlExpiration: nat, n: nat, ttl: int, t: Instant,
                        flagAt: Instant)
    requires k.Apart() && Clear(m, k, row, n)
    ensures var (r, m') := LogAt(m, k, Some(row), ttlExpiration, ttl, t, flagAt);
            Logged(r, m', k, row, n + 1, ttl, flagAt)
  {
    assert IncrCell(m, k.counter, t) == Ok(Cell(Num(n + 1), None));
  }

  /** The keys when n calls have succeeded, the first n0 of them before the start. */
  predicate MeteredAt(m: UsageStore, k: Slots, row: PlanLimits, last: Instant, n0: nat, n: nat) {
    var limit := row.apiCallsPerMonth;
    if limit == -1 || n < Ceiling(limit, n0) then Clear(m, k, row, n)
    else PlanFits(m, k, row) && CountAt(m, k, Ceiling(limit, n0)) && FlagLasts(m, k, last)
  }

  predicate Counted(c: Call) {
    c.tracked && c.handlerOk
  }

  /** The answer a call deserves when n calls have succeeded. */
  function Deserved(limit: int, n0: nat, n: nat, c: Call): Verdict {
    if !c.tracked then Untracked
    else if limit != -1 && n >= Ceiling(limit, n0) then LimitExceeded
    else if c.handlerOk then Served else HandlerFailed
  }

  lemma MeteredCall(m: UsageStore, k: Slots, row: PlanLimits, ttlExpiration: nat, last: Instant, n0: nat, n: nat,
                    ttl: int, c: Call)
    requires k.Apart() && n0 <= n && MeteredAt(m, k, row, last, n0, n)
    requires c.checkAt <= last && ttl >= 1 && c.flagAt + 1000 * ttl > last
    ensures var (v, m') := TrackAt(m, k, Some(row), ttlExpiration, ttl, c);
            && v == Deserved(row.apiCallsPerMonth, n0, n, c)
            && MeteredAt(m', k, row, last, n0, if Counted(c) then n + 1 else n)
  {
    var limit := row.apiCallsPerMonth;
    if c.tracked && (limit == -1 || n < Ceiling(limit, n0)) && c.handlerOk {
      ClearCallLogged(m, k, row, ttlExpiration, n, ttl, c.logAt, c.flagAt);
      assert LimitReached(limit, n + 1) ==> n + 1 == Ceiling(limit, n0);
    }
  }

  // ---- Runs inside one month ----

  /** k and row are the keys and the plan of the organization in start's month. */
  predicate Belong(w: World, org: OrgId, start: Instant, k: Slots, row: PlanLimits) {
    k == SlotsOf(org, Period(start, w.offset)) && RowOf(w, org) == Some(row)
  }

  lemma SlotsApart(w: World, org: OrgId, start: Instant, k: Slots, row: PlanLimits)
    requires ColonFree(org) && Belong(w, org, start, k, row)
    ensures k.Apart()
  {
    PeriodColonFree(start, w.offset);
    KeysDistinct(org, org, Period(start, w.offset));
  }

  /** An empty store is where a known organization's month can begin. */
  lemma EmptyStoreIsClear(w: World, org: OrgId, start: Instant, row: PlanLimits)
    requires RowOf(w, org) == Some(row)
    ensures var k := SlotsOf(org, Period(start, w.offset)); Belong(w, org, start, k, row) && Clear(map[], k, row, 0)
  {}

  predicate CallBetween(org: OrgId, first: Instant, last: Instant, c: Call) {
    c.org == org && first <= c.checkAt <= last && first <= c.logAt <= last && first <= c.flagAt <= last
  }

  predicate AllBetween(org: OrgId, first: Instant, last: Instant, calls: seq<Call>) {
    forall c :: c in calls ==> CallBetween(org, first, last, c)
  }

  type Server = (UsageStore, Call) -> (Verdict, UsageStore)

  function Tracker(w: World): Server {
    (m, c) => Track(w, m, c)
  }

  function Weight(): Call -> nat {
    (c: Call) => if Counted(c) then 1 else 0
  }

  /** The successes when n0 calls were counted at the start and these calls are let through. */
  function Successes(n0: nat, calls: seq<Call>): nat {
    Reached(Weight(), n0, calls)
  }

  function Due(limit: int, n0: nat): (nat, Call) -> Verdict {
    (n: nat, c) => Deserved(limit, n0, n, c)
  }

  function MeteredBy(k: Slots, row: PlanLimits, last: Instant, n0: nat): (UsageStore, nat) -> bool {
    (m, n: nat) => MeteredAt(m, k, row, last, n0, n)
  }

  /** Every call of the run gets the answer it deserves. */
  predicate AsDeserved(server: Server, m: UsageStore, limit: int, n0: nat, calls: seq<Call>) {
    forall i :: 0 <= i < |calls| ==>
      Serve(server, m, calls).0[i] == Due(limit, n0)(Successes(n0, calls[..i]), calls[i])
  }

  /** Within the month, a request touches the keys of the month's start. */
  lemma TracksInMonth(w: World, m: UsageStore, start: Instant, k: Slots, row: PlanLimits, ttl: int, c: Call)
    requires InMonth(w, start, c.logAt) && Belong(w, c.org, start, k, row) && ttl == TtlAt(w, c.flagAt)
    ensures Tracker(w)(m, c) == TrackAt(m, k, Some(row), w.ttlExpiration, ttl, c)
  {
    MonthFacts(w, start, c.logAt);
  }

  lemma TrackedCall(w: World, m: UsageStore, start: Instant, k: Slots, row: PlanLimits, n0: nat, n: nat, c: Call)
    requires Belong(w, c.org, start, k, row) && k.Apart() && CallBetween(c.org, start, WindowEnd(w, start), c)
    requires n0 <= n && MeteredAt(m, k, row, WindowEnd(w, start), n0, n)
    ensures Tracker(w)(m, c).0 == Due(row.apiCallsPerMonth, n0)(n, c)
    ensures MeteredBy(k, row, WindowEnd(w, start), n0)(Tracker(w)(m, c).1, n + Weight()(c))
  {
    var ttl := TtlAt(w, c.flagAt);
    MonthFacts(w, start, c.logAt);
    MonthFacts(w, start, c.flagAt);
    TracksInMonth(w, m, start, k, row, ttl, c);
    MeteredCall(m, k, row, w.ttlExpiration, WindowEnd(w, start), n0, n, ttl, c);
  }

  /** What a server must do with one call to serve a run as deserved. */
  ghost predicate Meters(server: Server, org: OrgId, start: Instant, last: Instant, k: Slots, row: PlanLimits,
                         n0: nat)
  {
    forall m, n: nat, c :: CallBetween(org, start, last, c) && n0 <= n && MeteredBy(k, row, last, n0)(m, n) ==>
      && server(m, c).0 == Due(row.apiCallsPerMonth, n0)(n, c)
      && MeteredBy(k, row, last, n0)(server(m, c).1, n + Weight()(c))
  }

  lemma TrackerMeters(w: World, org: OrgId, start: Instant, k: Slots, row: PlanLimits, n0: nat)
    requires ColonFree(org) && Belong(w, org, start, k, row)
    ensures Meters(Tracker(w), org, start, WindowEnd(w, start), k, row, n0)
  {
    var last := WindowEnd(w, start);
    SlotsApart(w, org, start, k, row);
    forall m, n: nat, c | CallBetween(org, start, last, c) && n0 <= n && MeteredBy(k, row, last, n0)(m, n)
      ensures Tracker(w)(m, c).0 == Due(row.apiCallsPerMonth, n0)(n, c)
      ensures MeteredBy(k, row, last, n0)(Tracker(w)(m, c).1, n + Weight()(c))
    {
      TrackedCall(w, m, start, k, row, n0, n, c);
    }
  }

  lemma MeteredRun(server: Server, m: UsageStore, org: OrgId, start: Instant, last: Instant, k: Slots, row: PlanLimits,
                   n0: nat, calls: seq<Call>)
    requires Meters(server, org, start, last, k, row, n0) && Clear(m, k, row, n0) && AllBetween(org, start, last, calls)
    ensures AsDeserved(server, m, row.apiCallsPerMonth, n0, calls)
    ensures MeteredAt(Serve(server, m, calls).1, k, row, last, n0, Successes(n0, calls))
  {
    assert MeteredBy(k, row, last, n0)(m, n0);
    ServeAsDue(server, MeteredBy(k, row, last, n0), Weight(), Due(row.apiCallsPerMonth, n0), m, n0, calls);
  }

  /** With requests one at a time, inside one month and up to 23:59:58 of its last day: a tracked
      call is let through exactly while fewer than max(limit, n0 + 1) are counted, n0 of them
      before the start, or without a limit; failures and untracked routes are never counted, and
      the counter holds the successes. */
  lemma SequentialAdmission(w: World, m: UsageStore, org: OrgId, start: Instant, k: Slots, row: PlanLimits,
                            n0: nat, calls: seq<Call>)
    requires ColonFree(org) && Belong(w, org, start, k, row) && Clear(m, k, row, n0)
    requires AllBetween(org, start, WindowEnd(w, start), calls)
    ensures AsDeserved(Tracker(w), m, row.apiCallsPerMonth, n0, calls)
    ensures MeteredAt(Serve(Tracker(w), m, calls).1, k, row, WindowEnd(w, start), n0, Successes(n0, calls))
  {
    TrackerMeters(w, org, start, k, row, n0);
    MeteredRun(Tracker(w), m, org, start, WindowEnd(w, start), k, row, n0, calls);
  }

  lemma {:induction false} AllCounted(n0: nat, calls: seq<Call>)
    requires forall c :: c in calls ==> Counted(c)
    ensures Successes(n0, calls) == n0 + |calls|
  {
    if calls != [] { AllCounted(n0, calls[..|calls| - 1]); }
  }

  lemma PrefixesCounted(n0: nat, calls: seq<Call>)
    requires forall c :: c in calls ==> Counted(c)
    ensures forall i :: 0 <= i < |calls| ==> Successes(n0, calls[..i]) == n0 + i
  {
    forall i | 0 <= i < |calls|
      ensures Successes(n0, calls[..i]) == n0 + i
    {
      AllCounted(n0, calls[..i]);
    }
  }

  lemma FirstOnes(server: Server, m: UsageStore, limit: int, calls: seq<Call>)
    requires AsDeserved(server, m, limit, 0, calls) && forall c :: c in calls ==> Counted(c)
    ensures forall i :: 0 <= i < |calls| ==>
              Serve(server, m, calls).0[i] == if limit == -1 || i < Max(limit, 1) then Served else LimitExceeded
  {
    PrefixesCounted(0, calls);
    assert forall i :: 0 <= i < |calls| ==> Counted(calls[i]);
  }

  /** When every call is tracked and succeeds and the month begins with none counted, exactly the
      first max(limit, 1) are served. */
  lemma FirstCallsServed(w: World, m: UsageStore, org: OrgId, start: Instant, k: Slots, row: PlanLimits,
                         calls: seq<Call>)
    requires ColonFree(org) && Belong(w, org, start, k, row) && Clear(m, k, row, 0)
    requires AllBetween(org, start, WindowEnd(w, start), calls) && forall c :: c in calls ==> Counted(c)
    ensures var limit := row.apiCallsPerMonth;
            forall i :: 0 <= i < |calls| ==>
              Serve(Tracker(w), m, calls).0[i]
                == if limit == -1 || i < Max(limit, 1) then Served else LimitExceeded
  {
    SequentialAdmission(w, m, org, start, k, row, 0, calls);
    FirstOnes(Tracker(w), m, row.apiCallsPerMonth, calls);
  }

  // ---- The end of the month ----

  lemma FlagUpUntil(m: UsageStore, key: string, ttl: nat, t: Instant)
    requires ttl > 0
    ensures forall u :: Truthy(Get(RaiseAt(m, key, ttl, t).1, key, u)) <==> u < t + 1000 * ttl
  {}

  /** In every month, a flag raised in the window lapses within the month's last two seconds,
      while its period still runs. */
  lemma FlagLapses(w: World, m: UsageStore, org: OrgId, start: Instant, t: Instant) returns (lapse: Instant)
    requires InWindow(w, start, t)
    ensures WindowEnd(w, start) < lapse <= MonthEnd(w, start) && Period(lapse, w.offset) == Period(start, w.offset)
    ensures forall u :: Flagged(RaiseFlag(w, m, org, t).1, org, u) <==> u < lapse
  {
    MonthFacts(w, start, t);
    var ttl := TtlAt(w, t);
    lapse := t + 1000 * ttl;
    MonthFacts(w, start, lapse);
    FlagUpUntil(m, FlagKey(org), ttl, t);
  }

  /** A flag raised in the second up to 23:59:59 is stored without expiry: it is up at every instant,
      in later months too, until some client writes or deletes it, as the monthly reset does. */
  lemma FlagStaysUntilTouched(w: World, m: UsageStore, org: OrgId, start: Instant, t: Instant,
                              steps: seq<Step<PlanLimits>>, u: Instant)
    requires InMonth(w, start, t) && WindowEnd(w, start) < t <= MonthEnd(w, start)
    requires forall i :: 0 <= i < |steps| ==> !steps[i].Touches(FlagKey(org))
    ensures Flagged(Replay(RaiseFlag(w, m, org, t).1, steps), org, u)
  {
    MonthFacts(w, start, t);
    assert steps[..0] == [];
    UntouchedSince(RaiseFlag(w, m, org, t).1, steps, 0, FlagKey(org));
  }

  /** In the month's final second no flag can be raised. */
  lemma NoFlagInTheLastSecond(w: World, m: UsageStore, org: OrgId, start: Instant, t: Instant)
    requires InMonth(w, start, t) && MonthEnd(w, start) < t
    ensures RaiseFlag(w, m, org, t) == (Err(RedisFailure(InvalidExpire)), m)
  {
    MonthFacts(w, start, t);
  }

  /** The call's handler has run and it is counted; only its caller is told of a failure. */
  function LateVerdict(limit: int, n: nat): Verdict {
    if LimitReached(limit, n + 1) then TrackingFailed(RedisFailure(InvalidExpire)) else Served
  }

  lemma LateCall(m: UsageStore, k: Slots, row: PlanLimits, ttlExpiration: nat, n: nat, ttl: int, c: Call)
    requires k.Apart() && Clear(m, k, row, n) && Counted(c) && ttl < 0
    ensures TrackAt(m, k, Some(row), ttlExpiration, ttl, c).0 == LateDue(row.apiCallsPerMonth)(n, c)
    ensures ClearBy(k, row)(TrackAt(m, k, Some(row), ttlExpiration, ttl, c).1, n + Weight()(c))
  {
    ClearCallLogged(m, k, row, ttlExpiration, n, ttl, c.logAt, c.flagAt);
  }

  function ClearBy(k: Slots, row: PlanLimits): (UsageStore, nat) -> bool {
    (m, n: nat) => Clear(m, k, row, n)
  }

  function LateDue(limit: int): (nat, Call) -> Verdict {
    (n: nat, c) => LateVerdict(limit, n)
  }

  predicate InLastSecond(w: World, org: OrgId, start: Instant, c: Call) {
    Counted(c) && CallBetween(org, Max(start, MonthEnd(w, start) + 1), MonthEnd(w, start) + 999, c)
  }

  lemma LateTtl(w: World, start: Instant, c: Call)
    requires InLastSecond(w, c.org, start, c)
    ensures InMonth(w, start, c.logAt) && TtlAt(w, c.flagAt) == -1
  {
    MonthFacts(w, start, c.flagAt);
  }

  lemma TrackedLateCall(w: World, m: UsageStore, start: Instant, k: Slots, row: PlanLimits, n: nat, c: Call)
    requires Belong(w, c.org, start, k, row) && k.Apart() && InLastSecond(w, c.org, start, c) && Clear(m, k, row, n)
    ensures Tracker(w)(m, c).0 == LateDue(row.apiCallsPerMonth)(n, c)
            && ClearBy(k, row)(Tracker(w)(m, c).1, n + Weight()(c))
  {
    LateTtl(w, start, c);
    TracksInMonth(w, m, start, k, row, -1, c);
    LateCall(m, k, row, w.ttlExpiration, n, -1, c);
  }

  ghost predicate Uncaps(server: Server, k: Slots, row: PlanLimits, calls: seq<Call>) {
    forall m, n: nat, c :: c in calls && ClearBy(k, row)(m, n) ==>
      server(m, c).0 == LateDue(row.apiCallsPerMonth)(n, c) && ClearBy(k, row)(server(m, c).1, n + Weight()(c))
  }

  lemma TrackerUncaps(w: World, org: OrgId, start: Instant, k: Slots, row: PlanLimits, calls: seq<Call>)
    requires ColonFree(org) && Belong(w, org, start, k, row)
    requires forall c :: c in calls ==> InLastSecond(w, org, start, c)
    ensures Uncaps(Tracker(w), k, row, calls)
  {
    SlotsApart(w, org, start, k, row);
    forall m, n: nat, c | c in calls && ClearBy(k, row)(m, n)
      ensures Tracker(w)(m, c).0 == LateDue(row.apiCallsPerMonth)(n, c)
      ensures ClearBy(k, row)(Tracker(w)(m, c).1, n + Weight()(c))
    {
      TrackedLateCall(w, m, start, k, row, n, c);
    }
  }

  lemma UncappedRun(server: Server, m: UsageStore, k: Slots, row: PlanLimits, n0: nat, calls: seq<Call>)
    requires Uncaps(server, k, row, calls) && Clear(m, k, row, n0)
    ensures Clear(Serve(server, m, calls).1, k, row, Successes(n0, calls))
    ensures forall i :: 0 <= i < |calls| ==>
              Serve(server, m, calls).0[i] == LateDue(row.apiCallsPerMonth)(Successes(n0, calls[..i]), calls[i])
  {
    assert ClearBy(k, row)(m, n0);
    ServeAsDue(server, ClearBy(k, row), Weight(), LateDue(row.apiCallsPerMonth), m, n0, calls);
  }

  lemma UncappedVerdicts(vs: seq<Verdict>, limit: int, n0: nat, calls: seq<Call>)
    requires |vs| == |calls| && forall c :: c in calls ==> Counted(c)
    requires forall i :: 0 <= i < |calls| ==> vs[i] == LateDue(limit)(Successes(n0, calls[..i]), calls[i])
    ensures forall i :: 0 <= i < |calls| ==> vs[i] == LateVerdict(limit, n0 + i)
  {
    PrefixesCounted(n0, calls);
  }

  lemma UncappedServer(server: Server, m: UsageStore, k: Slots, row: PlanLimits, n0: nat, calls: seq<Call>)
    requires Uncaps(server, k, row, calls) && Clear(m, k, row, n0) && forall c :: c in calls ==> Counted(c)
    ensures var (vs, m') := Serve(server, m, calls);
            && (forall i :: 0 <= i < |calls| ==> vs[i] == LateVerdict(row.apiCallsPerMonth, n0 + i))
            && Clear(m', k, row, n0 + |calls|)
  {
    UncappedRun(server, m, k, row, n0, calls);
    AllCounted(n0, calls);
    UncappedVerdicts(Serve(server, m, calls).0, row.apiCallsPerMonth, n0, calls);
  }

  /** So in that second nothing is refused, however far the limit is exceeded: every succeeding
      call is let through and counted. */
  lemma LastSecondUncapped(w: World, m: UsageStore, org: OrgId, start: Instant, k: Slots, row: PlanLimits,
                           n0: nat, calls: seq<Call>)
    requires ColonFree(org) && Belong(w, org, start, k, row) && Clear(m, k, row, n0)
    requires forall c :: c in calls ==> InLastSecond(w, org, start, c)
    ensures var (vs, m') := Serve(Tracker(w), m, calls);
            && (forall i :: 0 <= i < |calls| ==> vs[i] == LateVerdict(row.apiCallsPerMonth, n0 + i))
            && Clear(m', k, row, n0 + |calls|)
  {
    TrackerUncaps(w, org, start, k, row, calls);
    UncappedServer(Tracker(w), m, k, row, n0, calls);
  }

  // ---- The window is exact ----

  function CallAt(org: OrgId, t: Instant): Call {
    Call(org, true, t, t, t, true)
  }

  /** The server flags the call that reaches the limit for one second, and then forgets. */
  ghost predicate FlagsForASecond(server: Server, k: Slots, row: PlanLimits, n: nat, org: OrgId, t: Instant) {
    Flags(server, k, row, n, org, t) && Forgets(server, k, org, t)
  }

  ghost predicate Flags(server: Server, k: Slots, row: PlanLimits, n: nat, org: OrgId, t: Instant) {
    forall m :: Clear(m, k, row, n) ==> FlagLeft(server(m, CallAt(org, t)).1, k, 1, t)
  }

  ghost predicate Forgets(server: Server, k: Slots, org: OrgId, t: Instant) {
    forall m :: FlagLeft(m, k, 1, t) ==> server(m, CallAt(org, t + 1000)).0 != LimitExceeded
  }

  lemma FlaggingCall(w: World, m: UsageStore, start: Instant, k: Slots, row: PlanLimits, n: nat, ttl: int, c: Call)
    requires Belong(w, c.org, start, k, row) && k.Apart() && InMonth(w, start, c.logAt) && ttl == TtlAt(w, c.flagAt)
    requires Counted(c) && Clear(m, k, row, n) && LimitReached(row.apiCallsPerMonth, n + 1)
    ensures FlagLeft(Tracker(w)(m, c).1, k, ttl, c.flagAt)
  {
    TracksInMonth(w, m, start, k, row, ttl, c);
    ClearCallLogged(m, k, row, w.ttlExpiration, n, ttl, c.logAt, c.flagAt);
  }

  lemma LapsedFlag(w: World, m: UsageStore, k: Slots, org: OrgId, t: Instant)
    requires k.flag == FlagKey(org) && FlagLeft(m, k, 1, t)
    ensures Tracker(w)(m, CallAt(org, t + 1000)).0 != LimitExceeded
  {}

  lemma TrackerFlagsForASecond(w: World, org: OrgId, start: Instant, k: Slots, row: PlanLimits, n: nat, t: Instant)
    requires Belong(w, org, start, k, row) && k.Apart() && InMonth(w, start, t) && TtlAt(w, t) == 1
    requires LimitReached(row.apiCallsPerMonth, n + 1)
    ensures FlagsForASecond(Tracker(w), k, row, n, org, t)
  {
    TrackerFlags(w, org, start, k, row, n, t);
    TrackerForgets(w, org, k, t);
  }

  lemma TrackerFlags(w: World, org: OrgId, start: Instant, k: Slots, row: PlanLimits, n: nat, t: Instant)
    requires Belong(w, org, start, k, row) && k.Apart() && InMonth(w, start, t) && TtlAt(w, t) == 1
    requires LimitReached(row.apiCallsPerMonth, n + 1)
    ensures Flags(Tracker(w), k, row, n, org, t)
  {
    forall m | Clear(m, k, row, n)
      ensures FlagLeft(Tracker(w)(m, CallAt(org, t)).1, k, 1, t)
    {
      FlaggingCall(w, m, start, k, row, n, 1, CallAt(org, t));
    }
  }

  lemma TrackerForgets(w: World, org: OrgId, k: Slots, t: Instant)
    requires k.flag == FlagKey(org)
    ensures Forgets(Tracker(w), k, org, t)
  {
    forall m | FlagLeft(m, k, 1, t)
      ensures Tracker(w)(m, CallAt(org, t + 1000)).0 != LimitExceeded
    {
      LapsedFlag(w, m, k, org, t);
    }
  }

  function Repeat(c: Call, n: nat): (calls: seq<Call>)
    ensures |calls| == n && forall d :: d in calls ==> d == c
  {
    if n == 0 then [] else Repeat(c, n - 1) + [c]
  }

  predicate AllAt(org: OrgId, t: Instant, calls: seq<Call>) {
    forall c :: c in calls ==> c == CallAt(org, t)
  }

  lemma SameCalls(org: OrgId, t: Instant, first: Instant, last: Instant, n0: nat, n: nat) returns (calls: seq<Call>)
    requires first <= t <= last
    ensures AllAt(org, t, calls) && AllBetween(org, first, last, calls)
    ensures |calls| == n && Successes(n0, calls) == n0 + n
  {
    calls := Repeat(CallAt(org, t), n);
    AllCounted(n0, calls);
  }

  /** Succeeding calls at t, one short of the ceiling. */
  lemma AlmostFull(server: Server, m: UsageStore, org: OrgId, start: Instant, last: Instant, k: Slots, row: PlanLimits,
                   n0: nat, t: Instant) returns (calls: seq<Call>)
    requires Meters(server, org, start, last, k, row, n0) && Clear(m, k, row, n0)
    requires row.apiCallsPerMonth != -1 && start <= t <= last
    ensures AllAt(org, t, calls) && n0 + |calls| == Ceiling(row.apiCallsPerMonth, n0) - 1
    ensures Clear(Serve(server, m, calls).1, k, row, n0 + |calls|)
  {
    calls := SameCalls(org, t, start, last, n0, Ceiling(row.apiCallsPerMonth, n0) - 1 - n0);
    MeteredRun(server, m, org, start, last, k, row, n0, calls);
  }

  lemma Full(server: Server, m: UsageStore, org: OrgId, start: Instant, last: Instant, k: Slots, row: PlanLimits,
             n0: nat, t: Instant) returns (calls: seq<Call>)
    requires Meters(server, org, start, last, k, row, n0) && Clear(m, k, row, n0)
    requires row.apiCallsPerMonth != -1 && start <= t <= last
    requires FlagsForASecond(server, k, row, Ceiling(row.apiCallsPerMonth, n0) - 1, org, t)
    ensures AllAt(org, t, calls) && n0 + |calls| == Ceiling(row.apiCallsPerMonth, n0)
    ensures FlagLeft(Serve(server, m, calls).1, k, 1, t)
  {
    var under := AlmostFull(server, m, org, start, last, k, row, n0, t);
    ServeSnoc(server, m, under, CallAt(org, t));
    calls := under + [CallAt(org, t)];
  }

  lemma Overrun(server: Server, m: UsageStore, org: OrgId, k: Slots, row: PlanLimits, n0: nat, t: Instant,
                full: seq<Call>)
    requires row.apiCallsPerMonth != -1 && n0 + |full| == Ceiling(row.apiCallsPerMonth, n0)
             && AllAt(org, t, full)
    requires FlagLeft(Serve(server, m, full).1, k, 1, t)
    requires FlagsForASecond(server, k, row, Ceiling(row.apiCallsPerMonth, n0) - 1, org, t)
    ensures !AsDeserved(server, m, row.apiCallsPerMonth, n0, full + [CallAt(org, t + 1000)])
  {
    AllCounted(n0, full);
    ServeSnoc(server, m, full, CallAt(org, t + 1000));
    NotDeserved(server, m, row.apiCallsPerMonth, n0, full, CallAt(org, t + 1000));
  }

  lemma OverrunFrom(server: Server, m: UsageStore, org: OrgId, start: Instant, last: Instant, k: Slots, row: PlanLimits,
                    n0: nat, t: Instant) returns (calls: seq<Call>)
    requires Meters(server, org, start, last, k, row, n0) && Clear(m, k, row, n0)
    requires row.apiCallsPerMonth != -1 && start <= t <= last
    requires FlagsForASecond(server, k, row, Ceiling(row.apiCallsPerMonth, n0) - 1, org, t)
    ensures AllBetween(org, start, t + 1000, calls) && !AsDeserved(server, m, row.apiCallsPerMonth, n0, calls)
  {
    var full := Full(server, m, org, start, last, k, row, n0, t);
    Overrun(server, m, org, k, row, n0, t, full);
    calls := full + [CallAt(org, t + 1000)];
  }

  lemma NotDeserved(server: Server, m: UsageStore, limit: int, n0: nat, calls: seq<Call>, late: Call)
    requires limit != -1 && late.tracked && Successes(n0, calls) >= Ceiling(limit, n0)
    requires Serve(server, m, calls + [late]).0[|calls|] != LimitExceeded
    ensures !AsDeserved(server, m, limit, n0, calls + [late])
  {
    var longer := calls + [late];
    assert longer[..|calls|] == calls && longer[|calls|] == late;
    assert Due(limit, n0)(Successes(n0, calls), late) == LimitExceeded;
  }

  /** One instant after the window, a run can serve a call too many. */
  lemma OverrunAfterWindow(w: World, m: UsageStore, org: OrgId, start: Instant, k: Slots, row: PlanLimits, n0: nat)
    returns (calls: seq<Call>)
    requires ColonFree(org) && Belong(w, org, start, k, row) && Clear(m, k, row, n0)
    requires row.apiCallsPerMonth != -1 && start <= WindowEnd(w, start) - 999
    ensures AllBetween(org, start, WindowEnd(w, start) + 1, calls)
    ensures !AsDeserved(Tracker(w), m, row.apiCallsPerMonth, n0, calls)
  {
    var t := WindowEnd(w, start) - 999;
    MonthFacts(w, start, t);
    SlotsApart(w, org, start, k, row);
    TrackerMeters(w, org, start, k, row, n0);
    TrackerFlagsForASecond(w, org, start, k, row, Ceiling(row.apiCallsPerMonth, n0) - 1, t);
    calls := OverrunFrom(Tracker(w), m, org, start, WindowEnd(w, start), k, row, n0, t);
  }

  /** The window is exact: up to an instant within it every run is as deserved, and up to any
      later instant some run is not. */
  lemma WindowIsExact(w: World, m: UsageStore, org: OrgId, start: Instant, k: Slots, row: PlanLimits, n0: nat,
                      until: Instant)
    requires ColonFree(org) && Belong(w, org, start, k, row) && Clear(m, k, row, n0)
    requires row.apiCallsPerMonth != -1 && start <= WindowEnd(w, start) - 999
    ensures (forall calls :: AllBetween(org, start, until, calls) ==>
               AsDeserved(Tracker(w), m, row.apiCallsPerMonth, n0, calls))
            <==> until <= WindowEnd(w, start)
  {
    if until <= WindowEnd(w, start) {
      forall calls | AllBetween(org, start, until, calls)
        ensures AsDeserved(Tracker(w), m, row.apiCallsPerMonth, n0, calls)
      {
        SequentialAdmission(w, m, org, start, k, row, n0, calls);
      }
    } else {
      var calls := OverrunAfterWindow(w, m, org, start, k, row, n0);
      assert AllBetween(org, start, until, calls);
    }
  }
}
