/** Whether a refused request deserved it: the flag says that the limit of this period is used up,
    but it is raised some awaits after the period was named. */
module UsageRefusal {
  import opened Wrappers
  import opened Ttl
  import opened Keys
  import opened RedisServer
  import opened Usage
  import opened UsageRace
  import opened Runs
  import Calendar

  /** This request is refused. */
  predicate Refuses(x: Setting, s: State, e: Event) {
    Enabled(x, s, e) && e.Arrive? && Flagged(s.store, e.org, e.now)
  }

  /** Its organization has used up the limit in the period it arrives in. */
  predicate UsedUp(x: Setting, s: State, row: PlanLimits, e: Event)
    requires e.Arrive?
  {
    LimitReached(row.apiCallsPerMonth, Counter(s.store, x.SlotsAt(e.org, e.now)))
  }

  // ---- Inside one month ----

  predicate StoreFair(m: UsageStore, k: Slots, row: PlanLimits, n: nat) {
    PlanFits(m, k, row) && CountAt(m, k, n) && (k.flag in m ==> LimitReached(row.apiCallsPerMonth, n))
  }

  /** No request carries a count that the counter has not reached. */
  predicate TasksFair(tasks: Tasks, org: OrgId, row: PlanLimits, n: nat) {
    && (forall id :: id in tasks ==> ColonFree(tasks[id].org))
    && forall id :: id in tasks && tasks[id].org == org ==>
         Knows(tasks[id], row) && (!tasks[id].Handling? ==> tasks[id].count <= n)
  }

  ghost predicate Fair(s: State, org: OrgId, k: Slots, row: PlanLimits) {
    exists n: nat :: StoreFair(s.store, k, row, n) && TasksFair(s.tasks, org, row, n)
  }

  /** All steps fall into start's month. */
  predicate InOneMonth(x: Setting, org: OrgId, k: Slots, row: PlanLimits) {
    ColonFree(org) && Belong(x.w, org, x.start, k, row) && x.until <= MonthEnd(x.w, x.start) + 999
  }

  lemma SlotsKept(x: Setting, org: OrgId, k: Slots, row: PlanLimits, now: Instant)
    requires InOneMonth(x, org, k, row) && x.At(now)
    ensures Period(now, x.w.offset) == Period(x.start, x.w.offset) && k == x.SlotsAt(org, now) && k.Apart()
  {
    MonthFacts(x.w, x.start, now);
    SlotsApart(x.w, org, x.start, k, row);
  }

  lemma OthersWriteFair(m: UsageStore, t: Task, e: Event, j: Slots, ttlExpiration: nat, ttl: int, k: Slots,
                        row: PlanLimits, n: nat)
    requires Expects(t, e) && Disjoint(k, j) && StoreFair(m, k, row, n)
    ensures StoreFair(Wrote(m, t, e, j, ttlExpiration, ttl), k, row, n)
  {}

  lemma OwnWriteFair(m: UsageStore, t: Task, e: Event, k: Slots, ttlExpiration: nat, ttl: int, row: PlanLimits, n: nat)
    requires Expects(t, e) && k.Apart() && StoreFair(m, k, row, n) && Knows(t, row) && (!t.Handling? ==> t.count <= n)
    ensures StoreFair(Wrote(m, t, e, k, ttlExpiration, ttl), k, row, if e.Increment? then n + 1 else n)
  {}

  lemma OwnNextFair(m: UsageStore, t: Task, e: Event, k: Slots, row: PlanLimits, n: nat)
    requires Expects(t, e) && StoreFair(m, k, row, n) && Knows(t, row) && (!t.Handling? ==> t.count <= n)
    ensures var next := Next(m, t, e, k, Some(row));
            next.Some? ==> Knows(next.value, row) && !next.value.Handling?
                           && next.value.count <= if e.Increment? then n + 1 else n
  {}

  lemma ArriveFair(x: Setting, s: State, e: Event, org: OrgId, k: Slots, row: PlanLimits, n: nat)
    requires StoreFair(s.store, k, row, n) && TasksFair(s.tasks, org, row, n) && Enabled(x, s, e) && e.Arrive?
    ensures Fair(Apply(x, s, e), org, k, row)
  {
    assert StoreFair(Apply(x, s, e).store, k, row, n) && TasksFair(Apply(x, s, e).tasks, org, row, n);
  }

  lemma OtherFair(x: Setting, s: State, e: Event, org: OrgId, k: Slots, row: PlanLimits, n: nat)
    requires InOneMonth(x, org, k, row) && StoreFair(s.store, k, row, n) && TasksFair(s.tasks, org, row, n)
    requires Enabled(x, s, e) && !e.Arrive? && s.tasks[e.id].org != org
    ensures Fair(Apply(x, s, e), org, k, row)
  {
    var t := s.tasks[e.id];
    var j := x.SlotsAt(t.org, e.now);
    SlotsKept(x, org, k, row, e.now);
    OrganizationsDisjoint(x, org, x.start, t.org, e.now);
    OthersWriteFair(s.store, t, e, j, x.w.ttlExpiration, TtlAt(x.w, e.now), k, row, n);
    SameOrg(s.store, t, e, j, RowOf(x.w, t.org));
    assert TasksFair(Apply(x, s, e).tasks, org, row, n);
  }

  lemma OwnFair(x: Setting, s: State, e: Event, org: OrgId, k: Slots, row: PlanLimits, n: nat)
    requires InOneMonth(x, org, k, row) && StoreFair(s.store, k, row, n) && TasksFair(s.tasks, org, row, n)
    requires Enabled(x, s, e) && !e.Arrive? && s.tasks[e.id].org == org
    ensures Fair(Apply(x, s, e), org, k, row)
  {
    var t := s.tasks[e.id];
    SlotsKept(x, org, k, row, e.now);
    OwnWriteFair(s.store, t, e, k, x.w.ttlExpiration, TtlAt(x.w, e.now), row, n);
    OwnNextFair(s.store, t, e, k, row, n);
    SameOrg(s.store, t, e, k, Some(row));
    assert TasksFair(Apply(x, s, e).tasks, org, row, if e.Increment? then n + 1 else n);
  }

  lemma FairKept(x: Setting, s: State, e: Event, org: OrgId, k: Slots, row: PlanLimits)
    requires InOneMonth(x, org, k, row) && Fair(s, org, k, row) && Enabled(x, s, e)
    ensures Fair(Apply(x, s, e), org, k, row)
  {
    var n: nat :| StoreFair(s.store, k, row, n) && TasksFair(s.tasks, org, row, n);
    if e.Arrive? {
      ArriveFair(x, s, e, org, k, row, n);
    } else if s.tasks[e.id].org != org {
      OtherFair(x, s, e, org, k, row, n);
    } else {
      OwnFair(x, s, e, org, k, row, n);
    }
  }

  lemma FairRefusal(x: Setting, s: State, e: Event, k: Slots, row: PlanLimits)
    requires e.Arrive? && InOneMonth(x, e.org, k, row) && Fair(s, e.org, k, row) && Refuses(x, s, e)
    ensures UsedUp(x, s, row, e)
  {
    var n: nat :| StoreFair(s.store, k, row, n) && TasksFair(s.tasks, e.org, row, n);
    SlotsKept(x, e.org, k, row, e.now);
    assert Counter(s.store, k) == n;
  }

  /** Under every interleaving inside one month, its last second included, a request is refused only
      if the limit of its period has been counted. */
  lemma RefusedOnlyAtLimit(x: Setting, k: Slots, row: PlanLimits, n0: nat, m: UsageStore, evs: seq<Event>, e: Event)
    requires e.Arrive? && InOneMonth(x, e.org, k, row) && StoreFair(m, k, row, n0)
    requires Legal(Traffic(x), State(m, map[]), evs) && Refuses(x, After(Traffic(x), State(m, map[]), evs), e)
    ensures UsedUp(x, After(Traffic(x), State(m, map[]), evs), row, e)
  {
    assert TasksFair(map[], e.org, row, n0);
    forall s, f | Fair(s, e.org, k, row) && Enabled(x, s, f)
      ensures Fair(Apply(x, s, f), e.org, k, row)
    {
      FairKept(x, s, f, e.org, k, row);
    }
    Invariant(Traffic(x), s => Fair(s, e.org, k, row), State(m, map[]), evs);
    FairRefusal(x, After(Traffic(x), State(m, map[]), evs), e, k, row);
  }

  // ---- Across midnight ----

  /** The first instant of the next month. */
  function NextMonth(w: World, start: Instant): Instant {
    MonthEnd(w, start) + 1000
  }

  lemma CountersDiffer(org: OrgId, p: string, q: string)
    requires ColonFree(org) && ColonFree(p) && ColonFree(q) && p != q
    ensures var k, j := SlotsOf(org, p), SlotsOf(org, q);
            j.counter != k.counter && j.counter != k.flag && j.counter != k.plan
  {
    UsageKeyParts(org, API_CALLS, p);
    UsageKeyParts(org, API_CALLS, q);
    KeysDistinct(org, org, q);
    assert Split(UsageKey(org, API_CALLS, p))[3] == p && Split(UsageKey(org, API_CALLS, q))[3] == q;
  }

  lemma FlagUp(m: UsageStore, k: Slots, org: OrgId, ttl: int, t: Instant)
    requires k.flag == FlagKey(org) && FlagLeft(m, k, ttl, t) && ttl >= 1
    ensures Flagged(m, org, t)
  {}

  /** A request is counted at `now` and reaches the limit, and comes to setting the flag only at t. */
  lemma FlaggedLater(x: Setting, org: OrgId, k: Slots, row: PlanLimits, n0: nat, m: UsageStore, now: Instant,
                     t: Instant, ttl: int) returns (evs: seq<Event>, m': UsageStore)
    requires x.cap >= 1 && ColonFree(org) && x.At(now) && x.At(t) && k == x.SlotsAt(org, now) && k.Apart()
    requires RowOf(x.w, org) == Some(row) && Clear(m, k, row, n0) && row.apiCallsPerMonth != -1
    requires ttl == TtlAt(x.w, t) && ttl >= 1
    ensures Leads(Traffic(x), State(m, map[]), evs, State(m', map[])) && SameElsewhere(m', m, k) && Flagged(m', org, t)
  {
    var n := Ceiling(row.apiCallsPerMonth, n0) - 1;
    var a, m1 := SerialRequests(x, m, org, k, row, n0, now);
    var b := AloneIsLogged(x, m1, org, k, row, n, now, t);
    m' := LogAt(m1, k, Some(row), x.w.ttlExpiration, ttl, now, t).1;
    LoggedLater(m1, m, org, k, row, x.w.ttlExpiration, n, ttl, now, t);
    LeadOn(Traffic(x), State(m, map[]), a, State(m1, map[]), b, State(m', map[]));
    evs := a + b;
  }

  lemma LoggedLater(m1: UsageStore, m: UsageStore, org: OrgId, k: Slots, row: PlanLimits, ttlExpiration: nat, n: nat,
                    ttl: int, now: Instant, t: Instant)
    requires k.Apart() && Clear(m1, k, row, n) && LimitReached(row.apiCallsPerMonth, n + 1) && ttl >= 1
    requires k.flag == FlagKey(org) && SameElsewhere(m1, m, k)
    ensures var m' := LogAt(m1, k, Some(row), ttlExpiration, ttl, now, t).1;
            SameElsewhere(m', m, k) && Flagged(m', org, t)
  {
    var m' := LogAt(m1, k, Some(row), ttlExpiration, ttl, now, t).1;
    ClearCallLogged(m1, k, row, ttlExpiration, n, ttl, now, t);
    LogsOwnKeys(m1, k, row, ttlExpiration, ttl, now, t);
    ElsewhereJoin(m', m1, m, k);
    FlagUp(m', k, org, ttl, t);
  }

  /** In every run each refusal of this organization is deserved. */
  ghost predicate AllDeserved(x: Setting, m: UsageStore, org: OrgId, row: PlanLimits) {
    forall evs, e: Event :: e.Arrive? && e.org == org && Legal(Traffic(x), State(m, map[]), evs)
                     && Refuses(x, After(Traffic(x), State(m, map[]), evs), e)
      ==> UsedUp(x, After(Traffic(x), State(m, map[]), evs), row, e)
  }

  lemma Undeserved(x: Setting, org: OrgId, row: PlanLimits, j: Slots, m: UsageStore, t: Instant)
    requires x.cap >= 1 && ColonFree(org) && x.At(t) && j == x.SlotsAt(org, t) && j.counter !in m && Flagged(m, org, t)
    requires row.apiCallsPerMonth >= 1
    ensures var s, e := State(m, map[]), Arrive(0, t, org);
            Refuses(x, s, e) && Counter(s.store, x.SlotsAt(org, e.now)) == 0 && !UsedUp(x, s, row, e)
  {
    assert TasksOf(map[], org) == {};
  }

  /** The limit is reached before midnight and the flag set at the first instant of the next month:
      from then on requests are refused with nothing counted in their period. */
  lemma UndeservedRefusal(x: Setting, org: OrgId, k: Slots, j: Slots, row: PlanLimits, n0: nat, m: UsageStore,
                          t: Instant)
    returns (evs: seq<Event>, e: Event)
    requires x.cap >= 1 && ColonFree(org) && Belong(x.w, org, x.start, k, row) && k.Apart()
    requires x.start <= t <= x.until && TtlAt(x.w, t) >= 1 && Clear(m, k, row, n0) && row.apiCallsPerMonth >= 1
    requires j == x.SlotsAt(org, t) && j.counter !in m
    requires j.counter != k.counter && j.counter != k.flag && j.counter != k.plan
    ensures e.Arrive? && e.org == org && Legal(Traffic(x), State(m, map[]), evs)
    ensures var s := After(Traffic(x), State(m, map[]), evs);
            Refuses(x, s, e) && Counter(s.store, x.SlotsAt(org, e.now)) == 0 && !UsedUp(x, s, row, e)
  {
    var m';
    evs, m' := FlaggedLater(x, org, k, row, n0, m, x.start, t, TtlAt(x.w, t));
    e := Arrive(0, t, org);
    assert SameAt(m', m, j.counter);
    Undeserved(x, org, row, j, m', t);
  }

  /** So every refusal is deserved, whatever the run, exactly when no step comes after the month. */
  lemma AllDeservedIff(x: Setting, org: OrgId, k: Slots, j: Slots, row: PlanLimits, n0: nat, m: UsageStore)
    requires x.cap >= 1 && ColonFree(org) && Belong(x.w, org, x.start, k, row)
    requires Clear(m, k, row, n0) && row.apiCallsPerMonth >= 1
    requires Calendar.LocalMonth(x.start, x.w.offset).year >= 1
    requires Calendar.LocalMonth(NextMonth(x.w, x.start), x.w.offset).year >= 1
    requires j == x.SlotsAt(org, NextMonth(x.w, x.start)) && j.counter !in m
    ensures AllDeserved(x, m, org, row) <==> x.until < NextMonth(x.w, x.start)
  {
    if x.until < NextMonth(x.w, x.start) {
      AllDeservedInMonth(x, org, k, row, n0, m);
    } else {
      MidnightFacts(x, org, k, j, row);
      var evs, e := UndeservedRefusal(x, org, k, j, row, n0, m, NextMonth(x.w, x.start));
    }
  }

  lemma AllDeservedInMonth(x: Setting, org: OrgId, k: Slots, row: PlanLimits, n0: nat, m: UsageStore)
    requires InOneMonth(x, org, k, row) && Clear(m, k, row, n0)
    ensures AllDeserved(x, m, org, row)
  {
    forall evs, e: Event | e.Arrive? && e.org == org && Legal(Traffic(x), State(m, map[]), evs)
                           && Refuses(x, After(Traffic(x), State(m, map[]), evs), e)
      ensures UsedUp(x, After(Traffic(x), State(m, map[]), evs), row, e)
    {
      RefusedOnlyAtLimit(x, k, row, n0, m, evs, e);
    }
  }

  lemma MidnightFacts(x: Setting, org: OrgId, k: Slots, j: Slots, row: PlanLimits)
    requires ColonFree(org) && Belong(x.w, org, x.start, k, row) && j == x.SlotsAt(org, NextMonth(x.w, x.start))
    requires Calendar.LocalMonth(x.start, x.w.offset).year >= 1
    requires Calendar.LocalMonth(NextMonth(x.w, x.start), x.w.offset).year >= 1
    ensures k.Apart() && j.counter != k.counter && j.counter != k.flag && j.counter != k.plan
    ensures x.start <= NextMonth(x.w, x.start) && TtlAt(x.w, NextMonth(x.w, x.start)) >= 1
  {
    SlotsApart(x.w, org, x.start, k, row);
    MidnightComes(x.w, x.start);
    Calendar.NextMonthIsAnother(x.start, x.w.offset);
    MonthsHaveSlots(org, Calendar.LocalMonth(x.start, x.w.offset),
                    Calendar.LocalMonth(NextMonth(x.w, x.start), x.w.offset), k, j);
  }

  lemma MidnightComes(w: World, start: Instant)
    ensures start <= NextMonth(w, start) && TtlAt(w, NextMonth(w, start)) >= 1
  {
    Calendar.MonthHasAnEnd(start, w.offset);
    Calendar.NextMonthTtl(start, w.offset);
  }

  lemma MonthsHaveSlots(org: OrgId, p: Calendar.YearMonth, q: Calendar.YearMonth, k: Slots, j: Slots)
    requires p != q && p.year >= 1 && q.year >= 1 && 0 <= p.month <= 11 && 0 <= q.month <= 11 && ColonFree(org)
    requires k == SlotsOf(org, Calendar.FormatYYMM(p)) && j == SlotsOf(org, Calendar.FormatYYMM(q))
    ensures j.counter != k.counter && j.counter != k.flag && j.counter != k.plan
  {
    Calendar.NamesDiffer(p, q);
    MonthNameColonFree(p);
    MonthNameColonFree(q);
    CountersDiffer(org, Calendar.FormatYYMM(p), Calendar.FormatYYMM(q));
  }
}
