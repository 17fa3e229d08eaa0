/** Plans whose stored limit is -1: nothing is ever refused, at any instant and in any month. */
module UsageUnlimited {
  import opened Wrappers
  import opened Ttl
  import opened Keys
  import opened RedisServer
  import opened Usage
  import opened UsageRace
  import opened Runs

  /** The organization's counter key in the period of an instant. */
  function CounterKey(w: World, org: OrgId, t: Instant): string {
    UsageKey(org, API_CALLS, Period(t, w.offset))
  }

  /** No flag is up, a cached plan is the organization's, and its counters are numbers. */
  ghost predicate Open(w: World, m: UsageStore, org: OrgId, row: PlanLimits) {
    && FlagKey(org) !in m
    && (PlanKey(org) in m && m[PlanKey(org)].value.Json? ==> m[PlanKey(org)].value.doc == row)
    && forall t :: CounterKey(w, org, t) in m ==> m[CounterKey(w, org, t)].value.Num?
  }

  /** Writes to keys of other organizations. */
  lemma OthersKeepOpen(w: World, m: UsageStore, m': UsageStore, org: OrgId, row: PlanLimits, other: OrgId, at: Instant)
    requires ColonFree(org) && ColonFree(other) && org != other && Open(w, m, org, row)
    requires SameElsewhere(m', m, SlotsOf(other, Period(at, w.offset)))
    ensures Open(w, m', org, row)
  {
    var k := SlotsOf(other, Period(at, w.offset));
    PeriodColonFree(at, w.offset);
    KeysDistinct(org, other, Period(at, w.offset));
    KeysDistinct(other, org, Period(at, w.offset));
    assert SameAt(m', m, FlagKey(org)) && SameAt(m', m, PlanKey(org));
    forall t | CounterKey(w, org, t) in m'
      ensures m'[CounterKey(w, org, t)].value.Num?
    {
      CountersApart(org, other, Period(t, w.offset), Period(at, w.offset), t, at, w.offset);
      assert SameAt(m', m, CounterKey(w, org, t));
    }
  }

  lemma CountersApart(a: OrgId, b: OrgId, p: string, q: string, t: Instant, at: Instant, offset: int)
    requires ColonFree(a) && ColonFree(b) && a != b && p == Period(t, offset) && q == Period(at, offset)
    ensures var j := SlotsOf(b, q); UsageKey(a, API_CALLS, p) !in {j.counter, j.flag, j.plan}
  {
    PeriodColonFree(t, offset);
    PeriodColonFree(at, offset);
    UsageKeyParts(a, API_CALLS, p);
    UsageKeyParts(b, API_CALLS, q);
    KeysDistinct(a, b, p);
    assert Split(UsageKey(a, API_CALLS, p))[1] == a && Split(UsageKey(b, API_CALLS, q))[1] == b;
  }

  /** A write to the organization's own counter or plan that keeps them what they are. */
  lemma OwnKeepOpen(w: World, m: UsageStore, m': UsageStore, org: OrgId, row: PlanLimits, at: Instant)
    requires ColonFree(org) && Open(w, m, org, row) && SameElsewhere(m', m, SlotsOf(org, Period(at, w.offset)))
    requires FlagKey(org) !in m'
    requires PlanKey(org) in m' && m'[PlanKey(org)].value.Json? ==> m'[PlanKey(org)].value.doc == row
    requires CounterKey(w, org, at) in m' ==> m'[CounterKey(w, org, at)].value.Num?
    ensures Open(w, m', org, row)
  {
    forall t | CounterKey(w, org, t) in m'
      ensures m'[CounterKey(w, org, t)].value.Num?
    {
      PeriodColonFree(t, w.offset);
      KeysDistinct(org, org, Period(t, w.offset));
      if CounterKey(w, org, t) != CounterKey(w, org, at) { assert SameAt(m', m, CounterKey(w, org, t)); }
    }
  }

  // ---- One request at a time ----

  /** One succeeding call, over the organization's slots: it is counted, and the flag stays down. */
  lemma OpenCallLogged(m: UsageStore, k: Slots, row: PlanLimits, ttlExpiration: nat, ttl: int, now: Instant,
                       flagAt: Instant)
    requires k.Apart() && k.flag !in m && row.apiCallsPerMonth == -1
    requires k.plan in m && m[k.plan].value.Json? ==> m[k.plan].value.doc == row
    requires k.counter in m ==> m[k.counter].value.Num?
    ensures var (r, m') := LogAt(m, k, Some(row), ttlExpiration, ttl, now, flagAt);
            && r == Ok(()) && k.flag !in m' && k.counter in m' && m'[k.counter].value.Num?
            && (k.plan in m' && m'[k.plan].value.Json? ==> m'[k.plan].value.doc == row)
  {
    assert IncrCell(m, k.counter, now).Ok?;
  }

  /** The answers an organization without a limit may get. */
  predicate MayAnswer(org: OrgId, c: Call, v: Verdict) {
    c.org == org ==> v == if !c.tracked then Untracked else if c.handlerOk then Served else HandlerFailed
  }

  lemma OpenCall(w: World, m: UsageStore, org: OrgId, row: PlanLimits, c: Call)
    requires ColonFree(org) && RowOf(w, org) == Some(row) && row.apiCallsPerMonth == -1 && Open(w, m, org, row)
    requires c.org == org
    ensures MayAnswer(org, c, Track(w, m, c).0) && Open(w, Track(w, m, c).1, org, row)
  {
    if c.tracked && c.handlerOk {
      var k, ttl := SlotsOf(org, Period(c.logAt, w.offset)), TtlAt(w, c.flagAt);
      SlotsApart(w, org, c.logAt, k, row);
      assert k.counter == CounterKey(w, org, c.logAt);
      OpenCallLogged(m, k, row, w.ttlExpiration, ttl, c.logAt, c.flagAt);
      LogsOwnKeys(m, k, row, w.ttlExpiration, ttl, c.logAt, c.flagAt);
      OwnKeepOpen(w, m, LogAt(m, k, Some(row), w.ttlExpiration, ttl, c.logAt, c.flagAt).1, org, row, c.logAt);
      OpenTrack(w, m, org, k, row, ttl, c);
    }
  }

  lemma OpenTrack(w: World, m: UsageStore, org: OrgId, k: Slots, row: PlanLimits, ttl: int, c: Call)
    requires c.org == org && c.tracked && c.handlerOk && FlagKey(org) !in m && RowOf(w, org) == Some(row)
    requires k == SlotsOf(org, Period(c.logAt, w.offset)) && ttl == TtlAt(w, c.flagAt)
    requires LogAt(m, k, Some(row), w.ttlExpiration, ttl, c.logAt, c.flagAt).0.Ok?
    ensures Track(w, m, c) == (Served, LogAt(m, k, Some(row), w.ttlExpiration, ttl, c.logAt, c.flagAt).1)
  {}

  /** A call of any organization, known or not, writes its own keys only. */
  lemma TrackWritesOwnKeys(w: World, m: UsageStore, c: Call)
    ensures SameElsewhere(Track(w, m, c).1, m, SlotsOf(c.org, Period(c.logAt, w.offset)))
  {}

  lemma AnyCallKeepsOpen(w: World, m: UsageStore, org: OrgId, row: PlanLimits, c: Call)
    requires ColonFree(org) && RowOf(w, org) == Some(row) && row.apiCallsPerMonth == -1 && Open(w, m, org, row)
    requires ColonFree(c.org)
    ensures MayAnswer(org, c, Track(w, m, c).0) && Open(w, Track(w, m, c).1, org, row)
  {
    if c.org == org {
      OpenCall(w, m, org, row, c);
    } else {
      TrackWritesOwnKeys(w, m, c);
      OthersKeepOpen(w, m, Track(w, m, c).1, org, row, c.org, c.logAt);
    }
  }

  ghost function OpenBy(w: World, org: OrgId, row: PlanLimits): UsageStore -> bool {
    m => Open(w, m, org, row)
  }

  function MayBy(org: OrgId): (Call, Verdict) -> bool {
    (c, v) => MayAnswer(org, c, v)
  }

  lemma CallsKeepOpen(w: World, org: OrgId, row: PlanLimits, calls: seq<Call>)
    requires ColonFree(org) && RowOf(w, org) == Some(row) && row.apiCallsPerMonth == -1
    requires forall c :: c in calls ==> ColonFree(c.org)
    ensures forall m, c :: c in calls && OpenBy(w, org, row)(m) ==>
              MayBy(org)(c, Tracker(w)(m, c).0) && OpenBy(w, org, row)(Tracker(w)(m, c).1)
  {
    forall m, c | c in calls && OpenBy(w, org, row)(m)
      ensures MayBy(org)(c, Tracker(w)(m, c).0) && OpenBy(w, org, row)(Tracker(w)(m, c).1)
    {
      AnyCallKeepsOpen(w, m, org, row, c);
    }
  }

  /** With a stored limit of -1 and no flag up at the start: among calls of any organizations, at any
      instants of any months, every tracked succeeding call is served, and the flag key is never
      written. */
  lemma UnlimitedServed(w: World, m: UsageStore, org: OrgId, row: PlanLimits, calls: seq<Call>)
    requires ColonFree(org) && RowOf(w, org) == Some(row) && row.apiCallsPerMonth == -1 && Open(w, m, org, row)
    requires forall c :: c in calls ==> ColonFree(c.org)
    ensures forall i :: 0 <= i < |calls| && calls[i].org == org && calls[i].tracked && calls[i].handlerOk ==>
              Serve(Tracker(w), m, calls).0[i] == Served
    ensures forall i :: 0 <= i < |calls| && calls[i].org == org ==> Serve(Tracker(w), m, calls).0[i] != LimitExceeded
    ensures FlagKey(org) !in Serve(Tracker(w), m, calls).1
  {
    CallsKeepOpen(w, org, row, calls);
    assert OpenBy(w, org, row)(m);
    ServeAlways(Tracker(w), OpenBy(w, org, row), MayBy(org), m, calls);
    MayMeansServed(org, calls, Serve(Tracker(w), m, calls).0);
  }

  lemma MayMeansServed(org: OrgId, calls: seq<Call>, vs: seq<Verdict>)
    requires |vs| == |calls| && forall i :: 0 <= i < |calls| ==> MayBy(org)(calls[i], vs[i])
    ensures forall i :: 0 <= i < |calls| && calls[i].org == org && calls[i].tracked && calls[i].handlerOk ==>
            vs[i] == Served
    ensures forall i :: 0 <= i < |calls| && calls[i].org == org ==> vs[i] != LimitExceeded
  {
    assert forall i :: 0 <= i < |calls| ==> MayAnswer(org, calls[i], vs[i]);
  }

  // ---- Interleaved ----

  ghost predicate OpenRace(x: Setting, s: State, org: OrgId, row: PlanLimits) {
    && Open(x.w, s.store, org, row)
    && (forall id :: id in s.tasks ==> ColonFree(s.tasks[id].org))
    && forall id :: id in s.tasks && s.tasks[id].org == org ==> Knows(s.tasks[id], row)
  }

  lemma WroteOwnKeys(m: UsageStore, t: Task, e: Event, k: Slots, ttlExpiration: nat, ttl: int)
    requires Expects(t, e)
    ensures SameElsewhere(Wrote(m, t, e, k, ttlExpiration, ttl), m, k)
  {}

  lemma OwnWriteOpen(m: UsageStore, t: Task, e: Event, k: Slots, ttlExpiration: nat, ttl: int, row: PlanLimits)
    requires Expects(t, e) && Knows(t, row) && row.apiCallsPerMonth == -1 && k.Apart() && k.flag !in m
    requires k.plan in m && m[k.plan].value.Json? ==> m[k.plan].value.doc == row
    requires k.counter in m ==> m[k.counter].value.Num?
    ensures var m' := Wrote(m, t, e, k, ttlExpiration, ttl);
            && k.flag !in m' && (k.counter in m' ==> m'[k.counter].value.Num?)
            && (k.plan in m' && m'[k.plan].value.Json? ==> m'[k.plan].value.doc == row)
    ensures e.Increment? ==> Next(m, t, e, k, Some(row)).Some?
    ensures Next(m, t, e, k, Some(row)).Some? ==> Knows(Next(m, t, e, k, Some(row)).value, row)
  {}

  lemma RaceStep(x: Setting, s: State, e: Event, org: OrgId, row: PlanLimits)
    requires ColonFree(org) && RowOf(x.w, org) == Some(row) && row.apiCallsPerMonth == -1
    requires OpenRace(x, s, org, row) && Enabled(x, s, e)
    ensures OpenRace(x, Apply(x, s, e), org, row)
    ensures e.Increment? && s.tasks[e.id].org == org ==> e.id in Apply(x, s, e).tasks
  {
    if !e.Arrive? {
      var t := s.tasks[e.id];
      var k := x.SlotsAt(t.org, e.now);
      var m' := Wrote(s.store, t, e, k, x.w.ttlExpiration, TtlAt(x.w, e.now));
      WroteOwnKeys(s.store, t, e, k, x.w.ttlExpiration, TtlAt(x.w, e.now));
      SameOrg(s.store, t, e, k, RowOf(x.w, t.org));
      if t.org == org {
        SlotsApart(x.w, org, e.now, k, row);
        assert k.counter == CounterKey(x.w, org, e.now);
        OwnWriteOpen(s.store, t, e, k, x.w.ttlExpiration, TtlAt(x.w, e.now), row);
        OwnKeepOpen(x.w, s.store, m', org, row, e.now);
      } else {
        OthersKeepOpen(x.w, s.store, m', org, row, t.org, e.now);
      }
    }
  }

  /** With a stored limit of -1 and no flag up at the start: under every interleaving, over any
      stretch of time, the flag key is never written, no request of the organization is refused, and
      every one whose handler succeeds is counted. */
  lemma UnlimitedNeverRefused(x: Setting, org: OrgId, row: PlanLimits, m: UsageStore, evs: seq<Event>)
    requires ColonFree(org) && RowOf(x.w, org) == Some(row) && row.apiCallsPerMonth == -1 && Open(x.w, m, org, row)
    requires Legal(Traffic(x), State(m, map[]), evs)
    ensures var s := After(Traffic(x), State(m, map[]), evs);
            && FlagKey(org) !in s.store
            && (forall now :: !Flagged(s.store, org, now))
            && forall e: Event :: Enabled(x, s, e) && e.Increment? && s.tasks[e.id].org == org ==>
               e.id in Apply(x, s, e).tasks
  {
    forall t, f | OpenRace(x, t, org, row) && Enabled(x, t, f)
      ensures OpenRace(x, Apply(x, t, f), org, row)
    {
      RaceStep(x, t, f, org, row);
    }
    Invariant(Traffic(x), t => OpenRace(x, t, org, row), State(m, map[]), evs);
    var s := After(Traffic(x), State(m, map[]), evs);
    forall e: Event | Enabled(x, s, e) && e.Increment? && s.tasks[e.id].org == org
      ensures e.id in Apply(x, s, e).tasks
    {
      RaceStep(x, s, e, org, row);
    }
  }
}
