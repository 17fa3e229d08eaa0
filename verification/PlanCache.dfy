/** The cached plan limits against plan switches: how stale `getPlanLimit` can be. */
module PlanCache {
  import opened Wrappers
  import opened Ttl
  import opened RedisServer
  import opened Usage
  import opened Runs

  /** From this instant on, until the next entry, the organization was on this plan. */
  datatype Tenure = Tenure(since: Instant, plan: PlanLimits)

  datatype State = State(store: UsageStore, tenures: seq<Tenure>, now: Instant)

  datatype Event =
    | Switch(plan: PlanLimits, at: Instant)
    | Lookup(at: Instant)
    | Evict                                       // Redis may drop the entry at any time
    | Elsewhere(key: string, cell: Option<Cell<Value<PlanLimits>>>)  // writes to any other key

  /** The organization under observation, its row's current plan, and the cache TTL. */
  function WorldOf(org: OrgId, ttl: nat, s: State): World
    requires s.tenures != []
  {
    World(map[org := s.tenures[|s.tenures| - 1].plan], ttl, 0)
  }

  predicate Enabled(org: OrgId, s: State, e: Event) {
    s.tenures != [] &&
    match e
    case Switch(_, at) => s.now <= at
    case Lookup(at) => s.now <= at
    case Evict => true
    case Elsewhere(key, _) => key != PlanKey(org)
  }

  function Answer(org: OrgId, ttl: nat, s: State, at: Instant): Result<PlanLimits, UsageError>
    requires s.tenures != []
  {
    LookupPlan(WorldOf(org, ttl, s), s.store, org, at).0
  }

  function Apply(org: OrgId, ttl: nat, s: State, e: Event): State {
    if !Enabled(org, s, e) then s else
    match e
    case Switch(plan, at) => State(s.store, s.tenures + [Tenure(at, plan)], at)
    case Lookup(at) => State(LookupPlan(WorldOf(org, ttl, s), s.store, org, at).1, s.tenures, at)
    case Evict => s.(store := Del(s.store, PlanKey(org)))
    case Elsewhere(key, cell) =>
      s.(store := if cell.Some? then s.store[key := cell.value] else Del(s.store, key))
  }

  /** What Redis does on its own: it loses the organization's document, and other keys change. */
  lemma OthersChange(org: OrgId, ttl: nat, s: State, key: string, cell: Option<Cell<Value<PlanLimits>>>)
    requires s.tenures != []
    ensures Apply(org, ttl, s, Evict) == s.(store := s.store - {PlanKey(org)})
    ensures key != PlanKey(org) ==>
              Get(Apply(org, ttl, s, Elsewhere(key, cell)).store, key, s.now)
                == if cell.Some? && Unexpired(cell.value, s.now) then Some(cell.value.value) else None
  {}

  /** The organization was on plan p at instant t (at a switch, on both plans). */
  ghost predicate HeldAt(tenures: seq<Tenure>, p: PlanLimits, t: Instant) {
    exists i :: 0 <= i < |tenures| && tenures[i].plan == p && tenures[i].since <= t
                && (i + 1 < |tenures| ==> t <= tenures[i + 1].since)
  }

  /** A cached document is the plan that was in force when it was read, `ttl` before it expires. */
  ghost predicate Inv(org: OrgId, ttl: nat, s: State) {
    && s.tenures != []
    && s.tenures[|s.tenures| - 1].since <= s.now
    && (PlanKey(org) in s.store ==>
          && s.store[PlanKey(org)].expiresAt.Some?
          && var read := s.store[PlanKey(org)].expiresAt.value - 1000 * ttl;
             && read <= s.now
             && (s.store[PlanKey(org)].value.Json? ==> HeldAt(s.tenures, s.store[PlanKey(org)].value.doc, read)))
  }

  lemma HeldLater(tenures: seq<Tenure>, next: Tenure, p: PlanLimits, t: Instant)
    requires HeldAt(tenures, p, t) && t <= next.since
    ensures HeldAt(tenures + [next], p, t)
  {
    var i :| 0 <= i < |tenures| && tenures[i].plan == p && tenures[i].since <= t
             && (i + 1 < |tenures| ==> t <= tenures[i + 1].since);
    var more := tenures + [next];
    assert more[i] == tenures[i];
    assert more[i + 1] == if i + 1 < |tenures| then tenures[i + 1] else next;
  }

  lemma StepKeeps(org: OrgId, ttl: nat, s: State, e: Event)
    requires ttl > 0 && Inv(org, ttl, s) && Enabled(org, s, e)
    ensures Inv(org, ttl, Apply(org, ttl, s, e))
  {
    if e.Switch? && PlanKey(org) in s.store && s.store[PlanKey(org)].value.Json? {
      HeldLater(s.tenures, Tenure(e.at, e.plan), s.store[PlanKey(org)].value.doc,
                s.store[PlanKey(org)].expiresAt.value - 1000 * ttl);
    }
    if e.Lookup? {
      var last := |s.tenures| - 1;
      assert s.tenures[last].since <= e.at;
      assert HeldAt(s.tenures, s.tenures[last].plan, e.at);
    }
  }

  function Observer(org: OrgId, ttl: nat): Machine<State, Event> {
    Machine((s, e) => Enabled(org, s, e), (s, e) => Apply(org, ttl, s, e))
  }

  /** The limits returned at t belong to a plan held at some instant of [t - TTL, t]. */
  ghost predicate Recent(org: OrgId, ttl: nat, s: State, t: Instant) {
    && s.tenures != [] && Answer(org, ttl, s, t).Ok?
    && exists at :: t - 1000 * ttl <= at <= t && HeldAt(s.tenures, Answer(org, ttl, s, t).value, at)
  }

  function Begun(store: UsageStore, first: Tenure): State {
    State(store, [first], first.since)
  }

  /** Over any history of switches, lookups, evictions and writes elsewhere, with a positive TTL. */
  lemma LimitsAtMostTtlOld(org: OrgId, ttl: nat, first: Tenure, store: UsageStore, evs: seq<Event>, t: Instant)
    requires ttl > 0 && PlanKey(org) !in store && Legal(Observer(org, ttl), Begun(store, first), evs)
    requires After(Observer(org, ttl), Begun(store, first), evs).now <= t
    ensures Recent(org, ttl, After(Observer(org, ttl), Begun(store, first), evs), t)
  {
    var s0 := Begun(store, first);
    forall s, e | Inv(org, ttl, s) && Enabled(org, s, e)
      ensures Inv(org, ttl, Apply(org, ttl, s, e))
    {
      StepKeeps(org, ttl, s, e);
    }
    Invariant(Observer(org, ttl), s => Inv(org, ttl, s), s0, evs);
    var s := After(Observer(org, ttl), s0, evs);
    var c := Get(s.store, PlanKey(org), t);
    if c.Some? && c.value.Json? {
      assert HeldAt(s.tenures, c.value.doc, s.store[PlanKey(org)].expiresAt.value - 1000 * ttl);
    } else {
      assert HeldAt(s.tenures, s.tenures[|s.tenures| - 1].plan, t);
    }
  }

  /** With TTL 0 the cached entry never expires: after a lookup and a switch, the old plan's limits
      are returned at every later instant. */
  lemma ZeroTtlNeverRefreshes(org: OrgId, p: PlanLimits, q: PlanLimits, t: Instant) returns (evs: seq<Event>)
    requires p != q && t > 1
    ensures Legal(Observer(org, 0), Begun(map[], Tenure(0, p)), evs)
    ensures var s := After(Observer(org, 0), Begun(map[], Tenure(0, p)), evs);
            && s.tenures == [Tenure(0, p), Tenure(1, q)] && s.now == 1
            && Answer(org, 0, s, t) == Ok(p) && !Recent(org, 0, s, t)
  {
    var s0, a, b := Begun(map[], Tenure(0, p)), Lookup(0), Switch(q, 1);
    var s1 := Apply(org, 0, s0, a);
    var s2 := Apply(org, 0, s1, b);
    One(Observer(org, 0), s0, a);
    Extend(Observer(org, 0), s0, [a], s1, b);
    evs := [a] + [b];
    assert s2.tenures == [Tenure(0, p), Tenure(1, q)];
    forall at | t <= at <= t
      ensures !HeldAt(s2.tenures, p, at)
    {}
  }

  /** So returned limits are always at most one TTL old exactly when the TTL is not 0. */
  lemma AtMostTtlOldIff(org: OrgId, ttl: nat)
    ensures (forall first, store, evs, t ::
               && PlanKey(org) !in store && Legal(Observer(org, ttl), Begun(store, first), evs)
               && After(Observer(org, ttl), Begun(store, first), evs).now <= t
               ==> Recent(org, ttl, After(Observer(org, ttl), Begun(store, first), evs), t))
            <==> ttl > 0
  {
    if ttl > 0 {
      forall first, store, evs, t |
        && PlanKey(org) !in store && Legal(Observer(org, ttl), Begun(store, first), evs)
        && After(Observer(org, ttl), Begun(store, first), evs).now <= t
        ensures Recent(org, ttl, After(Observer(org, ttl), Begun(store, first), evs), t)
      {
        LimitsAtMostTtlOld(org, ttl, first, store, evs, t);
      }
    } else {
      var p, q := PlanLimits(1, 1, 1), PlanLimits(2, 2, 2);
      var evs := ZeroTtlNeverRefreshes(org, p, q, 2);
      var store: UsageStore := map[];
      assert PlanKey(org) !in store && Legal(Observer(org, ttl), Begun(store, Tenure(0, p)), evs);
    }
  }
}
