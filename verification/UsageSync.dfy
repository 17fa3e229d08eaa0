/** `UsageSyncScheduler.handleCron`: copying the Redis counters into usage records. */
module UsageSync {
  import opened Wrappers
  import opened Ttl
  import opened Keys
  import opened RedisServer
  import opened Cache
  import opened Usage
  import Reset = UsageReset
  import Calendar

  datatype RecordKey = RecordKey(org: OrgId, metric: string, period: string)

  datatype UpsertError = ForeignKeyViolation | QueryFailed

  predicate IsMetric(name: string) {
    exists m: Reset.Metric :: m.Name() == name
  }

  /** `UsageRecordService`: the usage_records table, whose rows refer to organizations. */
  class UsageRecordService {
    const orgs: set<OrgId>
    var records: map<RecordKey, int>

    constructor (orgs: set<OrgId>)
      ensures this.orgs == orgs && records == map[]
    {
      this.orgs, records := orgs, map[];
    }

    method Create(k: RecordKey, value: int, dbOk: bool) returns (r: Result<(), UpsertError>)
      modifies this
      ensures r == Upsert(orgs, k, dbOk)
      ensures records == if r.Ok? then old(records)[k := value] else old(records)
    {
      if !dbOk { return Err(QueryFailed); }
      if k.org !in orgs { return Err(ForeignKeyViolation); }
      records := records[k := value];
      r := Ok(());
    }
  }

  function Upsert(orgs: set<OrgId>, k: RecordKey, dbOk: bool): Result<(), UpsertError> {
    if !dbOk then Err(QueryFailed) else if k.org !in orgs then Err(ForeignKeyViolation) else Ok(())
  }

  /** One key's turn in the loop: the counters other requests increment before its GET
      and after it, and whether the database answers. */
  datatype Turn = Turn(before: seq<string>, dbOk: bool, during: seq<string>, now: Instant)

  function Bump(m: UsageStore, keys: seq<string>, now: Instant): UsageStore {
    if keys == [] then m
    else
      var m1 := Bump(m, keys[..|keys| - 1], now);
      var k := keys[|keys| - 1];
      var c := IncrCell(m1, k, now);
      if c.Ok? then m1[k := c.value] else m1
  }

  /** `const [, orgId, metric, period] = key.split(':')`; a segment that is missing is undefined,
      which no metric name equals. */
  function Target(key: string): Option<RecordKey> {
    var parts := Split(key);
    if |parts| >= 4 then Some(RecordKey(parts[1], parts[2], parts[3])) else None
  }

  datatype SyncState = SyncState(store: UsageStore, records: map<RecordKey, int>)

  datatype Verdict = Skip | Write(k: RecordKey, value: int) | DropCounter | GiveUp

  /** What becomes of a key whose GET returned `usage`. A value that is no number makes the
      INSERT fail like any other query error. */
  function Decide(orgs: set<OrgId>, key: string, usage: Option<Value<PlanLimits>>, dbOk: bool): Verdict {
    var target := Target(key);
    if !Truthy(usage) || target.None? || !IsMetric(target.value.metric) then Skip
    else
      match Upsert(orgs, target.value, dbOk && usage.value.Num?)
      case Ok(_) => Write(target.value, usage.value.n)
      case Err(ForeignKeyViolation) => DropCounter
      case Err(QueryFailed) => GiveUp
  }

  function SyncKey(orgs: set<OrgId>, s: SyncState, key: string, r: Turn): SyncState {
    var m := Bump(s.store, r.before, r.now);
    var m1 := Bump(m, r.during, r.now);
    match Decide(orgs, key, Get(m, key, r.now), r.dbOk)
    case Write(k, v) => SyncState(m1, s.records[k := v])
    case DropCounter => SyncState(Del(m1, key), s.records)
    case _ => SyncState(m1, s.records)
  }

  function SyncAll(orgs: set<OrgId>, s: SyncState, keys: seq<string>, turns: seq<Turn>): SyncState
    requires |keys| == |turns|
  {
    if keys == [] then s
    else
      var n := |keys| - 1;
      SyncKey(orgs, SyncAll(orgs, s, keys[..n], turns[..n]), keys[n], turns[n])
  }

  /** The first n of an endless schedule of turns. */
  function First(turns: nat -> Turn, n: nat): (r: seq<Turn>)
    ensures |r| == n
  {
    if n == 0 then [] else First(turns, n - 1) + [turns(n - 1)]
  }

  lemma SyncAllSnoc(orgs: set<OrgId>, s: SyncState, keys: seq<string>, turns: seq<Turn>, key: string, r: Turn)
    requires |keys| == |turns|
    ensures SyncAll(orgs, s, keys + [key], turns + [r]) == SyncKey(orgs, SyncAll(orgs, s, keys, turns), key, r)
  {
    assert (keys + [key])[..|keys|] == keys && (turns + [r])[..|keys|] == turns;
  }

  class UsageSyncScheduler {
    const cache: CacheService<PlanLimits>
    const recordService: UsageRecordService

    constructor (cache: CacheService<PlanLimits>, recordService: UsageRecordService)
      ensures this.cache == cache && this.recordService == recordService
    {
      this.cache, this.recordService := cache, recordService;
    }

    function State(): SyncState
      reads cache, recordService
    {
      SyncState(cache.store, recordService.records)
    }

    /** Requests served by other workers while this one awaits. */
    method Interfere(keys: seq<string>, now: Instant)
      modifies cache
      ensures cache.store == Bump(old(cache.store), keys, now)
    {
      var i := 0;
      assert keys[..0] == [];
      while i < |keys|
        invariant 0 <= i <= |keys|
        invariant cache.store == Bump(old(cache.store), keys[..i], now)
      {
        var _ := cache.Incr(keys[i], now);
        assert keys[..i + 1][..i] == keys[..i];
        i := i + 1;
      }
      assert keys[..|keys|] == keys;
    }

    method SyncOne(key: string, r: Turn)
      requires cache as object != recordService
      modifies cache, recordService
      ensures State() == SyncKey(recordService.orgs, old(State()), key, r)
    {
      Interfere(r.before, r.now);
      var usage := cache.Get(key, r.now);
      Interfere(r.during, r.now);
      if !Truthy(usage) { return; }
      var parts := Split(key);
      if |parts| < 4 || !IsMetric(parts[2]) { return; }
      var value := if usage.value.Num? then usage.value.n else 0;
      var written := recordService.Create(RecordKey(parts[1], parts[2], parts[3]), value, r.dbOk && usage.value.Num?);
      if written == Err(ForeignKeyViolation) { cache.Delete(key); }
    }

    method HandleCron(scan: seq<Round<PlanLimits>>, turns: nat -> Turn) returns (keys: seq<string>)
      requires cache as object != recordService
      requires FullScan(scan) && OnlyMatching(scan, Reset.COUNTER_PATTERN)
      modifies cache, recordService
      ensures keys == Batches(scan)
      ensures State() == SyncAll(recordService.orgs, Scanned(old(State()), scan), keys, First(turns, |keys|))
    {
      keys := cache.GetByPattern(Reset.COUNTER_PATTERN, scan);
      ghost var start := State();
      var i := 0;
      assert keys[..0] == [];
      while i < |keys|
        invariant 0 <= i <= |keys|
        invariant State() == SyncAll(recordService.orgs, start, keys[..i], First(turns, i))
      {
        SyncOne(keys[i], turns(i));
        SyncAllNext(recordService.orgs, start, keys, i, turns);
        i := i + 1;
      }
      assert keys[..|keys|] == keys;
    }
  }

  /** The state when the scan is over and the loop begins. */
  function Scanned(s: SyncState, scan: seq<Round<PlanLimits>>): SyncState {
    s.(store := Replay(s.store, ScanTrace(scan)))
  }

  lemma SyncAllNext(orgs: set<OrgId>, s: SyncState, keys: seq<string>, i: nat, turns: nat -> Turn)
    requires i < |keys|
    ensures SyncAll(orgs, s, keys[..i + 1], First(turns, i + 1))
         == SyncKey(orgs, SyncAll(orgs, s, keys[..i], First(turns, i)), keys[i], turns(i))
  {
    assert keys[..i + 1] == keys[..i] + [keys[i]];
    SyncAllSnoc(orgs, s, keys[..i], First(turns, i), keys[i], turns(i));
  }

  // ---- What a run leaves behind ----

  /** The record written for a counter is the one its key was built from. */
  lemma TargetRoundTrip(org: OrgId, metric: Reset.Metric, period: string)
    requires ColonFree(org) && ColonFree(period)
    ensures Target(UsageKey(org, metric.Name(), period)) == Some(RecordKey(org, metric.Name(), period))
    ensures IsMetric(metric.Name())
  {
    UsageKeyParts(org, metric.Name(), period);
  }

  /** A key of exactly four segments starting with `usage`. */
  predicate CounterKey(key: string) {
    |Split(key)| == 4 && Split(key)[0] == "usage"
  }

  lemma TargetInjective(a: string, b: string)
    requires CounterKey(a) && CounterKey(b) && Target(a) == Target(b)
    ensures a == b
  {
    assert Split(a) == ["usage", Split(a)[1], Split(a)[2], Split(a)[3]];
    assert Split(b) == ["usage", Split(b)[1], Split(b)[2], Split(b)[3]];
    SplitInjective(a, b);
  }

  /** Only INCR ever wrote this counter, so it is a number that never expires. */
  predicate Pure(m: UsageStore, key: string) {
    key in m ==> m[key].value.Num? && m[key].value.n >= 1 && m[key].expiresAt.None?
  }

  function CountOf(m: UsageStore, key: string): int {
    if key in m && m[key].value.Num? then m[key].value.n else 0
  }

  lemma {:induction false} BumpGrows(m: UsageStore, keys: seq<string>, now: Instant, k: string)
    requires Pure(m, k)
    ensures Pure(Bump(m, keys, now), k) && CountOf(m, k) <= CountOf(Bump(m, keys, now), k)
    ensures k in m ==> k in Bump(m, keys, now)
  {
    if keys != [] { BumpGrows(m, keys[..|keys| - 1], now, k); }
  }

  /** Some turn read the counter and reached the database. */
  ghost predicate Synced(orgs: set<OrgId>, s: SyncState, keys: seq<string>, turns: seq<Turn>, k: string)
    requires |keys| == |turns|
  {
    exists i :: 0 <= i < |keys| && keys[i] == k && turns[i].dbOk
                && k in Bump(SyncAll(orgs, s, keys[..i], turns[..i]).store, turns[i].before, turns[i].now)
  }

  /** One turn on a counter of an existing organization: the count never falls, and if the
      record is written it gets a value between the counts around the turn. */
  lemma SyncKeyBounds(orgs: set<OrgId>, s: SyncState, key: string, r: Turn, k: string)
    requires CounterKey(k) && CounterKey(key) && Target(k).value.org in orgs && IsMetric(Target(k).value.metric)
    requires Pure(s.store, k)
    ensures var s' := SyncKey(orgs, s, key, r); var t := Target(k).value;
            && Pure(s'.store, k) && CountOf(s.store, k) <= CountOf(s'.store, k)
            && (if key == k && r.dbOk && k in Bump(s.store, r.before, r.now)
                then t in s'.records && CountOf(s.store, k) <= s'.records[t] <= CountOf(s'.store, k)
                else (t in s'.records <==> t in s.records) && (t in s.records ==> s'.records[t] == s.records[t]))
  {
    var m := Bump(s.store, r.before, r.now);
    BumpGrows(s.store, r.before, r.now, k);
    BumpGrows(m, r.during, r.now, k);
    if key != k && Target(key) == Target(k) { TargetInjective(key, k); }
  }

  lemma MetricNames(name: string)
    ensures IsMetric(name) <==> name in {"api_calls", "webhook_calls", "data_storage", "active_users"}
  {
    assert Reset.Metric.ApiCalls.Name() == "api_calls" && Reset.Metric.WebhookCalls.Name() == "webhook_calls";
    assert Reset.Metric.DataStorage.Name() == "data_storage" && Reset.Metric.ActiveUsers.Name() == "active_users";
  }

  /** One turn on a counter key, field by field. A counter there at the GET is written to its own
      record if its organization exists; if the organization is gone, the counter is deleted, with
      whatever was counted since the GET; if the database does not answer, or the metric or the
      counter is unknown, nothing changes but what other requests counted. */
  lemma TurnOutcome(orgs: set<OrgId>, s: SyncState, org: OrgId, metric: string, period: string, r: Turn)
    requires ColonFree(org) && ColonFree(metric) && ColonFree(period)
    requires Pure(s.store, UsageKey(org, metric, period))
    ensures var key, record := UsageKey(org, metric, period), RecordKey(org, metric, period);
            var read := Bump(s.store, r.before, r.now);
            var counted := Bump(read, r.during, r.now);
            var known := key in read && metric in {"api_calls", "webhook_calls", "data_storage", "active_users"};
            SyncKey(orgs, s, key, r) ==
              if known && r.dbOk && org in orgs then SyncState(counted, s.records[record := CountOf(read, key)])
              else if known && r.dbOk then SyncState(counted - {key}, s.records)
              else SyncState(counted, s.records)
  {
    var key := UsageKey(org, metric, period);
    BumpGrows(s.store, r.before, r.now, key);
    UsageKeyParts(org, metric, period);
    MetricNames(metric);
  }

  /** With keys repeated by SCAN and increments anywhere, a counter that some turn synced has a
      record between its value at the start and its value at the end; a counter that none
      synced keeps the record it had. */
  lemma {:induction false} RecordBetweenCounts(orgs: set<OrgId>, s: SyncState, keys: seq<string>, turns: seq<Turn>,
                                               k: string)
    requires |keys| == |turns| && forall key :: key in keys ==> CounterKey(key)
    requires CounterKey(k) && Target(k).value.org in orgs && IsMetric(Target(k).value.metric)
    requires Pure(s.store, k)
    ensures var s' := SyncAll(orgs, s, keys, turns); var t := Target(k).value;
            && Pure(s'.store, k) && CountOf(s.store, k) <= CountOf(s'.store, k)
            && (if Synced(orgs, s, keys, turns, k)
                then t in s'.records && CountOf(s.store, k) <= s'.records[t] <= CountOf(s'.store, k)
                else (t in s'.records <==> t in s.records) && (t in s.records ==> s'.records[t] == s.records[t]))
  {
    if keys != [] {
      var n := |keys| - 1;
      var before := SyncAll(orgs, s, keys[..n], turns[..n]);
      RecordBetweenCounts(orgs, s, keys[..n], turns[..n], k);
      SyncKeyBounds(orgs, before, keys[n], turns[n], k);
      SyncedExtends(orgs, s, keys, turns, k);
    }
  }

  lemma SyncedExtends(orgs: set<OrgId>, s: SyncState, keys: seq<string>, turns: seq<Turn>, k: string)
    requires |keys| == |turns| && keys != []
    ensures var n := |keys| - 1;
            Synced(orgs, s, keys, turns, k) <==>
              Synced(orgs, s, keys[..n], turns[..n], k)
              || (keys[n] == k && turns[n].dbOk
                  && k in Bump(SyncAll(orgs, s, keys[..n], turns[..n]).store, turns[n].before, turns[n].now))
  {
    var n := |keys| - 1;
    forall i | 0 <= i < n
      ensures keys[..n][i] == keys[i] && turns[..n][i] == turns[i] && keys[..n][..i] == keys[..i]
              && turns[..n][..i] == turns[..i]
    {}
    if Synced(orgs, s, keys[..n], turns[..n], k) {
      var i :| 0 <= i < n && keys[..n][i] == k && turns[..n][i].dbOk
               && k in Bump(SyncAll(orgs, s, keys[..n][..i], turns[..n][..i]).store, turns[..n][i].before,
                            turns[..n][i].now);
      assert keys[i] == k;
    }
    if Synced(orgs, s, keys, turns, k) {
      var i :| 0 <= i < |keys| && keys[i] == k && turns[i].dbOk
               && k in Bump(SyncAll(orgs, s, keys[..i], turns[..i]).store, turns[i].before, turns[i].now);
      if i < n { assert keys[..n][i] == k; }
    }
  }

  /** A counter that was there from the start, and that some reply of the scan named in a turn
      whose database call was answered, is synced. */
  lemma {:induction false} PresentIsSynced(orgs: set<OrgId>, s: SyncState, keys: seq<string>, turns: seq<Turn>,
                                           k: string)
    requires |keys| == |turns| && forall key :: key in keys ==> CounterKey(key)
    requires CounterKey(k) && Target(k).value.org in orgs && IsMetric(Target(k).value.metric)
    requires Pure(s.store, k) && k in s.store
    requires exists i :: 0 <= i < |keys| && keys[i] == k && turns[i].dbOk
    ensures Synced(orgs, s, keys, turns, k)
  {
    var i :| 0 <= i < |keys| && keys[i] == k && turns[i].dbOk;
    var before := SyncAll(orgs, s, keys[..i], turns[..i]);
    RecordBetweenCounts(orgs, s, keys[..i], turns[..i], k);
    BumpGrows(before.store, turns[i].before, turns[i].now, k);
  }

  // ---- One key's failure stays its own ----

  /** The two states agree on everything but one counter and its record. */
  predicate AgreeBut(a: SyncState, b: SyncState, k: string) {
    && a.store - {k} == b.store - {k}
    && (if Target(k).Some? then a.records - {Target(k).value} == b.records - {Target(k).value}
        else a.records == b.records)
  }

  lemma SameElsewhere(a: UsageStore, b: UsageStore, k: string, x: string)
    requires a - {k} == b - {k} && x != k
    ensures (x in a <==> x in b) && (x in a ==> a[x] == b[x])
  {
    assert x in a <==> x in a - {k};
    assert x in b <==> x in b - {k};
    if x in a { assert (a - {k})[x] == (b - {k})[x]; }
  }

  lemma {:induction false} BumpAgrees(a: UsageStore, b: UsageStore, keys: seq<string>, now: Instant, k: string)
    requires a - {k} == b - {k}
    ensures Bump(a, keys, now) - {k} == Bump(b, keys, now) - {k}
  {
    if keys != [] {
      var n := |keys| - 1;
      BumpAgrees(a, b, keys[..n], now, k);
      var a1, b1, x := Bump(a, keys[..n], now), Bump(b, keys[..n], now), keys[n];
      if x != k {
        SameElsewhere(a1, b1, k, x);
        var c := IncrCell(a1, x, now);
        if c.Ok? {
          assert a1[x := c.value] - {k} == (a1 - {k})[x := c.value];
          assert b1[x := c.value] - {k} == (b1 - {k})[x := c.value];
        }
      } else {
        OverwriteHidden(a1, k, IncrCell(a1, k, now));
        OverwriteHidden(b1, k, IncrCell(b1, k, now));
      }
    }
  }

  lemma OverwriteHidden(m: UsageStore, k: string, c: Result<Cell<Value<PlanLimits>>, RedisError>)
    ensures c.Ok? ==> m[k := c.value] - {k} == m - {k}
  {}

  lemma WriteAgrees(a: map<RecordKey, int>, b: map<RecordKey, int>, u: RecordKey, t: RecordKey, v: int)
    requires a - {u} == b - {u}
    ensures a[t := v] - {u} == b[t := v] - {u}
  {
    if t != u {
      assert a[t := v] - {u} == (a - {u})[t := v];
      assert b[t := v] - {u} == (b - {u})[t := v];
    } else {
      assert a[t := v] - {u} == a - {u} && b[t := v] - {u} == b - {u};
    }
  }

  /** A turn touches, besides the bumped counters, only its own key and record. */
  lemma KeyTurn(orgs: set<OrgId>, s: SyncState, key: string, r: Turn)
    ensures var s' := SyncKey(orgs, s, key, r);
            && s'.store - {key} == Bump(Bump(s.store, r.before, r.now), r.during, r.now) - {key}
            && (if Target(key).Some? then s'.records - {Target(key).value} == s.records - {Target(key).value}
                else s'.records == s.records)
  {}

  lemma TurnAgrees(orgs: set<OrgId>, a: SyncState, b: SyncState, key: string, ra: Turn, rb: Turn, k: string)
    requires AgreeBut(a, b, k) && ra.before == rb.before && ra.during == rb.during && ra.now == rb.now
    requires key == k || ra.dbOk == rb.dbOk
    ensures AgreeBut(SyncKey(orgs, a, key, ra), SyncKey(orgs, b, key, rb), k)
  {
    var ma, mb := Bump(a.store, ra.before, ra.now), Bump(b.store, ra.before, ra.now);
    BumpAgrees(a.store, b.store, ra.before, ra.now, k);
    BumpAgrees(ma, mb, ra.during, ra.now, k);
    if key == k {
      KeyTurn(orgs, a, key, ra);
      KeyTurn(orgs, b, key, rb);
    } else {
      SameElsewhere(ma, mb, k, key);
      match Decide(orgs, key, Get(ma, key, ra.now), ra.dbOk)
      case Write(t, v) => if Target(k).Some? { WriteAgrees(a.records, b.records, Target(k).value, t, v); }
      case DropCounter => DropAgrees(Bump(ma, ra.during, ra.now), Bump(mb, ra.during, ra.now), k, key);
      case _ =>
    }
  }

  lemma DropAgrees(a: UsageStore, b: UsageStore, k: string, key: string)
    requires a - {k} == b - {k}
    ensures Del(a, key) - {k} == Del(b, key) - {k}
  {
    assert Del(a, key) - {k} == (a - {k}) - {key};
    assert Del(b, key) - {k} == (b - {k}) - {key};
  }

  predicate SameButFailuresOf(k: string, keys: seq<string>, ra: seq<Turn>, rb: seq<Turn>) {
    && |keys| == |ra| == |rb|
    && forall i :: 0 <= i < |keys| ==>
         && ra[i].before == rb[i].before && ra[i].during == rb[i].during && ra[i].now == rb[i].now
         && (keys[i] != k ==> ra[i].dbOk == rb[i].dbOk)
  }

  /** Two runs that differ only in whether the database answered for key k end with the same
      counters and the same records, k's own excepted. */
  lemma {:induction false} FailuresStayLocal(orgs: set<OrgId>, s: SyncState, k: string, keys: seq<string>,
                                             ra: seq<Turn>, rb: seq<Turn>)
    requires SameButFailuresOf(k, keys, ra, rb)
    ensures AgreeBut(SyncAll(orgs, s, keys, ra), SyncAll(orgs, s, keys, rb), k)
  {
    if keys != [] {
      var n := |keys| - 1;
      FailuresStayLocal(orgs, s, k, keys[..n], ra[..n], rb[..n]);
      TurnAgrees(orgs, SyncAll(orgs, s, keys[..n], ra[..n]), SyncAll(orgs, s, keys[..n], rb[..n]), keys[n], ra[n],
                 rb[n], k);
    }
  }

  // ---- From the scan to the records ----

  ghost predicate KnownKey(k: string) {
    exists r: Reset.RedisKey :: r.WellFormed() && r.Render() == k
  }

  /** Only well-formed keys are stored, and only such keys are written meanwhile. */
  ghost predicate OnlyKnown(m: UsageStore, steps: seq<Step<PlanLimits>>) {
    && (forall k :: k in m ==> KnownKey(k))
    && (forall i :: 0 <= i < |steps| && steps[i].Other? ==> KnownKey(steps[i].command.key))
  }

  /** SCAN never returns a key that was not there at some moment of the iteration. */
  ghost predicate ScanSound(m: UsageStore, steps: seq<Step<PlanLimits>>) {
    forall i, k :: 0 <= i < |steps| && steps[i].Scan? && k in steps[i].reply.batch
      ==> exists j :: 0 <= j <= i && k in Replay(m, steps[..j])
  }

  lemma {:induction false} StaysKnown(m: UsageStore, steps: seq<Step<PlanLimits>>, k: string)
    requires OnlyKnown(m, steps) && k in Replay(m, steps)
    ensures KnownKey(k)
  {
    if steps != [] {
      var n := |steps| - 1;
      if k in Replay(m, steps[..n]) { StaysKnown(m, steps[..n], k); }
    }
  }

  lemma {:induction false} BatchesNamed(scan: seq<Round<PlanLimits>>, k: string)
    ensures k in Batches(scan) <==> Named(ScanTrace(scan), k)
  {
    if scan != [] {
      var n := |scan| - 1;
      var a, b := ScanTrace(scan[..n]), ScanSteps(scan[n]);
      BatchesNamed(scan[..n], k);
      if k in Batches(scan[..n]) {
        var i :| 0 <= i < |a| && a[i].Scan? && k in a[i].reply.batch;
        assert (a + b)[i] == a[i];
      }
      if k in scan[n].reply.batch { assert (a + b)[|a + b| - 1] == Scan(scan[n].scanAt, scan[n].reply); }
      if Named(a + b, k) && !Named(a, k) {
        var i :| 0 <= i < |a + b| && (a + b)[i].Scan? && k in (a + b)[i].reply.batch;
        assert i == |a + b| - 1;
      }
    }
  }

  lemma {:induction false} ScansDoNotPurge(scan: seq<Round<PlanLimits>>)
    ensures forall i :: 0 <= i < |ScanTrace(scan)| ==> !ScanTrace(scan)[i].Purge?
  {
    if scan != [] { ScansDoNotPurge(scan[..|scan| - 1]); }
  }

  lemma NamedMatches(scan: seq<Round<PlanLimits>>, pattern: string, k: string)
    requires OnlyMatching(scan, pattern) && k in Batches(scan)
    ensures Glob(pattern, k)
  {
    var i := BatchOf(scan, k);
  }

  lemma {:induction false} BatchOf(scan: seq<Round<PlanLimits>>, k: string) returns (i: nat)
    requires k in Batches(scan)
    ensures i < |scan| && k in scan[i].reply.batch
  {
    var n := |scan| - 1;
    if k in scan[n].reply.batch { return n; }
    i := BatchOf(scan[..n], k);
  }

  /** Every key the scan hands to the loop is a counter key of four segments. */
  lemma ScannedAreCounters(m: UsageStore, scan: seq<Round<PlanLimits>>, k: string)
    requires OnlyMatching(scan, Reset.COUNTER_PATTERN) && k in Batches(scan)
    requires ScanSound(m, ScanTrace(scan)) && OnlyKnown(m, ScanTrace(scan))
    ensures CounterKey(k)
  {
    var steps := ScanTrace(scan);
    BatchesNamed(scan, k);
    var i :| 0 <= i < |steps| && steps[i].Scan? && k in steps[i].reply.batch;
    var j :| 0 <= j <= i && k in Replay(m, steps[..j]);
    StaysKnown(m, steps[..j], k);
    NamedMatches(scan, Reset.COUNTER_PATTERN, k);
    var r: Reset.RedisKey :| r.WellFormed() && r.Render() == k;
    Reset.CounterPatternExact(r);
    Reset.Segments(r);
  }

  /** A counter that is only counted up is there all through the scan, and never falls. */
  lemma {:induction false} GrowsThrough(m: UsageStore, steps: seq<Step<PlanLimits>>, k: string)
    requires Pure(m, k) && k in m && OnlyCounted(steps, k) && forall i :: 0 <= i < |steps| ==> !steps[i].Purge?
    ensures var m' := Replay(m, steps); k in m' && Pure(m', k) && CountOf(m, k) <= CountOf(m', k)
  {
    if steps != [] {
      var n := |steps| - 1;
      GrowsThrough(m, steps[..n], k);
      if !steps[n].Touches(k) { Untouched(Replay(m, steps[..n]), steps[n], k); }
    }
  }

  lemma CounterIsScanned(m: UsageStore, scan: seq<Round<PlanLimits>>, k: string)
    requires ScanCovers(m, Reset.COUNTER_PATTERN, ScanTrace(scan)) && Glob(Reset.COUNTER_PATTERN, k)
    requires Pure(m, k) && k in m && OnlyCounted(ScanTrace(scan), k)
    ensures k in Batches(scan)
  {
    var steps := ScanTrace(scan);
    ScansDoNotPurge(scan);
    forall i | 0 <= i < |steps|
      ensures LiveBefore(m, steps, i, k)
    {
      GrowsThrough(m, steps[..i], k);
    }
    BatchesNamed(scan, k);
  }

  lemma {:induction false} FirstAt(turns: nat -> Turn, n: nat, i: nat)
    requires i < n
    ensures First(turns, n)[i] == turns(i)
  {
    if i < n - 1 { FirstAt(turns, n - 1, i); }
  }

  lemma SomeTurnAnswered(keys: seq<string>, turns: nat -> Turn, k: string)
    requires k in keys && forall i :: 0 <= i < |keys| && keys[i] == k ==> turns(i).dbOk
    ensures exists i :: 0 <= i < |keys| && keys[i] == k && First(turns, |keys|)[i].dbOk
  {
    var i :| 0 <= i < |keys| && keys[i] == k;
    FirstAt(turns, |keys|, i);
  }

  /** What a counter of an existing organization needs to be synced. */
  ghost predicate Syncable(orgs: set<OrgId>, m: UsageStore, scan: seq<Round<PlanLimits>>, turns: nat -> Turn,
                           c: Reset.RedisKey)
  {
    && c.WellFormed() && c.UsageCounter? && c.metric.ApiCalls? && c.org in orgs
    && Pure(m, c.Render()) && c.Render() in m && OnlyCounted(ScanTrace(scan), c.Render())
    && (forall i :: 0 <= i < |Batches(scan)| && Batches(scan)[i] == c.Render() ==> turns(i).dbOk)
  }

  ghost predicate ScanHolds(m: UsageStore, scan: seq<Round<PlanLimits>>) {
    && OnlyMatching(scan, Reset.COUNTER_PATTERN) && ScanCovers(m, Reset.COUNTER_PATTERN, ScanTrace(scan))
    && ScanSound(m, ScanTrace(scan)) && OnlyKnown(m, ScanTrace(scan))
  }

  lemma CounterTarget(c: Reset.RedisKey)
    requires c.WellFormed() && c.UsageCounter? && c.metric.ApiCalls?
    ensures Target(c.Render()) == Some(RecordKey(c.org, API_CALLS, Calendar.FormatYYMM(c.month)))
    ensures IsMetric(API_CALLS) && CounterKey(c.Render()) && Glob(Reset.COUNTER_PATTERN, c.Render())
  {
    Reset.MonthNameFacts(c.month);
    TargetRoundTrip(c.org, c.metric, Calendar.FormatYYMM(c.month));
    Reset.Segments(c);
    Reset.CounterPatternExact(c);
  }

  /** The whole run of `handleCron`: with increments before, during and after the scan, the record
      of every API-call counter that was there at the start, and whose upserts are answered, ends
      between the counter's value at the start and its value at the end. */
  lemma SyncedEndToEnd(orgs: set<OrgId>, s: SyncState, scan: seq<Round<PlanLimits>>, turns: nat -> Turn,
                       c: Reset.RedisKey)
    requires ScanHolds(s.store, scan) && Syncable(orgs, s.store, scan, turns, c)
    ensures var s' := SyncAll(orgs, Scanned(s, scan), Batches(scan), First(turns, |Batches(scan)|));
            var record := RecordKey(c.org, API_CALLS, Calendar.FormatYYMM(c.month));
            && record in s'.records
            && CountOf(s.store, c.Render()) <= s'.records[record] <= CountOf(s'.store, c.Render())
  {
    var k, keys := c.Render(), Batches(scan);
    var ts := First(turns, |keys|);
    CounterTarget(c);
    ScansDoNotPurge(scan);
    GrowsThrough(s.store, ScanTrace(scan), k);
    CounterIsScanned(s.store, scan, k);
    forall key | key in keys
      ensures CounterKey(key)
    {
      ScannedAreCounters(s.store, scan, key);
    }
    SomeTurnAnswered(keys, turns, k);
    PresentIsSynced(orgs, Scanned(s, scan), keys, ts, k);
    RecordBetweenCounts(orgs, Scanned(s, scan), keys, ts, k);
  }
}
