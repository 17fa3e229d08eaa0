/** API keys under concurrency: create, validate and remove interleave await by await, and any
    of them may die between two of its steps. Every read and write carries a ghost step stamp. */
module ApiKeyRace {
  import opened Wrappers
  import opened Ttl
  import opened ApiKeys
  import opened Runs

  datatype Row = Row(active: bool, entry: CachedKey)

  /** A cache entry, when it expires, and the steps at which its row was read or saved and at
      which the entry itself was written. */
  datatype Stored = Stored(entry: CachedKey, expiresAt: Option<Instant>, read: nat, written: nat)

  datatype Task =
    | Caching(h: KeyHash, entry: CachedKey, read: nat)  // create saved or validate read an active row; the SET is next
    | Looking(h: KeyHash)                               // validate: cache not read yet
    | Missed(h: KeyHash)                                // validate: the cache had no entry; the row is next
    | Fetching(h: KeyHash)                              // remove: row not read yet
    | Revoking(h: KeyHash)                              // remove: row read active; the save is next
    | Deleting(h: KeyHash)                              // remove: row saved inactive; the cache delete is next

  datatype State = State(rows: map<KeyHash, Row>, cache: map<KeyHash, Stored>, tasks: map<nat, Task>, now: Instant,
                         step: nat, revokedAt: map<KeyHash, nat>, deletedAt: map<KeyHash, nat>)

  datatype Event =
    | SaveNew(id: nat, h: KeyHash, entry: CachedKey)
    | SetEntry(id: nat)
    | StartValidate(id: nat, h: KeyHash)
    | ReadCache(id: nat)
    | ReadRow(id: nat)
    | StartRemove(id: nat, h: KeyHash)
    | ReadForRemove(id: nat)
    | SaveRevoked(id: nat)
    | DeleteEntry(id: nat)
    | Crash(id: nat)
    | Evict(h: KeyHash)
    | Tick(ms: nat)

  predicate Cached(s: State, h: KeyHash) {
    h in s.cache && (s.cache[h].expiresAt.Some? ==> s.now < s.cache[h].expiresAt.value)
  }

  predicate Active(s: State, h: KeyHash) {
    h in s.rows && s.rows[h].active
  }

  predicate Revoked(s: State, h: KeyHash) {
    h in s.rows && !s.rows[h].active
  }

  predicate Enabled(s: State, e: Event) {
    match e
    case SaveNew(id, h, _) => id !in s.tasks && h !in s.rows
    case SetEntry(id) => id in s.tasks && s.tasks[id].Caching?
    case StartValidate(id, _) => id !in s.tasks
    case ReadCache(id) => id in s.tasks && s.tasks[id].Looking?
    case ReadRow(id) => id in s.tasks && s.tasks[id].Missed?
    case StartRemove(id, _) => id !in s.tasks
    case ReadForRemove(id) => id in s.tasks && s.tasks[id].Fetching?
    case SaveRevoked(id) => id in s.tasks && s.tasks[id].Revoking?
    case DeleteEntry(id) => id in s.tasks && s.tasks[id].Deleting?
    case Crash(id) => id in s.tasks
    case Evict(_) => true
    case Tick(_) => true
  }

  /** This step lets a request authenticated by key h through. */
  predicate Grants(s: State, e: Event, h: KeyHash) {
    match e
    case ReadCache(id) =>
      Enabled(s, e) && s.tasks[id].h == h && Cached(s, h) && !HasExpired(s.cache[h].entry.expiresAt, s.now)
    case ReadRow(id) =>
      Enabled(s, e) && s.tasks[id].h == h && Active(s, h) && !HasExpired(s.rows[h].entry.expiresAt, s.now)
    case _ => false
  }

  /** `set` drops a TTL of 0, so the entry never expires. */
  function Expiry(ttl: nat, now: Instant): Option<Instant> {
    if ttl == 0 then None else Some(now + 1000 * ttl)
  }

  function Effect(ttl: nat, s: State, e: Event): State
    requires Enabled(s, e)
  {
    match e
    case SaveNew(id, h, entry) =>
      s.(rows := s.rows[h := Row(true, entry)], tasks := s.tasks[id := Caching(h, entry, s.step)])
    case SetEntry(id) =>
      var t := s.tasks[id];
      s.(cache := s.cache[t.h := Stored(t.entry, Expiry(ttl, s.now), t.read, s.step)], tasks := s.tasks - {id})
    case StartValidate(id, h) => s.(tasks := s.tasks[id := Looking(h)])
    case ReadCache(id) =>
      s.(tasks := if Cached(s, s.tasks[id].h) then s.tasks - {id} else s.tasks[id := Missed(s.tasks[id].h)])
    case ReadRow(id) =>
      var h := s.tasks[id].h;
      s.(tasks := if Grants(s, e, h) && s.rows[h].entry.org != ""
                  then s.tasks[id := Caching(h, s.rows[h].entry, s.step)]
                  else s.tasks - {id})
    case StartRemove(id, h) => s.(tasks := s.tasks[id := Fetching(h)])
    case ReadForRemove(id) =>
      var h := s.tasks[id].h;
      s.(tasks := if Active(s, h) then s.tasks[id := Revoking(h)] else s.tasks - {id})
    case SaveRevoked(id) =>
      var h := s.tasks[id].h;
      if h !in s.rows then s else
      s.(rows := s.rows[h := s.rows[h].(active := false)], tasks := s.tasks[id := Deleting(h)],
         revokedAt := if h in s.revokedAt then s.revokedAt else s.revokedAt[h := s.step])
    case DeleteEntry(id) =>
      var h := s.tasks[id].h;
      s.(cache := s.cache - {h}, tasks := s.tasks - {id}, deletedAt := s.deletedAt[h := s.step])
    case Crash(id) => s.(tasks := s.tasks - {id})
    case Evict(h) => s.(cache := s.cache - {h})
    case Tick(ms) => s.(now := s.now + ms)
  }

  function Apply(ttl: nat, s: State, e: Event): State {
    if !Enabled(s, e) then s else Effect(ttl, s, e).(step := s.step + 1)
  }

  function System(ttl: nat): Machine<State, Event> {
    Machine((s, e) => Enabled(s, e), (s, e) => Apply(ttl, s, e))
  }

  const INITIAL := State(map[], map[], map[], 0, 0, map[], map[])

  // ---- Where a stale entry can come from ----

  ghost predicate StampsInv(s: State) {
    && (forall h :: h in s.revokedAt <==> Revoked(s, h))
    && (forall h :: h in s.revokedAt ==> s.revokedAt[h] < s.step)
    && (forall h :: h in s.deletedAt ==> h in s.revokedAt && s.revokedAt[h] < s.deletedAt[h] < s.step)
  }

  predicate TasksInv(s: State) {
    forall id :: id in s.tasks ==>
      var t := s.tasks[id];
      && (t.Caching? ==> t.h in s.rows && t.read < s.step && (t.h in s.revokedAt ==> t.read < s.revokedAt[t.h]))
      && (t.Revoking? ==> t.h in s.rows)
      && (t.Deleting? ==> t.h in s.revokedAt)
  }

  predicate CacheInv(ttl: nat, s: State) {
    forall h :: h in s.cache ==>
      var c := s.cache[h];
      && h in s.rows && c.read <= c.written < s.step
      && (if ttl == 0 then c.expiresAt.None? else c.expiresAt.Some? && c.expiresAt.value <= s.now + 1000 * ttl)
      && (h in s.revokedAt ==> c.read < s.revokedAt[h])
      && (h in s.deletedAt ==> s.deletedAt[h] < c.written)
  }

  ghost predicate Inv(ttl: nat, s: State) {
    StampsInv(s) && TasksInv(s) && CacheInv(ttl, s)
  }

  lemma StampsKept(ttl: nat, s: State, e: Event)
    requires StampsInv(s) && TasksInv(s) && Enabled(s, e)
    ensures StampsInv(Apply(ttl, s, e))
  {}

  lemma TasksKept(ttl: nat, s: State, e: Event)
    requires StampsInv(s) && TasksInv(s) && Enabled(s, e)
    ensures TasksInv(Apply(ttl, s, e))
  {}

  lemma CacheKept(ttl: nat, s: State, e: Event)
    requires Inv(ttl, s) && Enabled(s, e)
    ensures CacheInv(ttl, Apply(ttl, s, e))
  {}

  lemma Reachable(ttl: nat, evs: seq<Event>)
    requires Legal(System(ttl), INITIAL, evs)
    ensures Inv(ttl, After(System(ttl), INITIAL, evs))
  {
    forall s, e | Inv(ttl, s) && Enabled(s, e)
      ensures Inv(ttl, Apply(ttl, s, e))
    {
      StampsKept(ttl, s, e);
      TasksKept(ttl, s, e);
      CacheKept(ttl, s, e);
    }
    Invariant(System(ttl), s => Inv(ttl, s), INITIAL, evs);
  }

  /** In every reachable state, an entry for a revoked key was written by a task that read or
      saved the row before the revocation; and either no remover has deleted the entry since
      the revocation, or the entry was written after the latest such delete. */
  lemma StaleEntryOrigin(ttl: nat, evs: seq<Event>, h: KeyHash)
    requires Legal(System(ttl), INITIAL, evs)
    ensures var s := After(System(ttl), INITIAL, evs);
            h in s.cache && Revoked(s, h) ==>
              && h in s.revokedAt && s.cache[h].read < s.revokedAt[h]
              && (h !in s.deletedAt || s.deletedAt[h] < s.cache[h].written)
  {
    Reachable(ttl, evs);
  }

  // ---- Expiry ----

  /** Every entry, and every entry about to be written, is that of the key's row as it was saved. */
  predicate EntriesInv(s: State) {
    && (forall h :: h in s.cache ==> h in s.rows && s.cache[h].entry == s.rows[h].entry)
    && (forall id :: id in s.tasks && s.tasks[id].Caching? ==>
          s.tasks[id].h in s.rows && s.tasks[id].entry == s.rows[s.tasks[id].h].entry)
  }

  lemma EntriesKept(ttl: nat, s: State, e: Event)
    requires EntriesInv(s) && Enabled(s, e)
    ensures EntriesInv(Apply(ttl, s, e))
  {}

  /** In every reachable state, a step that lets a request through by key h finds the key's row, and
      the row's expiry, if it has one, is not before now; and h is the key that request brought. */
  lemma ExpiredNeverGranted(ttl: nat, evs: seq<Event>, e: Event, h: KeyHash)
    requires Legal(System(ttl), INITIAL, evs) && Grants(After(System(ttl), INITIAL, evs), e, h)
    ensures var s := After(System(ttl), INITIAL, evs);
            && h in s.rows && (s.rows[h].entry.expiresAt.Some? ==> s.now <= s.rows[h].entry.expiresAt.value)
            && (e.ReadCache? || e.ReadRow?) && e.id in s.tasks
            && s.tasks[e.id] == if e.ReadCache? then Looking(h) else Missed(h)
  {
    forall s, f | EntriesInv(s) && Enabled(s, f)
      ensures EntriesInv(Apply(ttl, s, f))
    {
      EntriesKept(ttl, s, f);
    }
    Invariant(System(ttl), s => EntriesInv(s), INITIAL, evs);
  }

  /** And an unexpired key with a readable entry, or with an active row where the entry is missing,
      is let through. */
  lemma UnexpiredIsGranted(ttl: nat, evs: seq<Event>, e: Event, h: KeyHash)
    requires Legal(System(ttl), INITIAL, evs) && Enabled(After(System(ttl), INITIAL, evs), e)
    requires e.ReadCache? || e.ReadRow?
    requires var s := After(System(ttl), INITIAL, evs);
             && s.tasks[e.id].h == h && (if e.ReadCache? then Cached(s, h) else Active(s, h))
             && h in s.rows && (s.rows[h].entry.expiresAt.Some? ==> s.now <= s.rows[h].entry.expiresAt.value)
    ensures Grants(After(System(ttl), INITIAL, evs), e, h)
  {
    forall s, f | EntriesInv(s) && Enabled(s, f)
      ensures EntriesInv(Apply(ttl, s, f))
    {
      EntriesKept(ttl, s, f);
    }
    Invariant(System(ttl), s => EntriesInv(s), INITIAL, evs);
  }

  // ---- Tasks ----

  /** The step a task in flight waits for. */
  function NextStep(id: nat, t: Task): Event {
    match t
    case Caching(_, _, _) => SetEntry(id)
    case Looking(_) => ReadCache(id)
    case Missed(_) => ReadRow(id)
    case Fetching(_) => ReadForRemove(id)
    case Revoking(_) => SaveRevoked(id)
    case Deleting(_) => DeleteEntry(id)
  }

  /** A step of a task in flight is possible exactly when it is the one the task waits for, or its
      death; requests can start, entries be lost and time pass at any moment. */
  lemma OwnStepsOnly(s: State, id: nat, h: KeyHash, entry: CachedKey, ms: nat)
    ensures forall e :: e in [SetEntry(id), ReadCache(id), ReadRow(id), ReadForRemove(id), SaveRevoked(id),
                              DeleteEntry(id)] ==>
              (Enabled(s, e) <==> id in s.tasks && e == NextStep(id, s.tasks[id]))
    ensures Enabled(s, Crash(id)) <==> id in s.tasks
    ensures Enabled(s, StartValidate(id, h)) <==> id !in s.tasks
    ensures Enabled(s, StartRemove(id, h)) <==> id !in s.tasks
    ensures Enabled(s, SaveNew(id, h, entry)) <==> id !in s.tasks && h !in s.rows
    ensures Enabled(s, Event.Evict(h)) && Enabled(s, Tick(ms))
  {}

  /** What the world does on its own: time passes, Redis loses an entry, and a task dies. */
  lemma TimeAndLoss(ttl: nat, s: State, h: KeyHash, ms: nat, id: nat)
    ensures Apply(ttl, s, Tick(ms)) == s.(now := s.now + ms, step := s.step + 1)
    ensures Apply(ttl, s, Event.Evict(h)) == s.(cache := s.cache - {h}, step := s.step + 1)
    ensures id in s.tasks ==> Apply(ttl, s, Crash(id)) == s.(tasks := s.tasks - {id}, step := s.step + 1)
  {}

  // ---- Uninterrupted, a request does what its specification says ----

  /** The same table and the same cache entries as in the one-at-a-time model. */
  predicate Mirrors(s: State, k: KeyState) {
    && Indexed(k) && TableMirrors(s.rows, k.rows, k.byHash) && s.cache.Keys == k.cache.Keys
    && (forall h :: h in s.cache ==> k.cache[h] == Cell(s.cache[h].entry, s.cache[h].expiresAt))
  }

  predicate TableMirrors(rows: map<KeyHash, Row>, table: map<nat, KeyRow>, byHash: map<KeyHash, nat>) {
    && rows.Keys == byHash.Keys
    && forall h :: h in rows ==>
         byHash[h] in table && rows[h] == Row(table[byHash[h]].isActive, ApiKeys.Entry(table[byHash[h]]))
  }

  lemma ReplacedIndexed(k: KeyState, row: KeyRow)
    requires Indexed(k) && row.id in k.rows && row.hash == k.rows[row.id].hash
    ensures Indexed(k.(rows := k.rows[row.id := row]))
  {}

  /** Rewriting a row under its own id and hash. */
  lemma MirrorsReplace(rows: map<KeyHash, Row>, k: KeyState, row: KeyRow)
    requires Indexed(k) && TableMirrors(rows, k.rows, k.byHash) && row.id in k.rows && row.hash == k.rows[row.id].hash
    ensures Indexed(k.(rows := k.rows[row.id := row]))
    ensures TableMirrors(rows[row.hash := Row(row.isActive, ApiKeys.Entry(row))], k.rows[row.id := row], k.byHash)
  {
    ReplacedIndexed(k, row);
    forall g | g in rows && g != row.hash
      ensures k.byHash[g] != row.id
    {}
  }

  lemma MirrorsMark(s: State, k: KeyState, id: nat)
    requires Mirrors(s, k)
    ensures Mirrors(s, Mark(k, id, s.now))
  {
    if id in k.rows {
      var row := k.rows[id].(lastUsedAt := Some(s.now));
      assert s.rows == s.rows[row.hash := Row(row.isActive, ApiKeys.Entry(row))];
      MirrorsReplace(s.rows, k, row);
    }
  }

  lemma MirrorsPut(ttl: nat, s: State, k: KeyState, h: KeyHash, entry: CachedKey, s': State)
    requires Mirrors(s, k) && s'.rows == s.rows && s'.cache.Keys == s.cache.Keys + {h}
    requires forall g :: g in s.cache && g != h ==> s'.cache[g] == s.cache[g]
    requires s'.cache[h].entry == entry && s'.cache[h].expiresAt == Expiry(ttl, s.now)
    ensures Mirrors(s', k.(cache := Put(k.cache, h, entry, ttl, s.now)))
  {}

  /** The two steps of a validation that end it in the cache, or show that it must go to the table. */
  lemma ValidateStarts(ttl: nat, s: State, id: nat, h: KeyHash) returns (t: State)
    requires id !in s.tasks
    ensures Leads(System(ttl), s, [StartValidate(id, h)], Apply(ttl, s, StartValidate(id, h)))
    ensures Leads(System(ttl), s, [StartValidate(id, h)] + [ReadCache(id)], t)
    ensures t == s.(tasks := if Cached(s, h) then s.tasks else s.tasks[id := Missed(h)], step := s.step + 2)
    ensures Grants(After(System(ttl), s, [StartValidate(id, h)]), ReadCache(id), h)
            <==> Cached(s, h) && !HasExpired(s.cache[h].entry.expiresAt, s.now)
  {
    var s1 := Apply(ttl, s, StartValidate(id, h));
    t := Apply(ttl, s1, ReadCache(id));
    One(System(ttl), s, StartValidate(id, h));
    Chain2(ttl, s, StartValidate(id, h), ReadCache(id));
    if Cached(s, h) { assert s1.tasks - {id} == s.tasks; }
  }

  /** Then the table: a granted key that names its organization goes back into the cache. */
  lemma ValidateReadsRow(ttl: nat, s: State, id: nat, h: KeyHash) returns (evs: seq<Event>, t: State)
    requires id in s.tasks && s.tasks[id] == Missed(h)
    ensures evs != [] && evs[0] == ReadRow(id) && Leads(System(ttl), s, evs, t)
    ensures |evs| == 2 ==> evs[1] == SetEntry(id)
    ensures |evs| <= 2
    ensures var refill := Grants(s, ReadRow(id), h) && s.rows[h].entry.org != "";
            && t.rows == s.rows && t.tasks == s.tasks - {id} && t.now == s.now
            && (if refill then
                  && t.cache.Keys == s.cache.Keys + {h}
                  && (forall g :: g in s.cache && g != h ==> t.cache[g] == s.cache[g])
                  && t.cache[h].entry == s.rows[h].entry && t.cache[h].expiresAt == Expiry(ttl, s.now)
                else t.cache == s.cache)
  {
    One(System(ttl), s, ReadRow(id));
    evs, t := [ReadRow(id)], Apply(ttl, s, ReadRow(id));
    if Grants(s, ReadRow(id), h) && s.rows[h].entry.org != "" {
      Chain2(ttl, s, ReadRow(id), SetEntry(id));
      evs, t := [ReadRow(id)] + [SetEntry(id)], Apply(ttl, t, SetEntry(id));
    }
  }

  /** A validation that no other step interrupts leaves the table and the cache as `ApiKeys.Lookup`
      does, and the read that decides grants the key exactly when `Lookup` does. */
  lemma AloneIsValidate(ttl: nat, s: State, k: KeyState, id: nat, h: KeyHash) returns (evs: seq<Event>, i: nat)
    requires Mirrors(s, k) && id !in s.tasks
    ensures Legal(System(ttl), s, evs) && i < |evs|
    ensures var s' := After(System(ttl), s, evs);
            Mirrors(s', ApiKeys.Lookup(k, h, ttl, s.now).1) && s'.tasks == s.tasks && s'.now == s.now
    ensures ApiKeys.Lookup(k, h, ttl, s.now).0.Granted? <==> Grants(After(System(ttl), s, evs[..i]), evs[i], h)
  {
    var start := [StartValidate(id, h)] + [ReadCache(id)];
    var t := ValidateStarts(ttl, s, id, h);
    assert start[..1] == [StartValidate(id, h)];
    SameMirror(s, t, k);
    if Cached(s, h) {
      AloneHit(ttl, t, k, h);
      evs, i := start, 1;
    } else {
      evs := AloneReadsRow(ttl, s, t, k, id, h);
      i := 2;
    }
  }

  lemma AloneReadsRow(ttl: nat, s: State, t: State, k: KeyState, id: nat, h: KeyHash) returns (evs: seq<Event>)
    requires Leads(System(ttl), s, [StartValidate(id, h)] + [ReadCache(id)], t) && Mirrors(t, k) && !Cached(t, h)
    requires id !in s.tasks && t == s.(tasks := s.tasks[id := Missed(h)], step := s.step + 2)
    ensures Legal(System(ttl), s, evs) && |evs| > 2
    ensures var s' := After(System(ttl), s, evs);
            Mirrors(s', ApiKeys.Lookup(k, h, ttl, s.now).1) && s'.tasks == s.tasks && s'.now == s.now
    ensures ApiKeys.Lookup(k, h, ttl, s.now).0.Granted? <==> Grants(After(System(ttl), s, evs[..2]), evs[2], h)
  {
    var start := [StartValidate(id, h)] + [ReadCache(id)];
    var rest, u := ValidateReadsRow(ttl, t, id, h);
    LeadOn(System(ttl), s, start, t, rest, u);
    evs := start + rest;
    assert evs[..2] == start && evs[2] == rest[0];
    assert u.tasks == s.tasks;
    AloneMiss(ttl, t, u, k, id, h);
  }

  lemma SameMirror(s: State, t: State, k: KeyState)
    requires Mirrors(s, k) && t.rows == s.rows && t.cache == s.cache
    ensures Mirrors(t, k)
  {}

  lemma AloneHit(ttl: nat, t: State, k: KeyState, h: KeyHash)
    requires Mirrors(t, k) && Cached(t, h)
    ensures Mirrors(t, ApiKeys.Lookup(k, h, ttl, t.now).1)
    ensures ApiKeys.Lookup(k, h, ttl, t.now).0.Granted? <==> !HasExpired(t.cache[h].entry.expiresAt, t.now)
  {
    assert Live(k.cache, h, t.now);
    MirrorsMark(t, k, k.cache[h].value.id);
  }

  lemma AloneMiss(ttl: nat, t: State, u: State, k: KeyState, id: nat, h: KeyHash)
    requires Mirrors(t, k) && !Cached(t, h) && id in t.tasks && t.tasks[id] == Missed(h) && u.rows == t.rows
    requires if Grants(t, ReadRow(id), h) && t.rows[h].entry.org != "" then
               && u.cache.Keys == t.cache.Keys + {h}
               && (forall g :: g in t.cache && g != h ==> u.cache[g] == t.cache[g])
               && u.cache[h].entry == t.rows[h].entry && u.cache[h].expiresAt == Expiry(ttl, t.now)
             else u.cache == t.cache
    ensures Mirrors(u, ApiKeys.Lookup(k, h, ttl, t.now).1)
    ensures Grants(t, ReadRow(id), h) <==> ApiKeys.Lookup(k, h, ttl, t.now).0.Granted?
  {
    assert !Live(k.cache, h, t.now);
    assert Grants(t, ReadRow(id), h) <==> DirectLookup(k, h, t.now).Granted?;
    if Grants(t, ReadRow(id), h) && t.rows[h].entry.org != "" {
      var marked := Mark(k, k.byHash[h], t.now);
      MirrorsMark(t, k, k.byHash[h]);
      MirrorsPut(ttl, t, marked, h, t.rows[h].entry, u);
    }
  }

  /** So a creation leaves what `ApiKeys.Created` says. */
  lemma AloneIsCreate(ttl: nat, s: State, k: KeyState, id: nat, row: KeyRow)
    requires Mirrors(s, k) && id !in s.tasks && row.isActive && row.hash !in k.byHash && row.id !in k.rows
    ensures var evs := [SaveNew(id, row.hash, ApiKeys.Entry(row))] + [SetEntry(id)];
            var s' := After(System(ttl), s, evs);
            Legal(System(ttl), s, evs) && Mirrors(s', ApiKeys.Created(k, row, ttl, s.now)) && s'.tasks == s.tasks
  {
    var s1, s2 := CreateRuns(ttl, s, id, row.hash, ApiKeys.Entry(row));
    MirrorsSave(s, k, row, s1);
    MirrorsPut(ttl, s1, k.(rows := k.rows[row.id := row], byHash := k.byHash[row.hash := row.id]), row.hash,
               ApiKeys.Entry(row), s2);
  }

  lemma CreateRuns(ttl: nat, s: State, id: nat, h: KeyHash, entry: CachedKey) returns (s1: State, s2: State)
    requires id !in s.tasks && h !in s.rows
    ensures Leads(System(ttl), s, [SaveNew(id, h, entry)] + [SetEntry(id)], s2)
    ensures s1.cache == s.cache && s1.rows == s.rows[h := Row(true, entry)] && s1.now == s.now
    ensures s2.rows == s1.rows && s2.tasks == s.tasks && s2.cache.Keys == s1.cache.Keys + {h}
    ensures forall g :: g in s1.cache && g != h ==> s2.cache[g] == s1.cache[g]
    ensures s2.cache[h].entry == entry && s2.cache[h].expiresAt == Expiry(ttl, s1.now)
  {
    s1 := Apply(ttl, s, SaveNew(id, h, entry));
    s2 := Apply(ttl, s1, SetEntry(id));
    Chain2(ttl, s, SaveNew(id, h, entry), SetEntry(id));
    assert s2.tasks == s.tasks;
  }

  lemma MirrorsSave(s: State, k: KeyState, row: KeyRow, t: State)
    requires Mirrors(s, k) && row.isActive && row.hash !in k.byHash && row.id !in k.rows
    requires t.cache == s.cache && t.rows == s.rows[row.hash := Row(true, ApiKeys.Entry(row))]
    ensures Mirrors(t, k.(rows := k.rows[row.id := row], byHash := k.byHash[row.hash := row.id]))
  {
    var k' := k.(rows := k.rows[row.id := row], byHash := k.byHash[row.hash := row.id]);
    SavedIndexed(k, row);
    assert t.rows.Keys == k'.byHash.Keys;
    forall h | h in t.rows
      ensures t.rows[h] == Row(k'.rows[k'.byHash[h]].isActive, ApiKeys.Entry(k'.rows[k'.byHash[h]]))
    {
      if h != row.hash { assert h in s.rows && k'.byHash[h] != row.id; }
    }
  }

  lemma SavedIndexed(k: KeyState, row: KeyRow)
    requires Indexed(k) && row.hash !in k.byHash && row.id !in k.rows
    ensures Indexed(k.(rows := k.rows[row.id := row], byHash := k.byHash[row.hash := row.id]))
  {}

  /** And a removal what `ApiKeys.Remove` says. */
  lemma AloneIsRemove(ttl: nat, s: State, k: KeyState, id: nat, h: KeyHash) returns (evs: seq<Event>)
    requires Mirrors(s, k) && id !in s.tasks && h in s.rows
    ensures Legal(System(ttl), s, evs) && evs != []
    ensures var row := k.rows[k.byHash[h]];
            var s' := After(System(ttl), s, evs);
            Mirrors(s', ApiKeys.Remove(k, row.org, row.id).1) && s'.tasks == s.tasks
  {
    if Active(s, h) {
      evs := RemoveRuns(ttl, s, id, h);
      MirrorsRemove(s, k, h, After(System(ttl), s, evs));
    } else {
      Chain2(ttl, s, StartRemove(id, h), ReadForRemove(id));
      evs := [StartRemove(id, h)] + [ReadForRemove(id)];
      assert After(System(ttl), s, evs).tasks == s.tasks;
    }
  }

  lemma RemoveRuns(ttl: nat, s: State, id: nat, h: KeyHash) returns (evs: seq<Event>)
    requires id !in s.tasks && Active(s, h)
    ensures Legal(System(ttl), s, evs) && evs != []
    ensures var t := After(System(ttl), s, evs);
            && t.tasks == s.tasks && t.cache == s.cache - {h} && t.rows == s.rows[h := s.rows[h].(active := false)]
  {
    var a, b, c, d := StartRemove(id, h), ReadForRemove(id), SaveRevoked(id), DeleteEntry(id);
    var s1 := Apply(ttl, s, a);
    var s2 := Apply(ttl, s1, b);
    var s3 := Apply(ttl, s2, c);
    Chain2(ttl, s, a, b);
    Extend(System(ttl), s, [a] + [b], s2, c);
    Extend(System(ttl), s, [a] + [b] + [c], s3, d);
    evs := [a] + [b] + [c] + [d];
  }

  lemma MirrorsRemove(s: State, k: KeyState, h: KeyHash, t: State)
    requires Mirrors(s, k) && Active(s, h)
    requires t.cache == s.cache - {h} && t.rows == s.rows[h := s.rows[h].(active := false)]
    ensures var row := k.rows[k.byHash[h]]; Mirrors(t, ApiKeys.Remove(k, row.org, row.id).1)
  {
    var row := k.rows[k.byHash[h]].(isActive := false);
    MirrorsReplace(s.rows, k, row);
  }

  // ---- When revocation has taken hold for good ----

  /** Tasks about to write an entry for h. */
  predicate Held(s: State, h: KeyHash) {
    exists id :: id in s.tasks && s.tasks[id].Caching? && s.tasks[id].h == h
  }

  predicate Dead(s: State, h: KeyHash) {
    Revoked(s, h) && !Held(s, h) && !Cached(s, h)
  }

  lemma NoNewHolder(ttl: nat, s: State, e: Event, h: KeyHash)
    requires Enabled(s, e) && Revoked(s, h) && !Held(s, h)
    ensures var s' := Apply(ttl, s, e);
            && Revoked(s', h) && !Held(s', h) && s.now <= s'.now
            && (h in s'.cache ==> h in s.cache && s'.cache[h] == s.cache[h])
  {
    var s' := Apply(ttl, s, e);
    forall id | id in s'.tasks && s'.tasks[id].Caching?
      ensures s'.tasks[id].h != h
    {
      if id in s.tasks && s.tasks[id] == s'.tasks[id] { assert s.tasks[id].h != h; }
    }
    if e.SetEntry? { assert s.tasks[e.id].h != h; }
  }

  /** A revoked key with no holder in flight and no live entry never authenticates again. */
  lemma {:induction false} DeadForever(ttl: nat, s: State, evs: seq<Event>, h: KeyHash)
    requires Dead(s, h) && Legal(System(ttl), s, evs)
    ensures Dead(After(System(ttl), s, evs), h)
    ensures forall i :: 0 <= i < |evs| ==> !Grants(After(System(ttl), s, evs[..i]), evs[i], h)
    decreases |evs|
  {
    if evs != [] {
      var s1 := Apply(ttl, s, evs[0]);
      NoNewHolder(ttl, s, evs[0], h);
      DeadForever(ttl, s1, evs[1..], h);
      forall i | 0 <= i < |evs|
        ensures !Grants(After(System(ttl), s, evs[..i]), evs[i], h)
      {
        if i > 0 {
          assert evs[..i][1..] == evs[1..][..i - 1] && evs[i] == evs[1..][i - 1];
          assert After(System(ttl), s, evs[..i]) == After(System(ttl), s1, evs[1..][..i - 1]);
        }
      }
    }
  }

  lemma {:induction false} EntriesOnlyAge(ttl: nat, s: State, evs: seq<Event>, h: KeyHash)
    requires Revoked(s, h) && !Held(s, h) && Legal(System(ttl), s, evs)
    ensures var s' := After(System(ttl), s, evs);
            Revoked(s', h) && !Held(s', h) && (h in s'.cache ==> h in s.cache && s'.cache[h] == s.cache[h])
    decreases |evs|
  {
    if evs != [] {
      NoNewHolder(ttl, s, evs[0], h);
      EntriesOnlyAge(ttl, Apply(ttl, s, evs[0]), evs[1..], h);
    }
  }

  /** Once a key is revoked and nothing in flight still holds its row, one cache TTL later it is
      dead, whatever else has happened, crashes of its remover included; unless the TTL is 0. */
  lemma RevocationTakesHold(ttl: nat, before: seq<Event>, later: seq<Event>, h: KeyHash)
    requires ttl > 0 && TtlHasPassed(ttl, before, later, h)
    ensures Dead(After(System(ttl), INITIAL, before + later), h)
  {
    Join(System(ttl), INITIAL, before, later);
    Reachable(ttl, before);
    EntriesOnlyAge(ttl, After(System(ttl), INITIAL, before), later, h);
  }

  /** From that moment no validation of the key ever succeeds again. */
  lemma RevokedKeyNeverGrants(ttl: nat, before: seq<Event>, later: seq<Event>, after: seq<Event>, h: KeyHash)
    requires ttl > 0 && TtlHasPassed(ttl, before, later, h) && Legal(System(ttl), INITIAL, before + later + after)
    ensures forall i :: 0 <= i < |after| ==>
              !Grants(After(System(ttl), INITIAL, before + later + after[..i]), after[i], h)
  {
    Join(System(ttl), INITIAL, before + later, after);
    RevocationTakesHold(ttl, before, later, h);
    DeadForever(ttl, After(System(ttl), INITIAL, before + later), after, h);
    forall i | 0 <= i < |after|
      ensures !Grants(After(System(ttl), INITIAL, before + later + after[..i]), after[i], h)
    {
      Join(System(ttl), INITIAL, before + later, after[..i]);
    }
  }

  /** The remover's delete is enough, with no waiting at all, exactly when no task in flight
      holds the row: any holder can still bring the entry back, and validation with it. */
  lemma DeleteIsFinalIff(ttl: nat, s: State, d: nat, h: KeyHash)
    requires Inv(ttl, s) && Enabled(s, DeleteEntry(d)) && s.tasks[d].h == h
    ensures (forall evs :: Legal(System(ttl), s, [DeleteEntry(d)] + evs) ==>
               !Cached(After(System(ttl), s, [DeleteEntry(d)] + evs), h))
            <==> !Held(s, h)
  {
    var e := DeleteEntry(d);
    var s1 := Apply(ttl, s, e);
    One(System(ttl), s, e);
    if !Held(s, h) {
      forall evs | Legal(System(ttl), s, [e] + evs)
        ensures !Cached(After(System(ttl), s, [e] + evs), h)
      {
        Join(System(ttl), s, [e], evs);
        NoNewHolder(ttl, s, e, h);
        EntriesOnlyAge(ttl, s1, evs, h);
      }
    } else {
      var id :| id in s.tasks && s.tasks[id].Caching? && s.tasks[id].h == h;
      One(System(ttl), s1, SetEntry(id));
      Join(System(ttl), s, [e], [SetEntry(id)]);
      assert Cached(After(System(ttl), s, [e] + [SetEntry(id)]), h);
    }
  }

  // ---- Runs in which a revoked key is granted ----

  lemma Chain2(ttl: nat, s: State, a: Event, b: Event)
    requires Enabled(s, a) && Enabled(Apply(ttl, s, a), b)
    ensures Leads(System(ttl), s, [a] + [b], Apply(ttl, Apply(ttl, s, a), b))
  {
    One(System(ttl), s, a);
    Extend(System(ttl), s, [a], Apply(ttl, s, a), b);
  }

  /** A key that was created and cached, or only saved, and whose remover has saved the row. */
  lemma RemoverSaves(ttl: nat, s: State, h: KeyHash)
    requires 1 !in s.tasks && Active(s, h)
    ensures var evs := [StartRemove(1, h)] + [ReadForRemove(1)] + [SaveRevoked(1)];
            && Legal(System(ttl), s, evs)
            && var t := After(System(ttl), s, evs);
               && t.tasks == s.tasks[1 := Deleting(h)] && t.cache == s.cache && t.now == s.now
               && Revoked(t, h) && t.rows[h].entry == s.rows[h].entry
  {
    var a, b, c := StartRemove(1, h), ReadForRemove(1), SaveRevoked(1);
    var s1 := Apply(ttl, s, a);
    var s2 := Apply(ttl, s1, b);
    assert s1.tasks[1] == Fetching(h) && s2.tasks[1] == Revoking(h);
    Chain2(ttl, s, a, b);
    Extend(System(ttl), s, [a] + [b], s2, c);
    assert Apply(ttl, s2, c).tasks == s.tasks[1 := Deleting(h)];
  }

  lemma ValidatorReads(ttl: nat, s: State, h: KeyHash)
    requires 2 !in s.tasks && Cached(s, h) && !HasExpired(s.cache[h].entry.expiresAt, s.now)
    ensures Legal(System(ttl), s, [StartValidate(2, h)] + [ReadCache(2)])
    ensures Grants(After(System(ttl), s, [StartValidate(2, h)]), ReadCache(2), h)
  {
    Chain2(ttl, s, StartValidate(2, h), ReadCache(2));
    One(System(ttl), s, StartValidate(2, h));
  }

  /** The failing side of `DeleteIsFinalIff` is reached from the start: a key is saved, its remover
      runs to the end, and only then does its creator cache it; the revoked key is granted. */
  lemma RevokedKeyGranted(ttl: nat, h: KeyHash, entry: CachedKey) returns (evs: seq<Event>)
    requires entry.expiresAt.None?
    ensures Legal(System(ttl), INITIAL, evs + [ReadCache(2)])
    ensures var s := After(System(ttl), INITIAL, evs); Revoked(s, h) && h in s.deletedAt && Grants(s, ReadCache(2), h)
  {
    var s1 := Apply(ttl, INITIAL, SaveNew(0, h, entry));
    One(System(ttl), INITIAL, SaveNew(0, h, entry));
    RemoverSaves(ttl, s1, h);
    var removal := [StartRemove(1, h)] + [ReadForRemove(1)] + [SaveRevoked(1)];
    var s2 := After(System(ttl), s1, removal);
    LeadOn(System(ttl), INITIAL, [SaveNew(0, h, entry)], s1, removal, s2);
    var a := [SaveNew(0, h, entry)] + removal;
    var s3, s4 := LateSet(ttl, s2, h, entry);
    LeadOn(System(ttl), INITIAL, a, s2, [DeleteEntry(1)] + [SetEntry(0)], s4);
    a := a + ([DeleteEntry(1)] + [SetEntry(0)]);
    ValidatorReads(ttl, s4, h);
    Join(System(ttl), INITIAL, a, [StartValidate(2, h)] + [ReadCache(2)]);
    Join(System(ttl), INITIAL, a, [StartValidate(2, h)]);
    evs := a + [StartValidate(2, h)];
    assert evs + [ReadCache(2)] == a + ([StartValidate(2, h)] + [ReadCache(2)]);
  }

  lemma LateSet(ttl: nat, s: State, h: KeyHash, entry: CachedKey) returns (s1: State, s2: State)
    requires 0 in s.tasks && s.tasks[0].Caching? && s.tasks[0].h == h && s.tasks[0].entry == entry
    requires 1 in s.tasks && s.tasks[1] == Deleting(h) && 2 !in s.tasks && Revoked(s, h)
    ensures Leads(System(ttl), s, [DeleteEntry(1)] + [SetEntry(0)], s2)
    ensures Revoked(s2, h) && h in s2.deletedAt && Cached(s2, h) && s2.cache[h].entry == entry && 2 !in s2.tasks
  {
    s1 := Apply(ttl, s, DeleteEntry(1));
    s2 := Apply(ttl, s1, SetEntry(0));
    Chain2(ttl, s, DeleteEntry(1), SetEntry(0));
  }

  /** With TTL 0 an entry whose remover crashed stays: the revoked key is granted ever after. */
  lemma ZeroTtlNeverForgets(h: KeyHash, entry: CachedKey, ms: nat) returns (evs: seq<Event>)
    requires entry.expiresAt.None?
    ensures Legal(System(0), INITIAL, evs)
    ensures var s := After(System(0), INITIAL, evs); Revoked(s, h) && s.tasks == map[] && Cached(s, h) && s.now == ms
  {
    var a := [SaveNew(0, h, entry)] + [SetEntry(0)];
    var s1 := Apply(0, Apply(0, INITIAL, SaveNew(0, h, entry)), SetEntry(0));
    Chain2(0, INITIAL, SaveNew(0, h, entry), SetEntry(0));
    assert s1.tasks == map[] && Cached(s1, h);
    RemoverSaves(0, s1, h);
    var removal := [StartRemove(1, h)] + [ReadForRemove(1)] + [SaveRevoked(1)];
    var s2 := After(System(0), s1, removal);
    LeadOn(System(0), INITIAL, a, s1, removal, s2);
    var s3 := Apply(0, Apply(0, s2, Crash(1)), Tick(ms));
    Chain2(0, s2, Crash(1), Tick(ms));
    LeadOn(System(0), INITIAL, a + removal, s2, [Crash(1)] + [Tick(ms)], s3);
    assert s3.tasks == map[];
    evs := a + removal + ([Crash(1)] + [Tick(ms)]);
  }

  /** Revocation takes hold after one TTL, in every run, exactly when the TTL is not 0. */
  lemma TakesHoldIff(ttl: nat, h: KeyHash)
    ensures (forall before, later :: TtlHasPassed(ttl, before, later, h) ==>
               Dead(After(System(ttl), INITIAL, before + later), h))
            <==> ttl > 0
  {
    if ttl > 0 {
      forall before, later | TtlHasPassed(ttl, before, later, h)
        ensures Dead(After(System(ttl), INITIAL, before + later), h)
      {
        RevocationTakesHold(ttl, before, later, h);
      }
    } else {
      var before := ZeroTtlNeverForgets(h, CachedKey(0, "", [], None), 0);
      assert before + [] == before;
      assert TtlHasPassed(ttl, before, [], h) && !Dead(After(System(ttl), INITIAL, before + []), h);
    }
  }

  /** After `before` the key was revoked with no holder in flight, and a TTL has gone by since. */
  predicate TtlHasPassed(ttl: nat, before: seq<Event>, later: seq<Event>, h: KeyHash) {
    && Legal(System(ttl), INITIAL, before + later)
    && var s := After(System(ttl), INITIAL, before);
       && Revoked(s, h) && !Held(s, h)
       && After(System(ttl), INITIAL, before + later).now >= s.now + 1000 * ttl
  }
}
