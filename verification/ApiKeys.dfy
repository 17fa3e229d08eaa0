/** `ApiKeyService` and `ApiKeyStrategy`: API keys, their lookup cache and the last-used throttle. */
module ApiKeys {
  import opened Wrappers
  import opened Ttl
  import opened Runs
  import opened Hashing

  type KeyHash = Hash<string>

  datatype KeyRow = KeyRow(id: nat, hash: KeyHash, org: string, scopes: seq<string>, isActive: bool,
                           expiresAt: Option<Instant>, lastUsedAt: Option<Instant>)

  datatype CachedKey = CachedKey(id: nat, org: string, scopes: seq<string>, expiresAt: Option<Instant>)

  /** The api_keys table with its index on key_hash, the `apikey:valid:` and `apikey:used:` keys. */
  datatype KeyState = KeyState(rows: map<nat, KeyRow>, byHash: map<KeyHash, nat>,
                               cache: Store<KeyHash, CachedKey>, used: Store<nat, string>)

  const LAST_USED_THROTTLE_SECONDS := 60

  datatype Reason = InvalidKey | Deactivated | Expired

  datatype Auth = NotApiKey | Unauthorized(reason: Reason) | Granted(org: string, scopes: seq<string>)

  predicate HasExpired(expiresAt: Option<Instant>, now: Instant) {
    expiresAt.Some? && expiresAt.value < now
  }

  /** The index mirrors the table. */
  predicate Indexed(s: KeyState) {
    && (forall h :: h in s.byHash ==> s.byHash[h] in s.rows && s.rows[s.byHash[h]].hash == h)
    && (forall id :: id in s.rows ==>
          s.rows[id].id == id && s.rows[id].hash in s.byHash && s.byHash[s.rows[id].hash] == id)
  }

  function Entry(row: KeyRow): CachedKey {
    CachedKey(row.id, row.org, row.scopes, row.expiresAt)
  }

  /** `markUsed`: the first use in a minute sets the marker, and with it admits the write of
      last_used_at, taken here as following at once. */
  function Mark(s: KeyState, id: nat, now: Instant): KeyState {
    if Live(s.used, id, now) then s
    else s.(used := Put(s.used, id, "1", LAST_USED_THROTTLE_SECONDS, now),
            rows := if id in s.rows then s.rows[id := s.rows[id].(lastUsedAt := Some(now))] else s.rows)
  }

  /** What validation must mean: the table alone decides. */
  function DirectLookup(s: KeyState, h: KeyHash, now: Instant): Auth
    requires Indexed(s)
  {
    if h !in s.byHash then Unauthorized(InvalidKey)
    else
      var row := s.rows[s.byHash[h]];
      if !row.isActive then Unauthorized(Deactivated)
      else if HasExpired(row.expiresAt, now) then Unauthorized(Expired)
      else Granted(row.org, row.scopes)
  }

  /** `validate` once the token is known to carry the prefix. */
  function Lookup(s: KeyState, h: KeyHash, ttl: nat, now: Instant): (Auth, KeyState)
    requires Indexed(s)
  {
    var cached := Get(s.cache, h, now);
    if cached.Some? then
      if HasExpired(cached.value.expiresAt, now) then (Unauthorized(Expired), s)
      else (Granted(cached.value.org, cached.value.scopes), Mark(s, cached.value.id, now))
    else
      var a := DirectLookup(s, h, now);
      if a.Granted? && a.org != "" then
        var row := s.rows[s.byHash[h]];
        var s1 := Mark(s, row.id, now);
        (a, s1.(cache := Put(s1.cache, h, Entry(row), ttl, now)))
      else (a, s)
  }

  function Validate(s: KeyState, prefix: string, token: Option<string>, ttl: nat, now: Instant): (Auth, KeyState)
    requires Indexed(s)
  {
    if token.None? || token.value == "" || !(prefix <= token.value) then (NotApiKey, s)
    else Lookup(s, Sha256(token.value), ttl, now)
  }

  function NewRow(id: nat, token: string, org: string, scopes: seq<string>, expiresAt: Option<Instant>): KeyRow {
    KeyRow(id, Sha256(token), org, scopes, true, expiresAt, None)
  }

  /** `create`: the row is saved, then cached. */
  function Created(s: KeyState, row: KeyRow, ttl: nat, now: Instant): KeyState {
    KeyState(s.rows[row.id := row], s.byHash[row.hash := row.id], Put(s.cache, row.hash, Entry(row), ttl, now), s.used)
  }

  datatype RemoveError = KeyNotFound | AlreadyRemoved

  /** `remove`: the row is deactivated, then its cache entry deleted. */
  function Remove(s: KeyState, org: string, id: nat): (Result<KeyRow, RemoveError>, KeyState) {
    if id !in s.rows || s.rows[id].org != org then (Err(KeyNotFound), s)
    else if !s.rows[id].isActive then (Err(AlreadyRemoved), s)
    else
      var row := s.rows[id].(isActive := false);
      (Ok(row), s.(rows := s.rows[id := row], cache := Del(s.cache, row.hash)))
  }

  function ActiveKeys(rows: map<nat, KeyRow>, org: string): set<nat> {
    set id | id in rows && rows[id].org == org && rows[id].isActive
  }

  datatype CreateError = OrganizationNotFound | OrganizationNotActive | TooManyKeys

  /** What `create` reads of the caller's organization. */
  datatype OrgInfo = OrgInfo(id: string, isActive: bool, maxApiKeys: int)

  class ApiKeyService {
    const prefix: string
    const ttl: nat
    var rows: map<nat, KeyRow>
    var byHash: map<KeyHash, nat>
    var cache: Store<KeyHash, CachedKey>
    var used: Store<nat, string>

    constructor (prefix: string, ttl: nat)
      ensures this.prefix == prefix && this.ttl == ttl && State() == KeyState(map[], map[], map[], map[])
    {
      this.prefix, this.ttl, rows, byHash, cache, used := prefix, ttl, map[], map[], map[], map[];
    }

    function State(): KeyState
      reads this
    {
      KeyState(rows, byHash, cache, used)
    }

    method MarkUsed(id: nat, now: Instant)
      modifies this`used, this`rows
      ensures State() == Mark(old(State()), id, now)
    {
      var first := !(id in used && Unexpired(used[id], now));
      if first {
        used := used[id := Cell("1", Some(now + 1000 * LAST_USED_THROTTLE_SECONDS))];
        if id in rows { rows := rows[id := rows[id].(lastUsedAt := Some(now))]; }
      }
    }

    method CacheValidKey(h: KeyHash, entry: CachedKey, now: Instant)
      modifies this`cache
      ensures cache == Put(old(cache), h, entry, ttl, now)
    {
      cache := cache[h := Cell(entry, if ttl != 0 then Some(now + 1000 * ttl) else None)];
    }

    /** `ApiKeyStrategy.validate`. */
    method Authenticate(token: Option<string>, now: Instant) returns (a: Auth)
      requires Indexed(State())
      modifies this
      ensures (a, State()) == Validate(old(State()), prefix, token, ttl, now)
    {
      if token.None? || token.value == "" || !(prefix <= token.value) { return NotApiKey; }
      var h := Sha256(token.value);
      if h in cache && Unexpired(cache[h], now) {
        var payload := cache[h].value;
        if HasExpired(payload.expiresAt, now) { return Unauthorized(Expired); }
        MarkUsed(payload.id, now);
        return Granted(payload.org, payload.scopes);
      }
      if h !in byHash { return Unauthorized(InvalidKey); }
      var row := rows[byHash[h]];
      if !row.isActive { return Unauthorized(Deactivated); }
      if HasExpired(row.expiresAt, now) { return Unauthorized(Expired); }
      if row.org != "" {
        MarkUsed(row.id, now);
        CacheValidKey(h, Entry(row), now);
      }
      a := Granted(row.org, row.scopes);
    }

    /** The token is fresh random text, the id the next of the table's sequence. */
    method Create(org: Option<OrgInfo>, token: string, id: nat, scopes: seq<string>, expiresAt: Option<Instant>,
                  now: Instant)
      returns (r: Result<string, CreateError>)
      requires Sha256(token) !in byHash && id !in rows
      modifies this
      ensures r ==
                if org.None? then Err(OrganizationNotFound)
                else if !org.value.isActive then Err(OrganizationNotActive)
                else if org.value.maxApiKeys != -1 && |ActiveKeys(old(rows), org.value.id)| >= org.value.maxApiKeys
                  then Err(TooManyKeys)
                else Ok(token)
      ensures r.Err? ==> State() == old(State())
      ensures r.Ok? ==>
                var row := KeyRow(id, Sha256(token), org.value.id, scopes, true, expiresAt, None);
                State() == Created(old(State()), row, ttl, now)
    {
      if org.None? { return Err(OrganizationNotFound); }
      if !org.value.isActive { return Err(OrganizationNotActive); }
      var active := |ActiveKeys(rows, org.value.id)|;
      if org.value.maxApiKeys != -1 && active >= org.value.maxApiKeys { return Err(TooManyKeys); }
      var row := NewRow(id, token, org.value.id, scopes, expiresAt);
      rows, byHash := rows[id := row], byHash[row.hash := id];
      CacheValidKey(row.hash, CachedKey(id, org.value.id, scopes, expiresAt), now);
      r := Ok(token);
    }

    method Revoke(org: string, id: nat) returns (r: Result<KeyRow, RemoveError>)
      modifies this
      ensures (r, State()) == Remove(old(State()), org, id)
    {
      if id !in rows || rows[id].org != org { return Err(KeyNotFound); }
      if !rows[id].isActive { return Err(AlreadyRemoved); }
      var row := rows[id].(isActive := false);
      rows := rows[id := row];
      cache := cache - {row.hash};
      r := Ok(row);
    }
  }

  // ---- One operation at a time: the cache is invisible ----

  datatype Op =
    | CreateKey(row: KeyRow, at: Instant)
    | RemoveKey(org: string, id: nat)
    | ValidateKey(h: KeyHash, at: Instant)
    | Evict(h: KeyHash)        // Redis may lose or expire any entry at any time
    | EvictUsed(id: nat)

  predicate Enabled(s: KeyState, op: Op) {
    Indexed(s) && (op.CreateKey? ==> op.row.hash !in s.byHash && op.row.id !in s.rows && op.row.isActive)
  }

  function Apply(ttl: nat, s: KeyState, op: Op): KeyState {
    if !Enabled(s, op) then s else
    match op
    case CreateKey(row, at) => Created(s, row, ttl, at)
    case RemoveKey(org, id) => Remove(s, org, id).1
    case ValidateKey(h, at) => Lookup(s, h, ttl, at).1
    case Evict(h) => s.(cache := Del(s.cache, h))
    case EvictUsed(id) => s.(used := Del(s.used, id))
  }

  /** What Redis does on its own: it loses the entry, or the marker, and nothing else. */
  lemma EntriesLost(ttl: nat, s: KeyState, h: KeyHash, id: nat)
    requires Indexed(s)
    ensures Apply(ttl, s, Evict(h)) == s.(cache := s.cache - {h})
    ensures Apply(ttl, s, EvictUsed(id)) == s.(used := s.used - {id})
  {}

  /** Every cache entry, expired or not, mirrors an active row. */
  predicate Coherent(s: KeyState) {
    Indexed(s) && forall h :: h in s.cache ==>
      h in s.byHash && s.rows[s.byHash[h]].isActive && s.cache[h].value == Entry(s.rows[s.byHash[h]])
  }

  lemma MarkKeeps(s: KeyState, id: nat, now: Instant)
    requires Coherent(s)
    ensures Coherent(Mark(s, id, now))
  {}

  lemma CreateKeeps(ttl: nat, s: KeyState, row: KeyRow, at: Instant)
    requires Coherent(s) && row.hash !in s.byHash && row.id !in s.rows && row.isActive
    ensures Coherent(Created(s, row, ttl, at))
  {}

  lemma RemoveKeeps(s: KeyState, org: string, id: nat)
    requires Coherent(s)
    ensures Coherent(Remove(s, org, id).1)
  {}

  lemma LookupKeeps(ttl: nat, s: KeyState, h: KeyHash, at: Instant)
    requires Coherent(s)
    ensures Coherent(Lookup(s, h, ttl, at).1)
  {
    if h in s.byHash { MarkKeeps(s, s.byHash[h], at); }
    if h in s.cache { MarkKeeps(s, s.cache[h].value.id, at); }
  }

  lemma StepKeeps(ttl: nat, s: KeyState, op: Op)
    requires Coherent(s) && Enabled(s, op)
    ensures Coherent(Apply(ttl, s, op))
  {
    match op
    case CreateKey(row, at) => CreateKeeps(ttl, s, row, at);
    case RemoveKey(org, id) => RemoveKeeps(s, org, id);
    case ValidateKey(h, at) => LookupKeeps(ttl, s, h, at);
    case _ =>
  }

  function Keyring(ttl: nat): Machine<KeyState, Op> {
    Machine((s, op) => Enabled(s, op), (s, op) => Apply(ttl, s, op))
  }

  /** After any run of creations, revocations and validations, whatever the cache has lost or
      kept, validating a token gives exactly the direct table lookup: organization, scopes,
      expiry and revocation alike. */
  lemma CacheInvisible(ttl: nat, ops: seq<Op>, h: KeyHash, now: Instant)
    requires Legal(Keyring(ttl), KeyState(map[], map[], map[], map[]), ops)
    ensures var s := After(Keyring(ttl), KeyState(map[], map[], map[], map[]), ops);
            Indexed(s) && Lookup(s, h, ttl, now).0 == DirectLookup(s, h, now)
  {
    forall s, op | Coherent(s) && Enabled(s, op)
      ensures Coherent(Apply(ttl, s, op))
    {
      StepKeeps(ttl, s, op);
    }
    Invariant(Keyring(ttl), s => Coherent(s), KeyState(map[], map[], map[], map[]), ops);
  }

  // ---- What the history of a key means for its holder ----

  function NextStanding(earlier: Option<KeyRow>, op: Op, h: KeyHash): Option<KeyRow> {
    match op
    case CreateKey(row, _) => if row.hash == h then Some(row) else earlier
    case RemoveKey(org, id) =>
      if earlier.Some? && earlier.value.id == id && earlier.value.org == org then None else earlier
    case _ => earlier
  }

  /** Reading the history alone: the key with this hash as it was created, unless it was removed. */
  function Standing(ops: seq<Op>, h: KeyHash): Option<KeyRow> {
    if ops == [] then None else NextStanding(Standing(ops[..|ops| - 1], h), ops[|ops| - 1], h)
  }

  /** The row of a standing key is as created, but for its last use; any other key is inactive or missing. */
  predicate Stands(s: KeyState, h: KeyHash, standing: Option<KeyRow>)
    requires Indexed(s)
  {
    if standing.None? then h in s.byHash ==> !s.rows[s.byHash[h]].isActive
    else
      && h in s.byHash && s.byHash[h] == standing.value.id
      && var row := s.rows[s.byHash[h]];
         && row.isActive && row.org == standing.value.org && row.scopes == standing.value.scopes
         && row.expiresAt == standing.value.expiresAt
  }

  lemma MarkStands(s: KeyState, id: nat, now: Instant, h: KeyHash, standing: Option<KeyRow>)
    requires Coherent(s) && Stands(s, h, standing)
    ensures Coherent(Mark(s, id, now)) && Stands(Mark(s, id, now), h, standing)
  {
    MarkKeeps(s, id, now);
  }

  lemma CreateStands(ttl: nat, s: KeyState, row: KeyRow, at: Instant, h: KeyHash, standing: Option<KeyRow>)
    requires Coherent(s) && Stands(s, h, standing) && row.hash !in s.byHash && row.id !in s.rows && row.isActive
    ensures Indexed(Created(s, row, ttl, at))
    ensures Stands(Created(s, row, ttl, at), h, if row.hash == h then Some(row) else standing)
  {
    CreateKeeps(ttl, s, row, at);
  }

  lemma RemoveStands(s: KeyState, org: string, id: nat, h: KeyHash, standing: Option<KeyRow>)
    requires Coherent(s) && Stands(s, h, standing)
    ensures Indexed(Remove(s, org, id).1)
    ensures Stands(Remove(s, org, id).1, h, NextStanding(standing, RemoveKey(org, id), h))
  {
    RemoveKeeps(s, org, id);
  }

  lemma LookupStands(ttl: nat, s: KeyState, g: KeyHash, at: Instant, h: KeyHash, standing: Option<KeyRow>)
    requires Coherent(s) && Stands(s, h, standing)
    ensures Indexed(Lookup(s, g, ttl, at).1) && Stands(Lookup(s, g, ttl, at).1, h, standing)
  {
    LookupKeeps(ttl, s, g, at);
    if g in s.byHash { MarkStands(s, s.byHash[g], at, h, standing); }
    if g in s.cache { MarkStands(s, s.cache[g].value.id, at, h, standing); }
  }

  lemma StandsNext(ttl: nat, s: KeyState, op: Op, h: KeyHash, standing: Option<KeyRow>)
    requires Coherent(s) && Stands(s, h, standing) && Enabled(s, op)
    ensures Indexed(Apply(ttl, s, op)) && Stands(Apply(ttl, s, op), h, NextStanding(standing, op, h))
  {
    match op
    case CreateKey(row, at) => CreateStands(ttl, s, row, at, h, standing);
    case RemoveKey(org, id) => RemoveStands(s, org, id, h, standing);
    case ValidateKey(g, at) => LookupStands(ttl, s, g, at, h, standing);
    case _ =>
  }

  lemma {:induction false} StandingIsRow(ttl: nat, ops: seq<Op>, h: KeyHash)
    requires Legal(Keyring(ttl), KeyState(map[], map[], map[], map[]), ops)
    ensures var s := After(Keyring(ttl), KeyState(map[], map[], map[], map[]), ops);
            Coherent(s) && Stands(s, h, Standing(ops, h))
  {
    if ops != [] {
      var n := |ops| - 1;
      var s0 := KeyState(map[], map[], map[], map[]);
      LastStep(Keyring(ttl), s0, ops);
      StandingIsRow(ttl, ops[..n], h);
      StandsNext(ttl, After(Keyring(ttl), s0, ops[..n]), ops[n], h, Standing(ops[..n], h));
      StepKeeps(ttl, After(Keyring(ttl), s0, ops[..n]), ops[n]);
    }
  }

  lemma DirectGrant(s: KeyState, h: KeyHash, standing: Option<KeyRow>, now: Instant)
    requires Indexed(s) && Stands(s, h, standing)
    ensures DirectLookup(s, h, now).Granted? <==>
              standing.Some? && (standing.value.expiresAt.Some? ==> now <= standing.value.expiresAt.value)
    ensures DirectLookup(s, h, now).Granted? ==>
            DirectLookup(s, h, now) == Granted(standing.value.org, standing.value.scopes)
    ensures standing.Some? && !DirectLookup(s, h, now).Granted? ==> DirectLookup(s, h, now) == Unauthorized(Expired)
  {}

  /** After any run and any evictions, a token is granted if and only if its key was created, was not
      removed, and has no expiry or one that is not before `now`; the answer carries the organization
      and the scopes it was created with. A standing key that is refused is refused as expired. */
  lemma GrantedIff(ttl: nat, ops: seq<Op>, h: KeyHash, now: Instant)
    requires Legal(Keyring(ttl), KeyState(map[], map[], map[], map[]), ops)
    ensures var s := After(Keyring(ttl), KeyState(map[], map[], map[], map[]), ops);
            var key := Standing(ops, h);
            && Indexed(s)
            && var answer := Lookup(s, h, ttl, now).0;
               && (answer.Granted? <==> key.Some? && (key.value.expiresAt.Some? ==> now <= key.value.expiresAt.value))
               && (answer.Granted? ==> answer == Granted(key.value.org, key.value.scopes))
               && (key.Some? && !answer.Granted? ==> answer == Unauthorized(Expired))
  {
    CacheInvisible(ttl, ops, h, now);
    StandingIsRow(ttl, ops, h);
    DirectGrant(After(Keyring(ttl), KeyState(map[], map[], map[], map[]), ops), h, Standing(ops, h), now);
  }

  /** A request is taken for another kind of credential, and changes nothing, exactly when it brings
      no token or one that does not begin with the configured prefix. */
  lemma NotApiKeyIff(s: KeyState, prefix: string, token: Option<string>, ttl: nat, now: Instant)
    requires Indexed(s)
    ensures Validate(s, prefix, token, ttl, now).0.NotApiKey? <==>
              token.None? || token.value == "" || |token.value| < |prefix| || token.value[..|prefix|] != prefix
    ensures Validate(s, prefix, token, ttl, now).0.NotApiKey? ==> Validate(s, prefix, token, ttl, now).1 == s
    ensures !Validate(s, prefix, token, ttl, now).0.NotApiKey? ==>
              Validate(s, prefix, token, ttl, now) == Lookup(s, Sha256(token.value), ttl, now)
  {}

  /** What a validation stores. A hit in the cache does not renew the entry; a key granted from the
      table, if it names an organization, is cached with its id, organization, scopes and expiry for
      the TTL; a refusal stores nothing. Both grants mark the use, once in sixty seconds. */
  lemma LookupStores(s: KeyState, h: KeyHash, ttl: nat, now: Instant)
    requires Indexed(s)
    ensures var (answer, s') := Lookup(s, h, ttl, now);
            var hit := h in s.cache && (s.cache[h].expiresAt.Some? ==> now < s.cache[h].expiresAt.value);
            var refill := !hit && answer.Granted? && answer.org != "";
            && s'.byHash == s.byHash
            && (!refill ==> s'.cache == s.cache)
            && (refill ==>
                  && h in s.byHash && MarksUse(s, s', s.byHash[h], now)
                  && var row := s.rows[s.byHash[h]];
                     s'.cache == s.cache[h := Cell(CachedKey(row.id, row.org, row.scopes, row.expiresAt),
                                                   if ttl == 0 then None else Some(now + 1000 * ttl))])
            && (hit && answer.Granted? ==> MarksUse(s, s', s.cache[h].value.id, now))
            && (!answer.Granted? || (!hit && !refill) ==> s' == s)
  {}

  /** A use is written down, with a marker for the next sixty seconds, unless a marker is live. */
  predicate MarksUse(s: KeyState, s': KeyState, id: nat, now: Instant) {
    if id in s.used && (s.used[id].expiresAt.Some? ==> now < s.used[id].expiresAt.value) then
      s'.used == s.used && s'.rows == s.rows
    else
      && s'.used == s.used[id := Cell("1", Some(now + 60000))]
      && s'.rows == if id in s.rows then s.rows[id := s.rows[id].(lastUsedAt := Some(now))] else s.rows
  }

  /** A removal needs an active key of that organization. It makes the row inactive, drops its cache
      entry, and changes nothing else; a refused one changes nothing. */
  lemma RemoveOutcome(s: KeyState, org: string, id: nat)
    ensures var (r, s') := Remove(s, org, id);
            var mine := id in s.rows && s.rows[id].org == org;
            && (r.Ok? <==> mine && s.rows[id].isActive)
            && (r == Err(AlreadyRemoved) <==> mine && !s.rows[id].isActive)
            && (r == Err(KeyNotFound) <==> !mine)
            && (r.Err? ==> s' == s)
            && (r.Ok? ==>
                  && s'.rows == s.rows[id := s.rows[id].(isActive := false)] && r.value == s'.rows[id]
                  && s'.cache == s.cache - {s.rows[id].hash} && s'.byHash == s.byHash && s'.used == s.used)
  {}

  // ---- The last-used throttle ----

  /** One use of some key at some instant. */
  datatype Use = Use(id: nat, at: Instant)

  predicate InOrder(uses: seq<Use>) {
    forall i, j :: 0 <= i < j < |uses| ==> uses[i].at <= uses[j].at
  }

  function UseAll(s: KeyState, uses: seq<Use>): KeyState {
    if uses == [] then s
    else Mark(UseAll(s, uses[..|uses| - 1]), uses[|uses| - 1].id, uses[|uses| - 1].at)
  }

  /** The instants at which a write of key `id`'s last_used_at was admitted, in order; the row itself
      is written after the marker's reply. */
  function Admissions(s: KeyState, uses: seq<Use>, id: nat): seq<Instant> {
    if uses == [] then []
    else
      var n := |uses| - 1;
      var u := uses[n];
      Admissions(s, uses[..n], id) + (if u.id == id && !Live(UseAll(s, uses[..n]).used, id, u.at) then [u.at] else [])
  }

  lemma {:induction false} LastAdmissionBlocks(s: KeyState, uses: seq<Use>, id: nat)
    requires id !in s.used && InOrder(uses)
    ensures var w, used := Admissions(s, uses, id), UseAll(s, uses).used;
            && (if w == [] then id !in used else id in used && used[id].expiresAt == Some(w[|w| - 1] + 60000))
            && (forall i :: 0 <= i < |w| ==> uses != [] && w[i] <= uses[|uses| - 1].at)
            && (forall i, j :: 0 <= i < j < |w| ==> w[j] - w[i] >= 60000 * (j - i))
  {
    if uses != [] { LastAdmissionBlocks(s, uses[..|uses| - 1], id); }
  }

  /** The row shows the latest admitted use, and is otherwise as it was. */
  lemma {:induction false} LastUsedIsLatest(s: KeyState, uses: seq<Use>, id: nat)
    requires id in s.rows
    ensures var w, rows := Admissions(s, uses, id), UseAll(s, uses).rows;
            && id in rows
            && rows[id] == s.rows[id].(lastUsedAt := if w == [] then s.rows[id].lastUsedAt else Some(w[|w| - 1]))
  {
    if uses != [] { LastUsedIsLatest(s, uses[..|uses| - 1], id); }
  }

  function Within(w: seq<Instant>, lo: Instant, hi: Instant): set<nat> {
    set i: nat | i < |w| && lo <= w[i] <= hi
  }

  /** Uses of all keys interleaved: writes for one key are admitted at least 60 seconds apart, so any
      interval of T seconds sees at most floor(T / 60) + 1 of them. */
  lemma LastUsedThrottle(s: KeyState, uses: seq<Use>, id: nat, lo: Instant, seconds: nat)
    requires id !in s.used && InOrder(uses)
    ensures var w := Admissions(s, uses, id);
            && (forall i, j :: 0 <= i < j < |w| ==> w[j] - w[i] >= 60000)
            && |Within(w, lo, lo + 1000 * seconds)| <= seconds / 60 + 1
  {
    LastAdmissionBlocks(s, uses, id);
    var w := Admissions(s, uses, id);
    var inside := Within(w, lo, lo + 1000 * seconds);
    forall i, j | 0 <= i < j < |w|
      ensures w[j] - w[i] >= 60000
    {
      assert w[j] - w[i] >= 60000 * (j - i);
    }
    if inside != {} {
      var least := Least(inside);
      forall j | j in inside
        ensures least <= j <= least + seconds / 60
      {
        if j != least { assert 60000 * (j - least) <= w[j] - w[least] <= 1000 * seconds; }
      }
      SpanCount(inside, least, seconds / 60);
    }
  }

  lemma {:induction false} Least(a: set<nat>) returns (m: nat)
    requires a != {}
    ensures m in a && forall i :: i in a ==> m <= i
    decreases |a|
  {
    var x :| x in a;
    if a == {x} { return x; }
    assert a == {x} + (a - {x});
    var y := Least(a - {x});
    m := if x <= y then x else y;
  }

  lemma {:induction false} SpanCount(a: set<nat>, lo: nat, n: nat)
    requires forall i :: i in a ==> lo <= i <= lo + n
    ensures |a| <= n + 1
    decreases n
  {
    var top := lo + n;
    if n == 0 {
      assert a <= {lo};
      if lo in a { assert a == {lo}; } else { assert a == {}; }
    } else {
      SpanCount(a - {top}, lo, n - 1);
      if top in a { assert a == (a - {top}) + {top}; } else { assert a - {top} == a; }
    }
  }
}
