/** `refresh` under concurrency: the user row and the stored hash are read, the hash deleted and a new
    pair issued in separate awaits, while other refreshes and all other operations go on. */
module RefreshRace {
  import opened Wrappers
  import opened Ttl
  import opened Hashing
  import opened Runs
  import opened Sessions

  /** Where a refresh with token t stands. */
  datatype Phase =
    | Verified(t: RefreshToken)                     // unexpired, its user active; the stored hash is next
    | Passed(t: RefreshToken)                       // the stored hash is t's; its deletion is next
    | Dropped(t: RefreshToken)                      // the new pair is next
    | Paired(t: RefreshToken, issued: RefreshToken)
    | Ended

  datatype Race = Race(s: State, tasks: map<nat, Phase>)

  datatype Event =
    | Verify(task: nat, t: RefreshToken, at: Instant)
    | ReadHash(task: nat, at: Instant)
    | Drop(task: nat)
    | Pair(task: nat, at: Instant)
    | Crash(task: nat)
    | Other(op: Op)                                 // login, logout, removal and the rest, each one step

  predicate Enabled(r: Race, e: Event) {
    match e
    case Verify(task, _, at) => task !in r.tasks && r.s.now <= at
    case ReadHash(task, at) => task in r.tasks && r.tasks[task].Verified? && r.s.now <= at
    case Drop(task) => task in r.tasks && r.tasks[task].Passed?
    case Pair(task, at) => task in r.tasks && r.tasks[task].Dropped? && r.s.now <= at
    case Crash(task) => task in r.tasks
    case Other(op) => !op.Refresh? && Sessions.Enabled(r.s, op)
  }

  /** The checks that do not read the stored hash. */
  predicate Verifies(cfg: Config, s: State, t: RefreshToken, at: Instant) {
    var id := t.claims.userId;
    && JwtValid(t.issuedAt + cfg.refreshLife, at)
    && id in s.users && s.users[id].org == t.claims.org && s.users[id].isActive
  }

  predicate HashMatches(s: State, t: RefreshToken, at: Instant) {
    Get(s.refresh, t.claims.userId, at) == Some(Sha256(t))
  }

  function NewState(cfg: Config, r: Race, e: Event): State
    requires Enabled(r, e)
  {
    match e
    case Verify(_, _, at) => r.s.(now := at)
    case ReadHash(_, at) => r.s.(now := at)
    case Drop(task) => r.s.(refresh := Del(r.s.refresh, r.tasks[task].t.claims.userId))
    case Pair(task, at) => Issued(cfg, r.s, r.tasks[task].t.claims, at).(now := at)
    case Crash(_) => r.s
    case Other(op) => Sessions.Apply(cfg, r.s, op)
  }

  function NewTasks(cfg: Config, r: Race, e: Event): map<nat, Phase>
    requires Enabled(r, e)
  {
    match e
    case Verify(task, t, at) => r.tasks[task := if Verifies(cfg, r.s, t, at) then Verified(t) else Ended]
    case ReadHash(task, at) =>
      var t := r.tasks[task].t;
      r.tasks[task := if HashMatches(r.s, t, at) then Passed(t) else Ended]
    case Drop(task) => r.tasks[task := Dropped(r.tasks[task].t)]
    case Pair(task, at) => r.tasks[task := Paired(r.tasks[task].t, Sign(r.tasks[task].t.claims, at))]
    case Crash(task) => r.tasks[task := Ended]
    case Other(_) => r.tasks
  }

  function Apply(cfg: Config, r: Race, e: Event): Race {
    if Enabled(r, e) then Race(NewState(cfg, r, e), NewTasks(cfg, r, e)) else r
  }

  function Server(cfg: Config): Machine<Race, Event> {
    Machine((r, e) => Enabled(r, e), (r, e) => Apply(cfg, r, e))
  }

  const START := Race(INITIAL, map[])

  // ---- Uninterrupted, the steps are `refresh` ----

  lemma ChecksAgree(cfg: Config, s: State, t: RefreshToken, at: Instant)
    ensures RefreshCheck(cfg, s, t, at).None? <==> Verifies(cfg, s, t, at) && HashMatches(s, t, at)
  {}

  /** A refresh that no other step interrupts does what `refresh` is specified to do. */
  lemma AloneIsRefresh(cfg: Config, r: Race, task: nat, t: RefreshToken, at: Instant) returns (evs: seq<Event>)
    requires task !in r.tasks && r.s.now <= at && RefreshCheck(cfg, r.s, t, at).None?
    ensures Legal(Server(cfg), r, evs) && After(Server(cfg), r, evs).s == Refreshed(cfg, r.s, t, at).(now := at)
  {
    ChecksAgree(cfg, r.s, t, at);
    var s1 := r.s.(now := at);
    var s2 := s1.(refresh := Del(s1.refresh, t.claims.userId));
    var r1 := Race(s1, r.tasks[task := Verified(t)]);
    var r2 := Race(s1, r.tasks[task := Passed(t)]);
    var r3 := Race(s2, r.tasks[task := Dropped(t)]);
    assert Apply(cfg, r, Verify(task, t, at)) == r1;
    assert Enabled(r1, ReadHash(task, at)) && Apply(cfg, r1, ReadHash(task, at)) == r2;
    assert Enabled(r2, Drop(task)) && Apply(cfg, r2, Drop(task)) == r3;
    One(Server(cfg), r, Verify(task, t, at));
    Extend(Server(cfg), r, [Verify(task, t, at)], r1, ReadHash(task, at));
    evs := [Verify(task, t, at)] + [ReadHash(task, at)];
    Extend(Server(cfg), r, evs, r2, Drop(task));
    evs := evs + [Drop(task)];
    Extend(Server(cfg), r, evs, r3, Pair(task, at));
    evs := evs + [Pair(task, at)];
  }

  // ---- When one token passes twice ----

  /** What a step leaves of the user's stored hash. */
  datatype Write = Untouched | Gone | Holds(token: RefreshToken, at: Instant)

  function WriteOf(r: Race, e: Event, user: UserId): Write
    requires Enabled(r, e)
  {
    match e
    case Drop(task) => if r.tasks[task].t.claims.userId == user then Gone else Untouched
    case Pair(task, at) =>
      var claims := r.tasks[task].t.claims;
      if claims.userId == user then Holds(Sign(claims, at), at) else Untouched
    case Other(op) =>
      (match op
       case Issue(claims, at) => if claims.userId == user then Holds(Sign(claims, at), at) else Untouched
       case Logout(access, _, _) => if access.claims.userId == user then Gone else Untouched
       case RemoveUser(id) => if id == user then Gone else Untouched
       case EvictRefresh(id) => if id == user then Gone else Untouched
       case _ => Untouched)
    case _ => Untouched
  }

  /** The last write of the user's stored hash in a run, read off its events. */
  function LastWrite(cfg: Config, r: Race, evs: seq<Event>, user: UserId): Write {
    if evs == [] then Untouched
    else
      var n := |evs| - 1;
      var before := After(Server(cfg), r, evs[..n]);
      var w := if Enabled(before, evs[n]) then WriteOf(before, evs[n], user) else Untouched;
      if w.Untouched? then LastWrite(cfg, r, evs[..n], user) else w
  }

  function CellOf(cfg: Config, w: Write): Cell<Hash<RefreshToken>>
    requires w.Holds?
  {
    Cell(Sha256(w.token), if cfg.refreshTtl == 0 then None else Some(w.at + 1000 * cfg.refreshTtl))
  }

  predicate Written(cfg: Config, before: State, after: State, user: UserId, w: Write) {
    match w
    case Untouched =>
      (user in after.refresh <==> user in before.refresh)
      && (user in before.refresh ==> after.refresh[user] == before.refresh[user])
    case Gone => user !in after.refresh
    case Holds(_, _) => user in after.refresh && after.refresh[user] == CellOf(cfg, w)
  }

  lemma StepWrites(cfg: Config, r: Race, e: Event, user: UserId)
    requires Enabled(r, e)
    ensures Written(cfg, r.s, Apply(cfg, r, e).s, user, WriteOf(r, e, user))
  {}

  lemma {:induction false} LastWriteHolds(cfg: Config, r: Race, evs: seq<Event>, user: UserId)
    requires Legal(Server(cfg), r, evs)
    ensures Written(cfg, r.s, After(Server(cfg), r, evs).s, user, LastWrite(cfg, r, evs, user))
  {
    if evs != [] {
      var n := |evs| - 1;
      LastStep(Server(cfg), r, evs);
      LastWriteHolds(cfg, r, evs[..n], user);
      StepWrites(cfg, After(Server(cfg), r, evs[..n]), evs[n], user);
    }
  }

  /** Readable strictly before the TTL it was stored with has passed. */
  predicate Fresh(cfg: Config, w: Write, at: Instant)
    requires w.Holds?
  {
    cfg.refreshTtl == 0 || at < w.at + 1000 * cfg.refreshTtl
  }

  /** One refresh finds the stored hash to be t's; then any steps follow; then another refresh with
      the same token reads the hash. It passes too, and goes on to a pair of its own, if and only if
      in between nothing touched the hash and it has not expired, or the last write stored the very
      same string again. */
  lemma SecondPassesIff(cfg: Config, r: Race, t: RefreshToken, at: Instant, evs: seq<Event>, second: nat,
                        later: Instant)
    requires HashMatches(r.s, t, at) && Legal(Server(cfg), r, evs)
    requires var r2 := After(Server(cfg), r, evs);
             Enabled(r2, ReadHash(second, later)) && r2.tasks[second].t == t
    ensures var r2, w := After(Server(cfg), r, evs), LastWrite(cfg, r, evs, t.claims.userId);
            Apply(cfg, r2, ReadHash(second, later)).tasks[second] == Passed(t) <==>
              || (w.Untouched? && Unexpired(r.s.refresh[t.claims.userId], later))
              || (w.Holds? && w.token == t && Fresh(cfg, w, later))
  {
    LastWriteHolds(cfg, r, evs, t.claims.userId);
  }

  // ---- A run in which it does ----

  const CLAIMS := Claims("u", "o", "member", "u@o")

  function Signed(second: int): RefreshToken {
    RefreshToken(CLAIMS, second)
  }

  function Holding(second: int, now: Instant, refreshTtl: nat): State {
    var expiry := if refreshTtl == 0 then None else Some(1000 * second + 1000 * refreshTtl);
    State(map["u" := Account("o", true, true)], map["u" := Cell(Sha256(Signed(second)), expiry)], map[], now)
  }

  /** The user exists and has logged in at 0. */
  lemma LoggedIn(cfg: Config) returns (evs: seq<Event>)
    ensures Leads(Server(cfg), START, evs, Race(Holding(0, 0, cfg.refreshTtl), map[]))
  {
    var a, b := Other(SetAccount("u", Account("o", true, true))), Other(Issue(CLAIMS, 0));
    var r1 := Apply(cfg, START, a);
    assert Apply(cfg, r1, b) == Race(Holding(0, 0, cfg.refreshTtl), map[]);
    One(Server(cfg), START, a);
    Extend(Server(cfg), START, [a], r1, b);
    evs := [a] + [b];
  }

  /** Two refreshes with the token of second 0 both pass. */
  lemma BothPass(cfg: Config) returns (evs: seq<Event>)
    requires cfg.refreshLife > 0
    ensures var h := Holding(0, 0, cfg.refreshTtl);
            Leads(Server(cfg), Race(h, map[]), evs, Race(h, map[0 := Passed(Signed(0)), 1 := Passed(Signed(0))]))
  {
    var h, t := Holding(0, 0, cfg.refreshTtl), Signed(0);
    var r0, r1, r2 := Race(h, map[]), Race(h, map[0 := Verified(t)]), Race(h, map[0 := Verified(t), 1 := Verified(t)]);
    var r3, r4 := Race(h, map[0 := Passed(t), 1 := Verified(t)]), Race(h, map[0 := Passed(t), 1 := Passed(t)]);
    assert Apply(cfg, r0, Verify(0, t, 0)) == r1;
    assert Apply(cfg, r1, Verify(1, t, 0)) == r2;
    assert Apply(cfg, r2, ReadHash(0, 0)) == r3;
    assert Apply(cfg, r3, ReadHash(1, 0)) == r4;
    One(Server(cfg), r0, Verify(0, t, 0));
    Extend(Server(cfg), r0, [Verify(0, t, 0)], r1, Verify(1, t, 0));
    evs := [Verify(0, t, 0)] + [Verify(1, t, 0)];
    Extend(Server(cfg), r0, evs, r2, ReadHash(0, 0));
    evs := evs + [ReadHash(0, 0)];
    Extend(Server(cfg), r0, evs, r3, ReadHash(1, 0));
    evs := evs + [ReadHash(1, 0)];
  }

  /** One refresh goes on and gets its pair at second k. */
  lemma GoesOn(cfg: Config, h: State, tasks: map<nat, Phase>, task: nat, k: int) returns (evs: seq<Event>)
    requires task in tasks && tasks[task] == Passed(Signed(0)) && h.now <= 1000 * k && "u" in h.refresh
    requires h == Holding(if k == 1 then 0 else 1, h.now, cfg.refreshTtl)
    ensures Leads(Server(cfg), Race(h, tasks), evs,
                  Race(Holding(k, 1000 * k, cfg.refreshTtl), tasks[task := Paired(Signed(0), Signed(k))]))
  {
    var s1 := h.(refresh := map[]);
    var r0, r1 := Race(h, tasks), Race(s1, tasks[task := Dropped(Signed(0))]);
    assert h.refresh - {"u"} == map[];
    assert Apply(cfg, r0, Drop(task)) == r1;
    assert Apply(cfg, r1, Pair(task, 1000 * k))
        == Race(Holding(k, 1000 * k, cfg.refreshTtl), tasks[task := Paired(Signed(0), Signed(k))]);
    One(Server(cfg), r0, Drop(task));
    Extend(Server(cfg), r0, [Drop(task)], r1, Pair(task, 1000 * k));
    evs := [Drop(task)] + [Pair(task, 1000 * k)];
  }

  /** One token yields two different pairs; only the pair issued last can be refreshed with, so the
      first caller holds one that is refused. */
  lemma OneTokenTwoPairs(cfg: Config) returns (evs: seq<Event>)
    requires cfg.refreshLife > 0
    ensures Legal(Server(cfg), START, evs)
    ensures var r := After(Server(cfg), START, evs);
            && r.tasks == map[0 := Paired(Signed(0), Signed(1)), 1 := Paired(Signed(0), Signed(2))]
            && (forall at :: RefreshCheck(cfg, r.s, Signed(1), at).Some?)
            && RefreshCheck(cfg, r.s, Signed(2), 2000).None?
  {
    var h := Holding(0, 0, cfg.refreshTtl);
    var t1 := map[0 := Passed(Signed(0)), 1 := Passed(Signed(0))];
    var t2 := map[0 := Paired(Signed(0), Signed(1)), 1 := Passed(Signed(0))];
    var t3 := map[0 := Paired(Signed(0), Signed(1)), 1 := Paired(Signed(0), Signed(2))];
    assert t1[0 := Paired(Signed(0), Signed(1))] == t2 && t2[1 := Paired(Signed(0), Signed(2))] == t3;
    var a := LoggedIn(cfg);
    var b := BothPass(cfg);
    LeadOn(Server(cfg), START, a, Race(h, map[]), b, Race(h, t1));
    var c := GoesOn(cfg, h, t1, 0, 1);
    var h1 := Holding(1, 1000, cfg.refreshTtl);
    LeadOn(Server(cfg), START, a + b, Race(h, t1), c, Race(h1, t2));
    var d := GoesOn(cfg, h1, t2, 1, 2);
    LeadOn(Server(cfg), START, a + b + c, Race(h1, t2), d, Race(Holding(2, 2000, cfg.refreshTtl), t3));
    evs := a + b + c + d;
    LastOneHolds(cfg);
  }

  lemma LastOneHolds(cfg: Config)
    requires cfg.refreshLife > 0
    ensures var s := Holding(2, 2000, cfg.refreshTtl);
            (forall at :: RefreshCheck(cfg, s, Signed(1), at).Some?) && RefreshCheck(cfg, s, Signed(2), 2000).None?
  {
    assert Sha256(Signed(1)) != Sha256(Signed(2));
  }
}
