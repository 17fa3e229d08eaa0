/** Refresh tokens and revoked access tokens: `JwtUtilityService`, the token half of
    `AuthService`, and `JwtStrategy`. */
module Sessions {
  import opened Wrappers
  import opened Ttl
  import opened Runs
  import opened Hashing

  type UserId = string
  type OrgId = string

  /** The signed claims, and when they were signed, in seconds. There is nothing else in a token:
      two issued to one user in the same second are the same string. */
  datatype Claims = Claims(userId: UserId, org: OrgId, role: string, email: string)

  datatype RefreshToken = RefreshToken(claims: Claims, issuedAt: int)

  datatype AccessToken = AccessToken(claims: Claims, exp: int)

  /** The part of a user row the token checks read. */
  datatype Account = Account(org: OrgId, isActive: bool, isVerified: bool)

  /** Token lifetimes, and the TTL of the stored refresh hash, in seconds. */
  datatype Config = Config(accessLife: int, refreshLife: int, refreshTtl: nat)

  datatype State = State(users: map<UserId, Account>, refresh: Store<UserId, Hash<RefreshToken>>,
                         blacklist: Store<Hash<AccessToken>, string>, now: Instant)

  /** JWT verification compares whole seconds with the exp claim. */
  predicate JwtValid(exp: int, now: Instant) {
    now / 1000 < exp
  }

  function Sign(claims: Claims, now: Instant): RefreshToken {
    RefreshToken(claims, now / 1000)
  }

  /** `issueTokenPair`: the new refresh hash replaces the user's old one. */
  function Issued(cfg: Config, s: State, claims: Claims, now: Instant): State {
    s.(refresh := Put(s.refresh, claims.userId, Sha256(Sign(claims, now)), cfg.refreshTtl, now))
  }

  datatype RefreshError = InvalidToken | UserNotFound | Deactivated | LoggedOut | AlreadyRotated

  /** The checks of `refresh`, in order. */
  function RefreshCheck(cfg: Config, s: State, t: RefreshToken, now: Instant): Option<RefreshError> {
    var id := t.claims.userId;
    var stored := Get(s.refresh, id, now);
    if !JwtValid(t.issuedAt + cfg.refreshLife, now) then Some(InvalidToken)
    else if id !in s.users || s.users[id].org != t.claims.org then Some(UserNotFound)
    else if !s.users[id].isActive then Some(Deactivated)
    else if stored.None? then Some(LoggedOut)
    else if stored.value != Sha256(t) then Some(AlreadyRotated)
    else None
  }

  function Refreshed(cfg: Config, s: State, t: RefreshToken, now: Instant): State {
    if RefreshCheck(cfg, s, t, now).Some? then s
    else Issued(cfg, s.(refresh := Del(s.refresh, t.claims.userId)), t.claims, now)
  }

  /** `logout`: the remaining whole seconds are computed at `at`, the blacklist written at `setAt`. */
  function LoggedOutState(s: State, t: AccessToken, at: Instant, setAt: Instant): State {
    var s1 := s.(refresh := Del(s.refresh, t.claims.userId));
    var ttl := t.exp - at / 1000;
    if ttl > 0 then s1.(blacklist := Put(s1.blacklist, Sha256(t), "1", ttl, setAt)) else s1
  }

  /** Passport's exp check, then `JwtStrategy.validate`. */
  predicate Accepts(s: State, t: AccessToken, now: Instant) {
    && JwtValid(t.exp, now)
    && Get(s.blacklist, Sha256(t), now).None?
    && t.claims.userId in s.users
    && var user := s.users[t.claims.userId]; user.org == t.claims.org && user.isVerified && user.isActive
  }

  class SessionService {
    const cfg: Config
    var users: map<UserId, Account>
    var refresh: Store<UserId, Hash<RefreshToken>>
    var blacklist: Store<Hash<AccessToken>, string>

    constructor (cfg: Config)
      ensures this.cfg == cfg && users == map[] && refresh == map[] && blacklist == map[]
    {
      this.cfg, users, refresh, blacklist := cfg, map[], map[], map[];
    }

    function At(now: Instant): State
      reads this
    {
      State(users, refresh, blacklist, now)
    }

    method IssueTokenPair(claims: Claims, now: Instant) returns (access: AccessToken, token: RefreshToken)
      modifies this`refresh
      ensures access == AccessToken(claims, now / 1000 + cfg.accessLife) && token == RefreshToken(claims, now / 1000)
      ensures At(now) == Issued(cfg, old(At(now)), claims, now)
    {
      token := Sign(claims, now);
      access := AccessToken(claims, now / 1000 + cfg.accessLife);
      var expiry := if cfg.refreshTtl != 0 then Some(now + 1000 * cfg.refreshTtl) else None;
      refresh := refresh[claims.userId := Cell(Sha256(token), expiry)];
    }

    method Refresh(t: RefreshToken, now: Instant) returns (r: Result<RefreshToken, RefreshError>)
      modifies this`refresh
      ensures r == if RefreshCheck(cfg, old(At(now)), t, now).Some?
                   then Err(RefreshCheck(cfg, old(At(now)), t, now).value)
                   else Ok(Sign(t.claims, now))
      ensures At(now) == Refreshed(cfg, old(At(now)), t, now)
    {
      if !JwtValid(t.issuedAt + cfg.refreshLife, now) { return Err(InvalidToken); }
      var id := t.claims.userId;
      if id !in users || users[id].org != t.claims.org { return Err(UserNotFound); }
      if !users[id].isActive { return Err(Deactivated); }
      if !(id in refresh && Unexpired(refresh[id], now)) { return Err(LoggedOut); }
      if refresh[id].value != Sha256(t) { return Err(AlreadyRotated); }
      refresh := refresh - {id};
      var _, token := IssueTokenPair(t.claims, now);
      r := Ok(token);
    }

    method Logout(t: AccessToken, at: Instant, setAt: Instant)
      requires at <= setAt
      modifies this`refresh, this`blacklist
      ensures At(setAt) == LoggedOutState(old(At(setAt)), t, at, setAt)
      ensures blacklist == if t.exp <= at / 1000 then old(blacklist)
                           else old(blacklist)[Sha256(t) := Cell("1", Some(setAt + 1000 * (t.exp - at / 1000)))]
    {
      refresh := refresh - {t.claims.userId};
      var ttl := t.exp - at / 1000;
      if ttl > 0 { blacklist := blacklist[Sha256(t) := Cell("1", Some(setAt + 1000 * ttl))]; }
    }

    /** `JwtStrategy.validate`, after the signature and exp checks that precede it. */
    method Validate(t: AccessToken, now: Instant) returns (ok: bool)
      ensures ok == Accepts(At(now), t, now)
    {
      if !JwtValid(t.exp, now) { return false; }
      if Sha256(t) in blacklist && Unexpired(blacklist[Sha256(t)], now) { return false; }
      var id := t.claims.userId;
      if id !in users || users[id].org != t.claims.org { return false; }
      ok := users[id].isVerified && users[id].isActive;
    }
  }

  // ---- Runs ----

  datatype Op =
    | Issue(claims: Claims, at: Instant)          // login, acceptance, password change or reset, email change
    | Refresh(refresh: RefreshToken, at: Instant)
    | Logout(access: AccessToken, at: Instant, setAt: Instant)
    | RemoveUser(id: UserId)                      // deactivated, and its refresh hash deleted
    | SetAccount(id: UserId, account: Account)    // any other change to a user row
    | EvictRefresh(id: UserId)                    // Redis may lose any entry at any time
    | EvictBlacklisted(token: AccessToken)
    | Wait(ms: nat)

  /** Time does not run backwards. */
  predicate Enabled(s: State, op: Op) {
    match op
    case Issue(_, at) => s.now <= at
    case Refresh(_, at) => s.now <= at
    case Logout(_, at, setAt) => s.now <= at <= setAt
    case _ => true
  }

  function Apply(cfg: Config, s: State, op: Op): State {
    if !Enabled(s, op) then s else
    match op
    case Issue(claims, at) => Issued(cfg, s, claims, at).(now := at)
    case Refresh(token, at) => Refreshed(cfg, s, token, at).(now := at)
    case Logout(token, at, setAt) => LoggedOutState(s, token, at, setAt).(now := setAt)
    case RemoveUser(id) =>
      s.(users := if id in s.users then s.users[id := s.users[id].(isActive := false)] else s.users,
         refresh := Del(s.refresh, id))
    case SetAccount(id, account) => s.(users := s.users[id := account])
    case EvictRefresh(id) => s.(refresh := Del(s.refresh, id))
    case EvictBlacklisted(token) => s.(blacklist := Del(s.blacklist, Sha256(token)))
    case Wait(ms) => s.(now := s.now + ms)
  }

  function Service(cfg: Config): Machine<State, Op> {
    Machine((s, op) => Enabled(s, op), (s, op) => Apply(cfg, s, op))
  }

  /** What the world does on its own, and that every operation leaves the clock at its own time. */
  lemma TimeAndLoss(cfg: Config, s: State, op: Op)
    requires Enabled(s, op)
    ensures Apply(cfg, s, op).now ==
              match op
              case Issue(_, at) => at
              case Refresh(_, at) => at
              case Logout(_, _, setAt) => setAt
              case Wait(ms) => s.now + ms
              case _ => s.now
    ensures op.EvictRefresh? ==> Apply(cfg, s, op) == s.(refresh := s.refresh - {op.id})
    ensures op.EvictBlacklisted? ==> Apply(cfg, s, op) == s.(blacklist := s.blacklist - {Sha256(op.token)})
  {}

  const INITIAL := State(map[], map[], map[], 0)

  // ---- The account a history leaves a user ----

  /** What one operation makes of the account the history last gave the user. */
  function NextAccount(earlier: Option<Account>, op: Op, user: UserId): Option<Account> {
    match op
    case SetAccount(id, account) => if id == user then Some(account) else earlier
    case RemoveUser(id) =>
      if id == user && earlier.Some? then Some(Account(earlier.value.org, false, earlier.value.isVerified)) else earlier
    case _ => earlier
  }

  function LatestAccount(ops: seq<Op>, user: UserId): Option<Account> {
    if ops == [] then None else NextAccount(LatestAccount(ops[..|ops| - 1], user), ops[|ops| - 1], user)
  }

  lemma {:induction false} AccountIsLatest(cfg: Config, ops: seq<Op>, user: UserId)
    requires Legal(Service(cfg), INITIAL, ops)
    ensures var users := After(Service(cfg), INITIAL, ops).users;
            LatestAccount(ops, user) == if user in users then Some(users[user]) else None
  {
    if ops != [] {
      LastStep(Service(cfg), INITIAL, ops);
      AccountIsLatest(cfg, ops[..|ops| - 1], user);
    }
  }

  // ---- One acceptable refresh token ----

  datatype Issuance = Issuance(token: RefreshToken, at: Instant)

  /** What one operation makes of the token issued last: a refresh issues one only if it succeeds. */
  function NextIssued(cfg: Config, s: State, earlier: Option<Issuance>, op: Op, user: UserId): Option<Issuance> {
    match op
    case Issue(claims, at) => if claims.userId == user then Some(Issuance(Sign(claims, at), at)) else earlier
    case Refresh(t, at) =>
      if t.claims.userId == user && RefreshCheck(cfg, s, t, at).None? then Some(Issuance(Sign(t.claims, at), at))
      else earlier
    case Logout(token, _, _) => if token.claims.userId == user then None else earlier
    case RemoveUser(id) => if id == user then None else earlier
    case EvictRefresh(id) => if id == user then None else earlier
    case _ => earlier
  }

  /** Reading the history alone: the token most recently issued to the user since the last logout,
      removal or loss of the stored hash. */
  function LatestIssued(cfg: Config, ops: seq<Op>, user: UserId): Option<Issuance> {
    if ops == [] then None
    else
      var n := |ops| - 1;
      NextIssued(cfg, After(Service(cfg), INITIAL, ops[..n]), LatestIssued(cfg, ops[..n], user), ops[n], user)
  }

  /** The stored hash is that of the latest issued token, with the TTL it was stored with. */
  predicate Stores(cfg: Config, s: State, user: UserId, latest: Option<Issuance>) {
    if latest.None? then user !in s.refresh
    else user in s.refresh && s.refresh[user] == Cell(Sha256(latest.value.token),
           if cfg.refreshTtl == 0 then None else Some(latest.value.at + 1000 * cfg.refreshTtl))
  }

  lemma StoresNext(cfg: Config, s: State, latest: Option<Issuance>, op: Op, user: UserId)
    requires Stores(cfg, s, user, latest) && Enabled(s, op)
    ensures Stores(cfg, Apply(cfg, s, op), user, NextIssued(cfg, s, latest, op, user))
  {}

  lemma {:induction false} StoredIsLatest(cfg: Config, ops: seq<Op>, user: UserId)
    requires Legal(Service(cfg), INITIAL, ops)
    ensures Stores(cfg, After(Service(cfg), INITIAL, ops), user, LatestIssued(cfg, ops, user))
  {
    if ops != [] {
      var n := |ops| - 1;
      LastStep(Service(cfg), INITIAL, ops);
      StoredIsLatest(cfg, ops[..n], user);
      StoresNext(cfg, After(Service(cfg), INITIAL, ops[..n]), LatestIssued(cfg, ops[..n], user), ops[n], user);
    }
  }

  /** After any run, a refresh succeeds exactly for the token most recently issued to that user
      since the last logout, removal or loss of the stored hash, while it and its stored hash are unexpired and the user
      is active in the token's organization. */
  lemma RefreshSucceedsIff(cfg: Config, ops: seq<Op>, t: RefreshToken, at: Instant)
    requires Legal(Service(cfg), INITIAL, ops)
    ensures var s := After(Service(cfg), INITIAL, ops);
            var id := t.claims.userId;
            var latest := LatestIssued(cfg, ops, id);
            RefreshCheck(cfg, s, t, at).None? <==>
              && latest.Some? && latest.value.token == t
              && (cfg.refreshTtl == 0 || at < latest.value.at + 1000 * cfg.refreshTtl)
              && at / 1000 < t.issuedAt + cfg.refreshLife
              && id in s.users && s.users[id].isActive && s.users[id].org == t.claims.org
  {
    StoredIsLatest(cfg, ops, t.claims.userId);
  }

  /** And it is refused for the first of these reasons that the history gives. */
  lemma RefusedBecause(cfg: Config, ops: seq<Op>, t: RefreshToken, at: Instant)
    requires Legal(Service(cfg), INITIAL, ops)
    ensures var account := LatestAccount(ops, t.claims.userId);
            var latest := LatestIssued(cfg, ops, t.claims.userId);
            RefreshCheck(cfg, After(Service(cfg), INITIAL, ops), t, at) ==
              if t.issuedAt + cfg.refreshLife <= at / 1000 then Some(InvalidToken)
              else if account.None? || account.value.org != t.claims.org then Some(UserNotFound)
              else if !account.value.isActive then Some(Deactivated)
              else if latest.None? || (cfg.refreshTtl != 0 && latest.value.at + 1000 * cfg.refreshTtl <= at)
                then Some(RefreshError.LoggedOut)
              else if latest.value.token != t then Some(AlreadyRotated)
              else None
  {
    StoredIsLatest(cfg, ops, t.claims.userId);
    AccountIsLatest(cfg, ops, t.claims.userId);
  }

  /** In any state at all, however it came about, one user has at most one acceptable token. */
  lemma AtMostOneAcceptable(cfg: Config, s: State, t: RefreshToken, u: RefreshToken, at: Instant)
    requires t.claims.userId == u.claims.userId
    requires RefreshCheck(cfg, s, t, at).None? && RefreshCheck(cfg, s, u, at).None?
    ensures t == u
  {}

  /** A token is spent by refreshing with it, unless its successor, signed in the same second, is
      the same string. */
  lemma RotatedUnlessSameSecond(cfg: Config, s: State, t: RefreshToken, at: Instant, later: Instant)
    requires RefreshCheck(cfg, s, t, at).None? && at <= later
    requires JwtValid(t.issuedAt + cfg.refreshLife, later)
             && (cfg.refreshTtl == 0 || later < at + 1000 * cfg.refreshTtl)
    ensures RefreshCheck(cfg, Refreshed(cfg, s, t, at), t, later).None? <==> t.issuedAt == at / 1000
  {}

  /** A run from the start in which a token that was just refreshed with is accepted again. */
  lemma SpentTokenAccepted(cfg: Config) returns (ops: seq<Op>, t: RefreshToken)
    requires cfg.refreshLife > 0
    ensures Legal(Service(cfg), INITIAL, ops + [Refresh(t, 0)])
    ensures RefreshCheck(cfg, After(Service(cfg), INITIAL, ops), t, 0).None?
    ensures RefreshCheck(cfg, After(Service(cfg), INITIAL, ops + [Refresh(t, 0)]), t, 0).None?
  {
    var claims := Claims("u", "o", "member", "u@o");
    var a, b := SetAccount("u", Account("o", true, true)), Issue(claims, 0);
    t := Sign(claims, 0);
    var s1 := Apply(cfg, INITIAL, a);
    var s2 := Apply(cfg, s1, b);
    One(Service(cfg), INITIAL, a);
    Extend(Service(cfg), INITIAL, [a], s1, b);
    ops := [a] + [b];
    Extend(Service(cfg), INITIAL, ops, s2, Refresh(t, 0));
  }

  // ---- Logged-out access tokens ----

  /** The blacklist entry outlives the token. */
  predicate Barred(s: State, t: AccessToken) {
    || t.exp <= s.now / 1000
    || (Sha256(t) in s.blacklist
        && (s.blacklist[Sha256(t)].expiresAt.Some? ==> 1000 * t.exp <= s.blacklist[Sha256(t)].expiresAt.value))
  }

  /** The history says the token's entry has been written and not lost since; `listed` says so of
      what went before. */
  predicate Revoked(listed: bool, ops: seq<Op>, t: AccessToken) {
    if ops == [] then listed
    else
      var earlier := Revoked(listed, ops[..|ops| - 1], t);
      match ops[|ops| - 1]
      case EvictBlacklisted(u) => u != t && earlier
      case Logout(u, _, _) => u == t || earlier
      case _ => earlier
  }

  predicate Listing(s: State, listed: bool, t: AccessToken) {
    if listed then Barred(s, t) else Sha256(t) !in s.blacklist
  }

  lemma LogoutBars(s: State, t: AccessToken, at: Instant, setAt: Instant)
    requires at <= setAt
    ensures Barred(LoggedOutState(s, t, at, setAt).(now := setAt), t)
  {
    if t.exp > at / 1000 { assert setAt + 1000 * (t.exp - at / 1000) >= 1000 * t.exp; }
  }

  lemma ListingStep(cfg: Config, s: State, listed: bool, op: Op, t: AccessToken)
    requires Listing(s, listed, t) && Enabled(s, op)
    ensures Listing(Apply(cfg, s, op), Revoked(listed, [op], t), t)
  {
    assert Revoked(listed, [], t) == listed;
    if op.Logout? && op.access == t {
      LogoutBars(s, t, op.at, op.setAt);
    } else if listed && op != EvictBlacklisted(t) {
      OthersKeepBarred(cfg, s, op, t);
    }
  }

  lemma OthersKeepBarred(cfg: Config, s: State, op: Op, t: AccessToken)
    requires Barred(s, t) && Enabled(s, op) && op != EvictBlacklisted(t) && !(op.Logout? && op.access == t)
    ensures Barred(Apply(cfg, s, op), t)
  {
    assert s.now <= Apply(cfg, s, op).now;
  }

  lemma {:induction false} ListingKept(cfg: Config, s: State, listed: bool, ops: seq<Op>, t: AccessToken)
    requires Listing(s, listed, t) && Legal(Service(cfg), s, ops)
    ensures Listing(After(Service(cfg), s, ops), Revoked(listed, ops, t), t)
  {
    if ops != [] {
      var n := |ops| - 1;
      LastStep(Service(cfg), s, ops);
      ListingKept(cfg, s, listed, ops[..n], t);
      ListingStep(cfg, After(Service(cfg), s, ops[..n]), Revoked(listed, ops[..n], t), ops[n], t);
    }
  }

  /** From logout's blacklist write on, at every later instant of every run: the access token is
      accepted if and only if Redis has lost its entry, it has not expired, and its user is active
      and verified in its organization. The entry's whole-second TTL leaves no gap before exp. */
  lemma LoggedOutIff(cfg: Config, s: State, t: AccessToken, at: Instant, setAt: Instant, ops: seq<Op>, later: Instant)
    requires Legal(Service(cfg), s, [Logout(t, at, setAt)] + ops)
    requires After(Service(cfg), s, [Logout(t, at, setAt)] + ops).now <= later
    ensures var end := After(Service(cfg), s, [Logout(t, at, setAt)] + ops);
            Accepts(end, t, later) <==>
              && !Revoked(true, ops, t) && later / 1000 < t.exp
              && t.claims.userId in end.users && end.users[t.claims.userId].org == t.claims.org
              && end.users[t.claims.userId].isActive && end.users[t.claims.userId].isVerified
  {
    var out := Logout(t, at, setAt);
    Join(Service(cfg), s, [out], ops);
    assert Legal(Service(cfg), s, [out]);
    One(Service(cfg), s, out);
    LogoutBars(s, t, at, setAt);
    ListingKept(cfg, Apply(cfg, s, out), true, ops, t);
    BarredIsRejected(After(Service(cfg), s, [out] + ops), t, later);
  }

  /** After any run at all, read off the history: an access token is accepted if and only if it has
      not expired, it was never logged out since Redis last lost its entry, and the account its
      user was last given is in the token's organization, verified, and active. */
  lemma AcceptedIff(cfg: Config, ops: seq<Op>, t: AccessToken, now: Instant)
    requires Legal(Service(cfg), INITIAL, ops) && After(Service(cfg), INITIAL, ops).now <= now
    ensures var account := LatestAccount(ops, t.claims.userId);
            Accepts(After(Service(cfg), INITIAL, ops), t, now) <==>
              && now / 1000 < t.exp && !Revoked(false, ops, t)
              && account.Some? && account.value.org == t.claims.org
              && account.value.isVerified && account.value.isActive
  {
    ListingKept(cfg, INITIAL, false, ops, t);
    AccountIsLatest(cfg, ops, t.claims.userId);
    BarredIsRejected(After(Service(cfg), INITIAL, ops), t, now);
  }

  predicate Inactive(s: State, id: UserId) {
    id in s.users ==> !s.users[id].isActive
  }

  lemma {:induction false} StaysInactive(cfg: Config, s: State, ops: seq<Op>, id: UserId)
    requires Inactive(s, id) && Legal(Service(cfg), s, ops)
    requires forall op :: op in ops && op.SetAccount? ==> op.id != id
    ensures Inactive(After(Service(cfg), s, ops), id)
  {
    if ops != [] {
      LastStep(Service(cfg), s, ops);
      StaysInactive(cfg, s, ops[..|ops| - 1], id);
      assert ops[|ops| - 1] in ops;
    }
  }

  /** From any state, once a user is removed and as long as nothing sets the account again, no
      access token of that user is accepted, at whatever instant and whenever it was signed. */
  lemma RemovedNeverAccepted(cfg: Config, s: State, id: UserId, ops: seq<Op>, t: AccessToken, later: Instant)
    requires Legal(Service(cfg), s, [RemoveUser(id)] + ops) && t.claims.userId == id
    requires forall op :: op in ops && op.SetAccount? ==> op.id != id
    ensures !Accepts(After(Service(cfg), s, [RemoveUser(id)] + ops), t, later)
  {
    var out := RemoveUser(id);
    Join(Service(cfg), s, [out], ops);
    assert Legal(Service(cfg), s, [out]);
    One(Service(cfg), s, out);
    StaysInactive(cfg, Apply(cfg, s, out), ops, id);
  }

  lemma BarredIsRejected(s: State, t: AccessToken, later: Instant)
    requires s.now <= later
    ensures Barred(s, t) ==> !Accepts(s, t, later)
  {
    assert s.now / 1000 <= later / 1000;
  }

  /** As long as Redis does not lose the entry, a logged-out token stays rejected. */
  lemma LoggedOutForGood(cfg: Config, s: State, t: AccessToken, at: Instant, setAt: Instant, ops: seq<Op>,
                         later: Instant)
    requires Legal(Service(cfg), s, [Logout(t, at, setAt)] + ops) && EvictBlacklisted(t) !in ops
    requires After(Service(cfg), s, [Logout(t, at, setAt)] + ops).now <= later
    ensures !Accepts(After(Service(cfg), s, [Logout(t, at, setAt)] + ops), t, later)
  {
    LoggedOutIff(cfg, s, t, at, setAt, ops, later);
    NeverLost(ops, t);
  }

  lemma {:induction false} NeverLost(ops: seq<Op>, t: AccessToken)
    requires EvictBlacklisted(t) !in ops
    ensures Revoked(true, ops, t)
  {
    if ops != [] {
      assert ops[|ops| - 1] in ops;
      NeverLost(ops[..|ops| - 1], t);
    }
  }
}
