/** Registration, membership and invitations together. Every operation is one step, but for sending
    invitations: the items of one request, and of different requests, interleave call by call. */
module Membership {
  import opened Wrappers
  import opened Ttl
  import opened Hashing
  import opened Runs
  import opened Members

  /** Where an item of a request stands: its email's user is to be looked up; no active user was
      found; no pending invitation was found; its row is saved; it has ended. */
  datatype Sending =
    | Asked(email: string, role: Role, org: OrgId)
    | Free(email: string, role: Role, org: OrgId)
    | Clear(email: string, role: Role, org: OrgId)
    | Saved(id: nat, invite: Invitation, ttl: nat)
    | Over(row: Option<nat>)

  datatype State = State(users: Users, orgs: set<OrgId>, invites: Invites, sends: map<nat, Sending>, now: Instant)

  datatype Op =
    | Register(org: OrgId, id: UserId, email: string, name: string, planFound: bool, commits: bool)
    | Remove(caller: Caller, id: UserId)
    | UpdateRole(caller: Caller, id: UserId, role: Role)
    | UpdateProfile(id: UserId, name: string)
    | ConfirmEmail(id: UserId, org: OrgId, email: string)
    | VerifyEmail(id: UserId)
    | SendStart(task: nat, email: string, role: Role, org: OrgId)
    | SendAskUser(task: nat, found: Option<UserId>)
    | SendAskPending(task: nat)
    | SendSave(task: nat, inviteId: nat, token: string, ttl: nat)
    | SendCache(task: nat)
    | SendFail(task: nat)                          // the awaited call throws, and the item ends
    | Accept(holder: Option<UserId>, h: TokenHash, newId: UserId, name: string, end: AcceptEnd)
    | ExpireAll
    | Evict(h: TokenHash)
    | Tick(ms: nat)

  /** The mail with the token is sent after the cache entry, so until then nobody holds it. */
  predicate Mailable(s: State, h: TokenHash) {
    forall task :: task in s.sends && s.sends[task].Saved? ==> s.sends[task].invite.hash != h
  }

  predicate Enabled(s: State, op: Op) {
    match op
    case Register(org, id, _, _, _, _) => org !in s.orgs && id !in s.users
    case SendStart(task, _, _, _) => task !in s.sends
    case SendAskUser(task, found) =>
      task in s.sends && s.sends[task].Asked? && FoundByEmail(s.users, s.sends[task].email, found)
    case SendAskPending(task) => task in s.sends && s.sends[task].Free?
    case SendSave(task, inviteId, token, _) =>
      && task in s.sends && s.sends[task].Clear?
      && inviteId !in s.invites.rows && Sha256(token) !in s.invites.byHash
    case SendCache(task) => task in s.sends && s.sends[task].Saved?
    case SendFail(task) => task in s.sends && !s.sends[task].Over?
    case Accept(holder, h, newId, _, _) =>
      && Indexed(s.invites) && newId !in s.users && Mailable(s, h)
      && var data := Decide(ReadToken(s.invites, h, s.now), None, s.now);
         if data.Ok? then FoundByEmail(s.users, data.value.email, holder) else holder.None?
    case _ => true
  }

  function Else<T, E>(r: Result<T, E>, d: T): T {
    if r.Ok? then r.value else d
  }

  function NewUsers(s: State, op: Op): Users
    requires Enabled(s, op)
  {
    match op
    case Register(org, id, email, name, planFound, commits) =>
      Registered(s.users, s.orgs, org, id, email, name, planFound, commits).1
    case Remove(caller, id) => Else(RemoveUser(s.users, caller, id), s.users)
    case UpdateRole(caller, id, role) => Else(ChangeRole(s.users, caller, id, role), s.users)
    case UpdateProfile(id, name) => Else(Rename(s.users, id, name), s.users)
    case ConfirmEmail(id, org, email) => Else(ChangeEmail(s.users, id, org, email), s.users)
    case VerifyEmail(id) => if id in s.users then s.users[id := s.users[id].(isVerified := true)] else s.users
    case Accept(holder, h, newId, name, end) => Accepting(s.users, s.invites, holder, h, newId, name, end, s.now).1
    case _ => s.users
  }

  function NewOrgs(s: State, op: Op): set<OrgId>
    requires Enabled(s, op)
  {
    match op
    case Register(org, id, email, name, planFound, commits) =>
      Registered(s.users, s.orgs, org, id, email, name, planFound, commits).2
    case _ => s.orgs
  }

  function NewInvites(s: State, op: Op): Invites
    requires Enabled(s, op)
  {
    match op
    case SendSave(task, inviteId, token, ttl) => SavedInvite(s.invites, inviteId, Invited(s, op))
    case SendCache(task) =>
      var p := s.sends[task];
      CachedFor(s.invites, p.id, p.invite, p.ttl, s.now)
    case Accept(holder, h, newId, name, end) => Accepting(s.users, s.invites, holder, h, newId, name, end, s.now).2
    case ExpireAll => Expire(s.invites, s.now)
    case Evict(h) => s.invites.(cache := Del(s.invites.cache, h))
    case _ => s.invites
  }

  /** The invitation that is being saved. */
  function Invited(s: State, op: Op): Invitation
    requires op.SendSave? && Enabled(s, op)
  {
    var p := s.sends[op.task];
    NewInvitation(p.email, p.role, op.token, p.org, op.ttl, s.now)
  }

  function NewSends(s: State, op: Op): map<nat, Sending>
    requires Enabled(s, op)
  {
    match op
    case SendStart(task, email, role, org) => s.sends[task := Asked(email, role, org)]
    case SendAskUser(task, found) =>
      var p := s.sends[task];
      s.sends[task := if found.Some? && s.users[found.value].isActive then Over(None) else Free(p.email, p.role, p.org)]
    case SendAskPending(task) =>
      var p := s.sends[task];
      s.sends[task := if PendingFor(s.invites, p.email) != {} then Over(None) else Clear(p.email, p.role, p.org)]
    case SendSave(task, inviteId, _, ttl) => s.sends[task := Saved(inviteId, Invited(s, op), ttl)]
    case SendCache(task) => s.sends[task := Over(Some(s.sends[task].id))]
    case SendFail(task) => s.sends[task := Over(if s.sends[task].Saved? then Some(s.sends[task].id) else None)]
    case _ => s.sends
  }

  function Apply(s: State, op: Op): State {
    if !Enabled(s, op) then s
    else State(NewUsers(s, op), NewOrgs(s, op), NewInvites(s, op), NewSends(s, op),
               if op.Tick? then s.now + op.ms else s.now)
  }

  function Office(): Machine<State, Op> {
    Machine((s, op) => Enabled(s, op), (s, op) => Apply(s, op))
  }

  /** What the world does on its own: time passes, and Redis loses an entry. */
  lemma TimeAndLoss(s: State, h: TokenHash, ms: nat)
    ensures Apply(s, Tick(ms)) == s.(now := s.now + ms)
    ensures Apply(s, Evict(h)) == s.(invites := s.invites.(cache := s.invites.cache - {h}))
  {}

  const EMPTY := State(map[], {}, Invites(map[], map[], map[]), map[], 0)

  // ---- What cached invitations mirror ----

  predicate Matches(i: Invitation, email: string, role: Role, org: OrgId, expiresAt: Instant) {
    i.email == email && i.role == role && i.org == org && i.expiresAt == expiresAt
  }

  predicate ExpiredInTime(i: Invitation, now: Instant) {
    i.status == ExpiredInvite ==> i.expiresAt < now
  }

  /** An `invite:` entry, expired or not, mirrors its row; a row is expired only if its time has passed. */
  predicate Mirrors(v: Invites, h: TokenHash, c: CachedInvite, now: Instant)
    requires Indexed(v)
  {
    && h in v.byHash && c.id == v.byHash[h]
    && Matches(v.rows[c.id], c.email, c.role, c.org, c.expiresAt) && ExpiredInTime(v.rows[c.id], now)
  }

  predicate CacheInv(v: Invites, now: Instant) {
    Indexed(v) && forall h :: h in v.cache ==> Mirrors(v, h, v.cache[h].value, now)
  }

  /** A saved row whose cache entry is still to be written is as it was saved, or expired. */
  predicate SavedInv(s: State) {
    forall task :: task in s.sends && s.sends[task].Saved? ==>
      var p := s.sends[task];
      && p.id in s.invites.rows && s.invites.rows[p.id].hash == p.invite.hash
      && Matches(s.invites.rows[p.id], p.invite.email, p.invite.role, p.invite.org, p.invite.expiresAt)
      && ExpiredInTime(s.invites.rows[p.id], s.now) && s.invites.rows[p.id].status != AcceptedInvite
  }

  predicate InvitesInv(s: State) {
    CacheInv(s.invites, s.now) && SavedInv(s)
  }

  lemma SaveKeeps(v: Invites, id: nat, i: Invitation, now: Instant)
    requires CacheInv(v, now) && id !in v.rows && i.hash !in v.byHash
    ensures CacheInv(SavedInvite(v, id, i), now)
  {}

  lemma CachingKeeps(v: Invites, id: nat, i: Invitation, ttl: nat, now: Instant)
    requires CacheInv(v, now) && id in v.rows && v.rows[id].hash == i.hash
    requires Matches(v.rows[id], i.email, i.role, i.org, i.expiresAt) && ExpiredInTime(v.rows[id], now)
    ensures CacheInv(CachedFor(v, id, i, ttl, now), now)
  {}

  lemma CloseKeeps(v: Invites, h: TokenHash, end: AcceptEnd, now: Instant)
    requires CacheInv(v, now) && h in v.byHash
    ensures CacheInv(Close(v, h, v.byHash[h], end), now)
  {}

  lemma ExpireKeeps(v: Invites, now: Instant)
    requires CacheInv(v, now)
    ensures CacheInv(Expire(v, now), now)
  {}

  lemma EvictKeeps(v: Invites, h: TokenHash, now: Instant)
    requires CacheInv(v, now)
    ensures CacheInv(v.(cache := Del(v.cache, h)), now)
  {}

  lemma TickKeeps(v: Invites, now: Instant, ms: nat)
    requires CacheInv(v, now)
    ensures CacheInv(v, now + ms)
  {}

  /** What an acceptance decides, and whether it closes the row. */
  function Decision(s: State, op: Op): Result<TokenData, InviteError>
    requires op.Accept? && Enabled(s, op)
  {
    Decide(ReadToken(s.invites, op.h, s.now), HolderOf(s.users, op.holder), s.now)
  }

  predicate Closes(s: State, op: Op) {
    && op.Accept? && Enabled(s, op) && Decision(s, op).Ok? && !op.end.IssueFails?
    && Decision(s, op).value.id in s.invites.rows
  }

  lemma TokenOfHash(s: State, op: Op)
    requires CacheInv(s.invites, s.now) && op.Accept? && Enabled(s, op) && Decision(s, op).Ok?
    ensures op.h in s.invites.byHash && Decision(s, op).value.id == s.invites.byHash[op.h]
    ensures s.invites.rows[s.invites.byHash[op.h]].status != ExpiredInvite
  {}

  lemma AcceptInvites(s: State, op: Op)
    requires CacheInv(s.invites, s.now) && op.Accept? && Enabled(s, op)
    ensures NewInvites(s, op) == if Closes(s, op) then Close(s.invites, op.h, Decision(s, op).value.id, op.end)
                                 else s.invites
  {}

  lemma CacheKept(s: State, op: Op)
    requires InvitesInv(s) && Enabled(s, op)
    ensures CacheInv(NewInvites(s, op), Apply(s, op).now)
  {
    match op
    case SendSave(_, inviteId, _, _) => SaveKeeps(s.invites, inviteId, Invited(s, op), s.now);
    case SendCache(task) =>
      var p := s.sends[task];
      CachingKeeps(s.invites, p.id, p.invite, p.ttl, s.now);
    case Accept(_, h, _, _, end) =>
      AcceptInvites(s, op);
      if Closes(s, op) {
        TokenOfHash(s, op);
        CloseKeeps(s.invites, h, end, s.now);
      }
    case ExpireAll => ExpireKeeps(s.invites, s.now);
    case Evict(h) => EvictKeeps(s.invites, h, s.now);
    case Tick(ms) => TickKeeps(s.invites, s.now, ms);
    case _ =>
  }

  lemma SavedRowKept(s: State, op: Op, task: nat)
    requires InvitesInv(s) && Enabled(s, op) && task in s.sends && s.sends[task].Saved?
    ensures var p, v := s.sends[task], NewInvites(s, op);
            && p.id in v.rows && v.rows[p.id].hash == p.invite.hash
            && Matches(v.rows[p.id], p.invite.email, p.invite.role, p.invite.org, p.invite.expiresAt)
            && ExpiredInTime(v.rows[p.id], Apply(s, op).now) && v.rows[p.id].status != AcceptedInvite
  {
    if op.Accept? {
      AcceptInvites(s, op);
      if Closes(s, op) { TokenOfHash(s, op); }
    }
  }

  lemma SavedKept(s: State, op: Op)
    requires InvitesInv(s) && Enabled(s, op)
    ensures SavedInv(Apply(s, op))
  {
    var s' := Apply(s, op);
    forall task | task in s'.sends && s'.sends[task].Saved? && task in s.sends && s.sends[task] == s'.sends[task]
      ensures var p := s'.sends[task];
              && p.id in s'.invites.rows && s'.invites.rows[p.id].hash == p.invite.hash
              && Matches(s'.invites.rows[p.id], p.invite.email, p.invite.role, p.invite.org, p.invite.expiresAt)
              && ExpiredInTime(s'.invites.rows[p.id], s'.now) && s'.invites.rows[p.id].status != AcceptedInvite
    {
      SavedRowKept(s, op, task);
    }
  }

  /** Every step keeps each cached invitation the mirror of its row. */
  lemma InvitesKept(s: State, op: Op)
    requires InvitesInv(s) && Enabled(s, op)
    ensures InvitesInv(Apply(s, op))
  {
    CacheKept(s, op);
    SavedKept(s, op);
  }

  lemma InvitesReachable(ops: seq<Op>)
    requires Legal(Office(), EMPTY, ops)
    ensures InvitesInv(After(Office(), EMPTY, ops))
  {
    forall s, op | InvitesInv(s) && Enabled(s, op)
      ensures InvitesInv(Apply(s, op))
    {
      InvitesKept(s, op);
    }
    Invariant(Office(), s => InvitesInv(s), EMPTY, ops);
  }

  // ---- The cache is invisible, but for entries that could not be dropped ----

  /** The entry can be read though its row is accepted, and nothing else refuses the token. */
  predicate Misleads(s: State, h: TokenHash, holder: Option<User>)
    requires Indexed(s.invites)
  {
    && Live(s.invites.cache, h, s.now)
    && h in s.invites.byHash && s.invites.rows[s.invites.byHash[h]].status == AcceptedInvite
    && s.now <= s.invites.rows[s.invites.byHash[h]].expiresAt
    && !(holder.Some? && holder.value.isActive)
  }

  /** After any run: the cache and the row decide alike, with the same invitation, role, email and
      organization, if and only if the entry does not mislead. */
  lemma CacheAgreesIff(ops: seq<Op>, h: TokenHash, holder: Option<User>)
    requires Legal(Office(), EMPTY, ops)
    ensures var s := After(Office(), EMPTY, ops);
            && Indexed(s.invites)
            && var cached := Decide(ReadToken(s.invites, h, s.now), holder, s.now);
               var direct := Decide(RowData(s.invites, h), holder, s.now);
               ((cached.Ok? <==> direct.Ok?) && (cached.Ok? ==> cached == direct)) <==> !Misleads(s, h, holder)
  {
    InvitesReachable(ops);
  }

  /** No entry outlives the acceptance of its row. */
  predicate NoneStale(v: Invites) {
    Indexed(v) && forall h :: h in v.cache && h in v.byHash ==> v.rows[v.byHash[h]].status != AcceptedInvite
  }

  lemma NoneStaleKept(s: State, op: Op)
    requires InvitesInv(s) && NoneStale(s.invites) && Enabled(s, op) && !(op.Accept? && op.end.DropFails?)
    ensures NoneStale(Apply(s, op).invites)
  {
    InvitesKept(s, op);
    if op.Accept? {
      AcceptInvites(s, op);
      if Closes(s, op) { TokenOfHash(s, op); }
    }
  }

  predicate AllDropped(ops: seq<Op>) {
    forall op :: op in ops ==> !(op.Accept? && op.end.DropFails?)
  }

  lemma {:induction false} NoneStaleReachable(s: State, ops: seq<Op>)
    requires InvitesInv(s) && NoneStale(s.invites) && Legal(Office(), s, ops) && AllDropped(ops)
    ensures NoneStale(After(Office(), s, ops).invites) && InvitesInv(After(Office(), s, ops))
    decreases |ops|
  {
    if ops != [] {
      assert ops[0] in ops;
      NoneStaleKept(s, ops[0]);
      InvitesKept(s, ops[0]);
      NoneStaleReachable(Apply(s, ops[0]), ops[1..]);
    }
  }

  /** In runs in which accepted entries are dropped, a token gives the same decision from the cache
      as from the row; only the kind of refusal may differ. */
  lemma CacheInvisible(ops: seq<Op>, h: TokenHash, holder: Option<User>)
    requires Legal(Office(), EMPTY, ops) && AllDropped(ops)
    ensures var s := After(Office(), EMPTY, ops);
            && Indexed(s.invites)
            && var cached := Decide(ReadToken(s.invites, h, s.now), holder, s.now);
               var direct := Decide(RowData(s.invites, h), holder, s.now);
               && (cached.Ok? <==> direct.Ok?)
               && (cached.Ok? ==> cached == direct && s.invites.rows[s.invites.byHash[h]].status == PendingInvite)
  {
    NoneStaleReachable(EMPTY, ops);
    CacheAgreesIff(ops, h, holder);
  }

  // ---- Invitations move once ----

  predicate Settled(v: Invites, w: Invites) {
    forall id :: id in v.rows ==>
      && id in w.rows && w.rows[id].hash == v.rows[id].hash
      && (v.rows[id].status != PendingInvite ==> w.rows[id].status == v.rows[id].status)
  }

  lemma StepSettles(s: State, op: Op)
    requires InvitesInv(s) && Enabled(s, op)
    ensures Settled(s.invites, Apply(s, op).invites)
  {
    if op.Accept? {
      AcceptInvites(s, op);
      if Closes(s, op) { TokenOfHash(s, op); }
    }
  }

  /** ACCEPTED and EXPIRED are final over every run. */
  lemma {:induction false} StatusFinal(s: State, ops: seq<Op>)
    requires InvitesInv(s) && Legal(Office(), s, ops)
    ensures Settled(s.invites, After(Office(), s, ops).invites) && InvitesInv(After(Office(), s, ops))
    decreases |ops|
  {
    if ops != [] {
      StepSettles(s, ops[0]);
      InvitesKept(s, ops[0]);
      StatusFinal(Apply(s, ops[0]), ops[1..]);
    }
  }

  /** An acceptance closes a row that is already accepted if and only if the token's entry misleads
      and the token pair is issued. */
  lemma ClosesAgainIff(s: State, op: Op)
    requires InvitesInv(s) && op.Accept? && Enabled(s, op)
    ensures Closes(s, op) && s.invites.rows[Decision(s, op).value.id].status == AcceptedInvite
            <==> Misleads(s, op.h, HolderOf(s.users, op.holder)) && !op.end.IssueFails?
  {
    if Decision(s, op).Ok? { TokenOfHash(s, op); }
  }

  lemma ClosedIsAccepted(s: State, op: Op)
    requires InvitesInv(s) && Closes(s, op)
    ensures var id := Decision(s, op).value.id;
            id in Apply(s, op).invites.rows && Apply(s, op).invites.rows[id].status == AcceptedInvite
  {
    AcceptInvites(s, op);
  }

  lemma ClosedStays(s: State, first: Op, between: seq<Op>)
    requires InvitesInv(s) && Closes(s, first) && Legal(Office(), Apply(s, first), between)
    ensures var t, id := After(Office(), Apply(s, first), between), Decision(s, first).value.id;
            InvitesInv(t) && id in t.invites.rows && t.invites.rows[id].status == AcceptedInvite
  {
    InvitesKept(s, first);
    ClosedIsAccepted(s, first);
    StatusFinal(Apply(s, first), between);
  }

  lemma NotStaleNotAgain(s: State, op: Op)
    requires InvitesInv(s) && NoneStale(s.invites) && Closes(s, op)
    ensures s.invites.rows[Decision(s, op).value.id].status != AcceptedInvite
  {
    ClosesAgainIff(s, op);
  }

  /** Where accepted entries are dropped, an invitation that one operation of a run closes is closed
      by no later one. */
  lemma AcceptedOnce(before: seq<Op>, first: Op, between: seq<Op>, second: Op)
    requires Legal(Office(), EMPTY, before + [first] + between + [second])
    requires AllDropped(before + [first] + between) && Closes(After(Office(), EMPTY, before), first)
    ensures var s1, s2 := After(Office(), EMPTY, before), After(Office(), EMPTY, before + [first] + between);
            Closes(s2, second) ==> Decision(s2, second).value.id != Decision(s1, first).value.id
  {
    var s1, s2 := After(Office(), EMPTY, before), After(Office(), EMPTY, before + [first] + between);
    Join(Office(), EMPTY, before + [first] + between, [second]);
    Join(Office(), EMPTY, before + [first], between);
    Join(Office(), EMPTY, before, [first]);
    One(Office(), s1, first);
    InvitesReachable(before);
    ClosedStays(s1, first, between);
    NoneStaleReachable(EMPTY, before + [first] + between);
    if Closes(s2, second) { NotStaleNotAgain(s2, second); }
  }

  // ---- Organizations keep their owners ----

  /** Nobody inactive is an owner: owners cannot be removed, nor made of the removed. */
  predicate NoIdleOwner(users: Users) {
    forall id :: id in users && !users[id].isActive ==> users[id].role != Owner
  }

  predicate ActiveOwner(users: Users, id: UserId, org: OrgId) {
    id in users && users[id].isActive && users[id].role == Owner && users[id].org == org
  }

  lemma StepKeepsOwners(s: State, op: Op)
    requires NoIdleOwner(s.users) && Enabled(s, op)
    ensures NoIdleOwner(Apply(s, op).users)
    ensures forall id, org :: ActiveOwner(s.users, id, org) ==> ActiveOwner(Apply(s, op).users, id, org)
  {
    if op.Accept? { AcceptUsers(s, op); }
  }

  lemma AcceptUsers(s: State, op: Op)
    requires op.Accept? && Enabled(s, op)
    ensures NewUsers(s, op) == if Decision(s, op).Ok?
                               then Joined(s.users, op.holder, op.newId, Decision(s, op).value, op.name) else s.users
    ensures Decision(s, op).Ok? && op.holder.Some? && op.holder.value in s.users ==> !s.users[op.holder.value].isActive
  {}

  /** An active owner never loses role, activity or organization. */
  lemma {:induction false} OwnersRemain(s: State, ops: seq<Op>, id: UserId, org: OrgId)
    requires NoIdleOwner(s.users) && ActiveOwner(s.users, id, org) && Legal(Office(), s, ops)
    ensures ActiveOwner(After(Office(), s, ops).users, id, org)
    decreases |ops|
  {
    if ops != [] {
      StepKeepsOwners(s, ops[0]);
      OwnersRemain(Apply(s, ops[0]), ops[1..], id, org);
    }
  }

  ghost predicate Owned(s: State) {
    NoIdleOwner(s.users) && forall org :: org in s.orgs ==> exists id :: ActiveOwner(s.users, id, org)
  }

  lemma StepKeepsOwned(s: State, op: Op)
    requires Owned(s) && Enabled(s, op)
    ensures Owned(Apply(s, op))
  {
    var s' := Apply(s, op);
    StepKeepsOwners(s, op);
    forall org | org in s'.orgs
      ensures exists id :: ActiveOwner(s'.users, id, org)
    {
      if org in s.orgs {
        var id :| ActiveOwner(s.users, id, org);
        assert ActiveOwner(s'.users, id, org);
      } else {
        assert ActiveOwner(s'.users, op.id, org);
      }
    }
  }

  /** In every reachable state every registered organization has an active owner. */
  lemma EveryOrganizationHasAnOwner(ops: seq<Op>, org: OrgId)
    requires Legal(Office(), EMPTY, ops) && org in After(Office(), EMPTY, ops).orgs
    ensures exists id :: ActiveOwner(After(Office(), EMPTY, ops).users, id, org)
  {
    forall s, op | Owned(s) && Enabled(s, op)
      ensures Owned(Apply(s, op))
    {
      StepKeepsOwned(s, op);
    }
    Invariant(Office(), s => Owned(s), EMPTY, ops);
  }

  predicate JoinsAsOwner(s: State, op: Op)
    requires op.Accept? && Enabled(s, op)
  {
    var d := Decide(ReadToken(s.invites, op.h, s.now), HolderOf(s.users, op.holder), s.now);
    d.Ok? && d.value.role == Owner
  }

  /** An owner is made by registration or by accepting an invitation as owner, and no other way. */
  lemma OwnerOrigin(s: State, op: Op, id: UserId)
    requires Enabled(s, op) && id in Apply(s, op).users && Apply(s, op).users[id].role == Owner
    requires id in s.users ==> s.users[id].role != Owner
    ensures op.Register? || (op.Accept? && JoinsAsOwner(s, op))
  {}

  lemma JoinedVerified(users: Users, v: Invites, holder: Option<UserId>, h: TokenHash, newId: UserId, name: string,
                       end: AcceptEnd, now: Instant, id: UserId)
    requires Indexed(v) && (holder.Some? ==> holder.value in users) && newId !in users
    ensures var users' := Accepting(users, v, holder, h, newId, name, end, now).1;
            var through := Decide(ReadToken(v, h, now), HolderOf(users, holder), now).Ok?;
            && (id in users ==>
                  id in users'
                  && (users'[id].isVerified <==> users[id].isVerified || (through && holder == Some(id))))
            && (id !in users && id in users' ==> users'[id].isVerified)
  {}

  /** A user is verified by confirming the email address or by accepting an invitation, no other
      operation verifies, and none takes it back. */
  lemma VerifiedIff(s: State, op: Op, id: UserId)
    requires Enabled(s, op)
    ensures var users := Apply(s, op).users;
            && (id in s.users ==>
                  && id in users
                  && (users[id].isVerified <==>
                        || s.users[id].isVerified || op == VerifyEmail(id)
                        || (op.Accept? && Decision(s, op).Ok? && op.holder == Some(id))))
            && (id !in s.users && id in users ==> (users[id].isVerified <==> op.Accept?))
  {
    if op.Accept? {
      JoinedVerified(s.users, s.invites, op.holder, op.h, op.newId, op.name, op.end, s.now, id);
    }
  }

  // ---- Accounts stay apart ----

  predicate UniqueEmails(users: Users) {
    forall a, b :: a in users && b in users && users[a].email == users[b].email ==> a == b
  }

  lemma AddKeepsEmails(users: Users, id: UserId, u: User)
    requires UniqueEmails(users) && EmailHolders(users, u.email) - {id} == {}
    ensures UniqueEmails(users[id := u])
  {
    forall other | other in users && other != id
      ensures users[other].email != u.email
    {
      assert other !in EmailHolders(users, u.email) - {id};
    }
  }

  lemma AcceptKeepsEmails(s: State, op: Op)
    requires op.Accept? && UniqueEmails(s.users) && Enabled(s, op)
    ensures UniqueEmails(Apply(s, op).users)
  {
    var data := Decide(ReadToken(s.invites, op.h, s.now), None, s.now);
    if data.Ok? && op.holder.None? {
      AddKeepsEmails(s.users, op.newId, User(data.value.email, op.name, data.value.role, true, true, data.value.org));
    }
  }

  lemma StepKeepsEmails(s: State, op: Op)
    requires UniqueEmails(s.users) && Enabled(s, op)
    ensures UniqueEmails(Apply(s, op).users)
  {
    match op
    case Register(org, id, email, name, _, _) =>
      if EmailHolders(s.users, email) == {} { AddKeepsEmails(s.users, id, User(email, name, Owner, true, false, org)); }
    case ConfirmEmail(id, org, email) =>
      if ChangeEmail(s.users, id, org, email).Ok? { AddKeepsEmails(s.users, id, s.users[id].(email := email)); }
    case Accept(_, _, _, _, _) => AcceptKeepsEmails(s, op);
    case _ =>
  }

  /** In every reachable state an email has at most one account. */
  lemma OneAccountPerEmail(ops: seq<Op>)
    requires Legal(Office(), EMPTY, ops)
    ensures UniqueEmails(After(Office(), EMPTY, ops).users)
  {
    forall s: State, op | UniqueEmails(s.users) && Enabled(s, op)
      ensures UniqueEmails(Apply(s, op).users)
    {
      StepKeepsEmails(s, op);
    }
    Invariant(Office(), (s: State) => UniqueEmails(s.users), EMPTY, ops);
  }

  predicate ActiveIn(s: State, id: UserId, org: OrgId) {
    id in s.users && s.users[id].isActive && s.users[id].org == org
  }

  lemma StepKeepsPlace(s: State, op: Op, id: UserId, org: OrgId)
    requires ActiveIn(s, id, org) && Enabled(s, op)
    ensures id in Apply(s, op).users && Apply(s, op).users[id].org == org
  {}

  /** A user changes organizations only after having been removed: one who is active all along
      ends a run where it began. */
  lemma {:induction false} ActiveUsersStay(s: State, ops: seq<Op>, id: UserId, org: OrgId)
    requires ActiveIn(s, id, org) && Legal(Office(), s, ops)
    requires forall i :: 0 <= i <= |ops| ==>
               var t := After(Office(), s, ops[..i]); id in t.users ==> t.users[id].isActive
    ensures ActiveIn(After(Office(), s, ops), id, org)
    decreases |ops|
  {
    if ops != [] {
      var s1 := Apply(s, ops[0]);
      StepKeepsPlace(s, ops[0], id, org);
      forall i | 0 <= i <= |ops| - 1
        ensures After(Office(), s, ops[..i + 1]) == After(Office(), s1, ops[1..][..i])
      {
        assert ops[..i + 1][1..] == ops[1..][..i] && ops[..i + 1][0] == ops[0];
      }
      assert After(Office(), s, ops[..1]) == s1;
      ActiveUsersStay(s1, ops[1..], id, org);
    }
  }
}
