/** Users, their roles, and the invitations that create or revive them: `UserService`,
    `InvitationService` and the user half of `register`. */
module Members {
  import opened Wrappers
  import opened Ttl
  import opened Hashing

  type UserId = string
  type OrgId = string

  datatype Role = Owner | Admin | Member

  datatype User = User(email: string, name: string, role: Role, isActive: bool, isVerified: bool, org: OrgId)

  datatype Status = PendingInvite | AcceptedInvite | ExpiredInvite

  type TokenHash = Hash<string>

  datatype Invitation = Invitation(email: string, role: Role, hash: TokenHash, org: OrgId, status: Status,
                                   expiresAt: Instant)

  datatype CachedInvite = CachedInvite(id: nat, email: string, org: OrgId, role: Role, expiresAt: Instant)

  type Users = map<UserId, User>

  /** The caller's token claims. */
  datatype Caller = Caller(userId: UserId, org: OrgId, role: Role)

  datatype UserError =
    | UserNotFound | AlreadyRemoved | Yourself | OwnerProtected | AdminByAdmin
    | CannotAssignOwner | Deactivated | SameRole | EmailTaken

  function FindById(users: Users, id: UserId, org: OrgId): Option<User> {
    if id in users && users[id].org == org then Some(users[id]) else None
  }

  function EmailHolders(users: Users, email: string): set<UserId> {
    set id | id in users && users[id].email == email
  }

  /** The guards of `remove`, in order. */
  function RemoveUser(users: Users, caller: Caller, id: UserId): Result<Users, UserError> {
    var u := FindById(users, id, caller.org);
    if u.None? then Err(UserNotFound)
    else if !u.value.isActive then Err(AlreadyRemoved)
    else if caller.userId == id then Err(Yourself)
    else if u.value.role == Owner then Err(OwnerProtected)
    else if caller.role == Admin && u.value.role == Admin then Err(AdminByAdmin)
    else Ok(users[id := u.value.(isActive := false)])
  }

  /** The guards of `updateRole`, in order. */
  function ChangeRole(users: Users, caller: Caller, id: UserId, role: Role): Result<Users, UserError> {
    if role == Owner then Err(CannotAssignOwner)
    else
      var u := FindById(users, id, caller.org);
      if u.None? then Err(UserNotFound)
      else if !u.value.isActive then Err(Deactivated)
      else if caller.userId == id then Err(Yourself)
      else if role == u.value.role then Err(SameRole)
      else if u.value.role == Owner then Err(OwnerProtected)
      else Ok(users[id := u.value.(role := role)])
  }

  /** `update`: the DTO carries names only. */
  function Rename(users: Users, id: UserId, name: string): Result<Users, UserError> {
    if id !in users then Err(UserNotFound) else Ok(users[id := users[id].(name := name)])
  }

  /** `confirmEmailChange`, with the data its token stands for; emails are unique. */
  function ChangeEmail(users: Users, id: UserId, org: OrgId, email: string): Result<Users, UserError> {
    var u := FindById(users, id, org);
    if u.None? then Err(UserNotFound)
    else if !u.value.isActive then Err(Deactivated)
    else if EmailHolders(users, email) - {id} != {} then Err(EmailTaken)
    else Ok(users[id := u.value.(email := email)])
  }

  class UserService {
    var users: Users

    constructor ()
      ensures users == map[]
    {
      users := map[];
    }

    method GetByEmail(email: string) returns (found: Option<UserId>)
      ensures found.Some? ==> found.value in EmailHolders(users, email)
      ensures found.None? ==> EmailHolders(users, email) == {}
    {
      var ids := EmailHolders(users, email);
      if ids == {} { return None; }
      var id :| id in ids;
      found := Some(id);
    }

    method Create(id: UserId, user: User)
      requires id !in users
      modifies this
      ensures users == old(users)[id := user]
    {
      users := users[id := user];
    }

    method Preload(id: UserId, patch: User -> User) returns (r: Result<User, UserError>)
      modifies this
      ensures r == if id in old(users) then Ok(patch(old(users)[id])) else Err(UserNotFound)
      ensures users == if r.Ok? then old(users)[id := r.value] else old(users)
    {
      if id !in users { return Err(UserNotFound); }
      users := users[id := patch(users[id])];
      r := Ok(users[id]);
    }

    method Remove(caller: Caller, id: UserId) returns (r: Result<(), UserError>)
      modifies this
      ensures var after := RemoveUser(old(users), caller, id);
              if after.Ok? then r == Ok(()) && users == after.value else r == Err(after.error) && users == old(users)
    {
      if id !in users || users[id].org != caller.org { return Err(UserNotFound); }
      var user := users[id];
      if !user.isActive { return Err(AlreadyRemoved); }
      if caller.userId == id { return Err(Yourself); }
      if user.role == Owner { return Err(OwnerProtected); }
      if caller.role == Admin && user.role == Admin { return Err(AdminByAdmin); }
      users := users[id := user.(isActive := false)];
      r := Ok(());
    }

    method UpdateRole(caller: Caller, id: UserId, role: Role) returns (r: Result<(), UserError>)
      modifies this
      ensures var after := ChangeRole(old(users), caller, id, role);
              if after.Ok? then r == Ok(()) && users == after.value else r == Err(after.error) && users == old(users)
    {
      if role == Owner { return Err(CannotAssignOwner); }
      if id !in users || users[id].org != caller.org { return Err(UserNotFound); }
      var user := users[id];
      if !user.isActive { return Err(Deactivated); }
      if caller.userId == id { return Err(Yourself); }
      if role == user.role { return Err(SameRole); }
      if user.role == Owner { return Err(OwnerProtected); }
      users := users[id := user.(role := role)];
      r := Ok(());
    }

    method Update(id: UserId, name: string) returns (r: Result<(), UserError>)
      modifies this
      ensures var after := Rename(old(users), id, name);
              if after.Ok? then r == Ok(()) && users == after.value else r == Err(after.error) && users == old(users)
    {
      if id !in users { return Err(UserNotFound); }
      users := users[id := users[id].(name := name)];
      r := Ok(());
    }

    method ConfirmEmailChange(id: UserId, org: OrgId, email: string) returns (r: Result<(), UserError>)
      modifies this
      ensures var after := ChangeEmail(old(users), id, org, email);
              if after.Ok? then r == Ok(()) && users == after.value else r == Err(after.error) && users == old(users)
    {
      if id !in users || users[id].org != org { return Err(UserNotFound); }
      if !users[id].isActive { return Err(Deactivated); }
      if EmailHolders(users, email) - {id} != {} { return Err(EmailTaken); }
      users := users[id := users[id].(email := email)];
      r := Ok(());
    }
  }

  // ---- Invitations ----

  /** The invitations table with its unique index on token_hash, and the `invite:` keys. */
  datatype Invites = Invites(rows: map<nat, Invitation>, byHash: map<TokenHash, nat>,
                             cache: Store<TokenHash, CachedInvite>)

  predicate Indexed(v: Invites) {
    && (forall h :: h in v.byHash ==> v.byHash[h] in v.rows && v.rows[v.byHash[h]].hash == h)
    && (forall id :: id in v.rows ==> v.rows[id].hash in v.byHash && v.byHash[v.rows[id].hash] == id)
  }

  datatype InviteError =
    | InvalidInvite | NotPending | InviteExpired | MemberAlready | RegisteredElsewhere
    | IssueFailed | InvitationNotFound | EntryKept

  /** `tokenData`; an entry read from the cache carries no status, which defaults to PENDING. */
  datatype TokenData = TokenData(id: nat, email: string, org: OrgId, role: Role, status: Status, expiresAt: Instant)

  function FromCache(c: CachedInvite): TokenData {
    TokenData(c.id, c.email, c.org, c.role, PendingInvite, c.expiresAt)
  }

  function FromRow(id: nat, i: Invitation): TokenData {
    TokenData(id, i.email, i.org, i.role, i.status, i.expiresAt)
  }

  function RowData(v: Invites, h: TokenHash): Result<TokenData, InviteError>
    requires Indexed(v)
  {
    if h in v.byHash then Ok(FromRow(v.byHash[h], v.rows[v.byHash[h]])) else Err(InvalidInvite)
  }

  function ReadToken(v: Invites, h: TokenHash, now: Instant): Result<TokenData, InviteError>
    requires Indexed(v)
  {
    var c := Get(v.cache, h, now);
    if c.Some? then Ok(FromCache(c.value)) else RowData(v, h)
  }

  /** The checks of `acceptInvitation`; `holder` is the user found under the invited email. */
  function Decide(data: Result<TokenData, InviteError>, holder: Option<User>, now: Instant)
    : Result<TokenData, InviteError>
  {
    if data.Err? then data
    else if data.value.status != PendingInvite then Err(NotPending)
    else if now > data.value.expiresAt then Err(InviteExpired)
    else if holder.Some? && holder.value.isActive then
      Err(if holder.value.org == data.value.org then MemberAlready else RegisteredElsewhere)
    else data
  }

  /** The invited email's user, if any, is revived into the inviting organization; else created. */
  function Joined(users: Users, holder: Option<UserId>, newId: UserId, data: TokenData, name: string): Users {
    if holder.Some? && holder.value in users then
      var u := users[holder.value];
      users[holder.value := u.(name := if name != "" then name else u.name, role := data.role, org := data.org,
                               isActive := true, isVerified := true)]
    else users[newId := User(data.email, name, data.role, true, true, data.org)]
  }

  predicate FoundByEmail(users: Users, email: string, holder: Option<UserId>) {
    if holder.Some? then holder.value in EmailHolders(users, email) else EmailHolders(users, email) == {}
  }

  function HolderOf(users: Users, holder: Option<UserId>): Option<User> {
    if holder.Some? && holder.value in users then Some(users[holder.value]) else None
  }

  /** How far an acceptance gets that is not refused: to the end, to the token pair that cannot be
      issued, or to the cache entry that cannot be dropped. */
  datatype AcceptEnd = Completes | IssueFails | DropFails

  /** The row is closed, and its cache entry dropped unless that fails. */
  function Close(v: Invites, h: TokenHash, id: nat, end: AcceptEnd): Invites
    requires id in v.rows
  {
    Invites(v.rows[id := v.rows[id].(status := AcceptedInvite)], v.byHash,
            if end.DropFails? then v.cache else Del(v.cache, h))
  }

  /** All of `acceptInvitation`: the user is written first, then a token pair issued, then the row
      closed, if it is there, then the cache entry dropped. */
  function Accepting(users: Users, v: Invites, holder: Option<UserId>, h: TokenHash, newId: UserId, name: string,
                     end: AcceptEnd, now: Instant)
    : (Result<TokenData, InviteError>, Users, Invites)
    requires Indexed(v)
  {
    var d := Decide(ReadToken(v, h, now), HolderOf(users, holder), now);
    if d.Err? then (d, users, v)
    else
      var joined := Joined(users, holder, newId, d.value, name);
      if end.IssueFails? then (Err(IssueFailed), joined, v)
      else if d.value.id !in v.rows then (Err(InvitationNotFound), joined, v)
      else (if end.DropFails? then Err(EntryKept) else d, joined, Close(v, h, d.value.id, end))
  }

  function Expire(v: Invites, now: Instant): Invites {
    v.(rows := map id | id in v.rows ::
         if v.rows[id].status == PendingInvite && v.rows[id].expiresAt < now then v.rows[id].(status := ExpiredInvite)
         else v.rows[id])
  }

  function PendingFor(v: Invites, email: string): set<nat> {
    set id | id in v.rows && v.rows[id].email == email && v.rows[id].status == PendingInvite
  }

  datatype SendError = ExistsHere | ExistsElsewhere | AlreadyInvited | Failed

  /** How far an invitation gets that is not refused; `sendOne` catches every failure. */
  datatype SendEnd = Sends | SaveFails | CacheFails | MailFails

  function SendCheck(users: Users, v: Invites, holder: Option<User>, email: string, org: OrgId): Option<SendError> {
    if holder.Some? && holder.value.isActive then Some(if holder.value.org == org then ExistsHere else ExistsElsewhere)
    else if PendingFor(v, email) != {} then Some(AlreadyInvited)
    else None
  }

  function NewInvitation(email: string, role: Role, token: string, org: OrgId, ttl: nat, now: Instant): Invitation {
    Invitation(email, role, Sha256(token), org, PendingInvite, now + 1000 * ttl)
  }

  function SavedInvite(v: Invites, id: nat, i: Invitation): Invites {
    v.(rows := v.rows[id := i], byHash := v.byHash[i.hash := id])
  }

  function CachedFor(v: Invites, id: nat, i: Invitation, ttl: nat, now: Instant): Invites {
    v.(cache := Put(v.cache, i.hash, CachedInvite(id, i.email, i.org, i.role, i.expiresAt), ttl, now))
  }

  /** All of `sendOne`, uninterrupted: the checks, the row, the cache entry, the mail. */
  function SendingOne(users: Users, v: Invites, holder: Option<User>, id: nat, i: Invitation, ttl: nat, end: SendEnd,
                      now: Instant): (Option<SendError>, Invites)
  {
    var refused := SendCheck(users, v, holder, i.email, i.org);
    if refused.Some? then (refused, v)
    else if end.SaveFails? then (Some(Failed), v)
    else
      var saved := SavedInvite(v, id, i);
      if end.CacheFails? then (Some(Failed), saved)
      else (if end.MailFails? then Some(Failed) else None, CachedFor(saved, id, i, ttl, now))
  }

  class InvitationService {
    const userService: UserService
    const ttl: nat
    var rows: map<nat, Invitation>
    var byHash: map<TokenHash, nat>
    var cache: Store<TokenHash, CachedInvite>

    constructor (userService: UserService, ttl: nat)
      ensures this.userService == userService && this.ttl == ttl && State() == Invites(map[], map[], map[])
    {
      this.userService, this.ttl, rows, byHash, cache := userService, ttl, map[], map[], map[];
    }

    function State(): Invites
      reads this
    {
      Invites(rows, byHash, cache)
    }

    /** `sendOne`, for an item that runs alone; the token is fresh random text, the id the next of
        the table's sequence. */
    method SendOne(email: string, role: Role, org: OrgId, token: string, id: nat, end: SendEnd, now: Instant)
      returns (error: Option<SendError>, holder: Option<UserId>)
      requires id !in rows && Sha256(token) !in byHash
      modifies this
      ensures FoundByEmail(userService.users, email, holder)
      ensures (error, State()) == SendingOne(userService.users, old(State()), HolderOf(userService.users, holder), id,
                                             NewInvitation(email, role, token, org, ttl, now), ttl, end, now)
    {
      holder := userService.GetByEmail(email);
      if holder.Some? && userService.users[holder.value].isActive {
        var here := userService.users[holder.value].org == org;
        return Some(if here then ExistsHere else ExistsElsewhere), holder;
      }
      if PendingFor(State(), email) != {} { return Some(AlreadyInvited), holder; }
      if end.SaveFails? { return Some(Failed), holder; }
      var i := NewInvitation(email, role, token, org, ttl, now);
      rows, byHash := rows[id := i], byHash[i.hash := id];
      if end.CacheFails? { return Some(Failed), holder; }
      cache := Put(cache, i.hash, CachedInvite(id, email, org, role, i.expiresAt), ttl, now);
      error := if end.MailFails? then Some(Failed) else None;
    }

    /** `acceptInvitation`, up to the token pair it returns. The email is looked up only once the
        token has passed its own checks. */
    method Accept(token: string, name: string, newId: UserId, end: AcceptEnd, now: Instant)
      returns (r: Result<TokenData, InviteError>, holder: Option<UserId>)
      requires Indexed(State()) && newId !in userService.users
      modifies this, userService
      ensures (r, userService.users, State())
                == Accepting(old(userService.users), old(State()), holder, Sha256(token), newId, name, end, now)
      ensures var data := Decide(ReadToken(old(State()), Sha256(token), now), None, now);
              if data.Ok? then FoundByEmail(old(userService.users), data.value.email, holder) else holder.None?
    {
      var h := Sha256(token);
      holder := None;
      var data: TokenData;
      if h in cache && Unexpired(cache[h], now) {
        data := FromCache(cache[h].value);
      } else {
        if h !in byHash { return Err(InvalidInvite), None; }
        data := FromRow(byHash[h], rows[byHash[h]]);
      }
      if data.status != PendingInvite { return Err(NotPending), None; }
      if now > data.expiresAt { return Err(InviteExpired), None; }
      holder := userService.GetByEmail(data.email);
      if holder.Some? && userService.users[holder.value].isActive {
        var here := userService.users[holder.value].org == data.org;
        return Err(if here then MemberAlready else RegisteredElsewhere), holder;
      }
      if holder.Some? {
        var _ := userService.Preload(holder.value, (u: User) =>
          u.(name := if name != "" then name else u.name, role := data.role, org := data.org,
             isActive := true, isVerified := true));
      } else {
        userService.Create(newId, User(data.email, name, data.role, true, true, data.org));
      }
      if end.IssueFails? { return Err(IssueFailed), holder; }
      if data.id !in rows { return Err(InvitationNotFound), holder; }
      rows := rows[data.id := rows[data.id].(status := AcceptedInvite)];
      if end.DropFails? { return Err(EntryKept), holder; }
      cache := cache - {h};
      r := Ok(data);
    }

    method ExpireInvitations(now: Instant)
      modifies this
      ensures State() == Expire(old(State()), now)
    {
      rows := map id | id in rows ::
        if rows[id].status == PendingInvite && rows[id].expiresAt < now then rows[id].(status := ExpiredInvite)
        else rows[id];
    }
  }

  datatype RegisterError = PlansNotFound | TransactionFailed

  /** `register`: a new organization and its owner in one transaction, unless the plan is unknown,
      the email is taken, or the transaction is rolled back. */
  function Registered(users: Users, orgs: set<OrgId>, org: OrgId, id: UserId, email: string, name: string,
                      planFound: bool, commits: bool): (Result<(), RegisterError>, Users, set<OrgId>)
  {
    if !planFound then (Err(PlansNotFound), users, orgs)
    else if EmailHolders(users, email) != {} then (Ok(()), users, orgs)
    else if !commits then (Err(TransactionFailed), users, orgs)
    else (Ok(()), users[id := User(email, name, Owner, true, false, org)], orgs + {org})
  }

  class RegistrationService {
    const userService: UserService
    var orgs: set<OrgId>

    constructor (userService: UserService)
      ensures this.userService == userService && orgs == {}
    {
      this.userService, orgs := userService, {};
    }

    /** A taken email is answered like a new one. */
    method Register(org: OrgId, id: UserId, email: string, name: string, planFound: bool, commits: bool)
      returns (r: Result<(), RegisterError>)
      requires org !in orgs && id !in userService.users
      modifies this, userService
      ensures (r, userService.users, orgs)
                == Registered(old(userService.users), old(orgs), org, id, email, name, planFound, commits)
    {
      if !planFound { return Err(PlansNotFound); }
      var existing := userService.GetByEmail(email);
      if existing.Some? { return Ok(()); }
      if !commits { return Err(TransactionFailed); }
      orgs := orgs + {org};
      userService.Create(id, User(email, name, Owner, true, false, org));
      r := Ok(());
    }
  }

  // ---- What each operation asks for and sets, field by field ----

  /** A removal goes through exactly for an active user of the caller's organization who is neither
      the caller nor an owner, nor an admin if the caller is one; it clears activity, nothing else. */
  lemma RemoveSets(users: Users, caller: Caller, id: UserId)
    ensures RemoveUser(users, caller, id).Ok? <==>
              && id in users && users[id].org == caller.org && users[id].isActive && id != caller.userId
              && users[id].role != Owner && !(caller.role == Admin && users[id].role == Admin)
    ensures RemoveUser(users, caller, id).Ok? ==>
              RemoveUser(users, caller, id).value == users[id := users[id].(isActive := false)]
    ensures var r := RemoveUser(users, caller, id);
            var mine := id in users && users[id].org == caller.org;
            && (r == Err(UserNotFound) <==> !mine)
            && (r == Err(AlreadyRemoved) <==> mine && !users[id].isActive)
            && (r == Err(Yourself) <==> mine && users[id].isActive && id == caller.userId)
            && (r == Err(OwnerProtected) <==>
                  mine && users[id].isActive && id != caller.userId && users[id].role == Owner)
            && (r == Err(AdminByAdmin) <==>
                  mine && users[id].isActive && id != caller.userId && users[id].role == Admin && caller.role == Admin)
  {}

  /** A role change goes through exactly for an active user of the caller's organization, not the
      caller, from a role other than owner to another one other than owner; it sets that role. */
  lemma RoleSets(users: Users, caller: Caller, id: UserId, role: Role)
    ensures ChangeRole(users, caller, id, role).Ok? <==>
              && id in users && users[id].org == caller.org && users[id].isActive && id != caller.userId
              && role != Owner && users[id].role != Owner && role != users[id].role
    ensures ChangeRole(users, caller, id, role).Ok? ==>
              ChangeRole(users, caller, id, role).value == users[id := users[id].(role := role)]
    ensures var r := ChangeRole(users, caller, id, role);
            var mine := role != Owner && id in users && users[id].org == caller.org;
            var other := mine && users[id].isActive && id != caller.userId;
            && (r == Err(CannotAssignOwner) <==> role == Owner)
            && (r == Err(UserNotFound) <==> role != Owner && !mine)
            && (r == Err(Deactivated) <==> mine && !users[id].isActive)
            && (r == Err(Yourself) <==> mine && users[id].isActive && id == caller.userId)
            && (r == Err(SameRole) <==> other && users[id].role == role)
            && (r == Err(OwnerProtected) <==> other && users[id].role == Owner)
  {}

  /** A profile update goes through for every user and sets the name, nothing else. */
  lemma RenameSets(users: Users, id: UserId, name: string)
    ensures Rename(users, id, name).Ok? <==> id in users
    ensures id !in users ==> Rename(users, id, name) == Err(UserNotFound)
    ensures Rename(users, id, name).Ok? ==> Rename(users, id, name).value == users[id := users[id].(name := name)]
  {}

  /** An email change goes through exactly for an active user of the organization, to an email that no
      other user has; it sets the email, nothing else. */
  lemma EmailSets(users: Users, id: UserId, org: OrgId, email: string)
    ensures ChangeEmail(users, id, org, email).Ok? <==>
              && id in users && users[id].org == org && users[id].isActive
              && forall other :: other in users && other != id ==> users[other].email != email
    ensures ChangeEmail(users, id, org, email).Ok? ==>
              ChangeEmail(users, id, org, email).value == users[id := users[id].(email := email)]
    ensures var r := ChangeEmail(users, id, org, email);
            && (r == Err(UserNotFound) <==> id !in users || users[id].org != org)
            && (r == Err(Deactivated) <==> id in users && users[id].org == org && !users[id].isActive)
            && (r.Err? && id in users && users[id].org == org && users[id].isActive ==> r == Err(EmailTaken))
  {
    var others := EmailHolders(users, email) - {id};
    assert forall other :: other in others <==> other in users && users[other].email == email && other != id;
    if others != {} {
      var other :| other in others;
      assert users[other].email == email;
    }
  }

  /** A registration adds an active, unverified owner of a new organization exactly when the plan
      exists, nobody has the email, and the transaction commits; else it adds nothing. */
  lemma RegistrationSets(users: Users, orgs: set<OrgId>, org: OrgId, id: UserId, email: string, name: string,
                         planFound: bool, commits: bool)
    ensures var (r, users', orgs') := Registered(users, orgs, org, id, email, name, planFound, commits);
            if planFound && commits && (forall u :: u in users ==> users[u].email != email)
            then
              && r == Ok(()) && users' == users[id := User(email, name, Owner, true, false, org)]
              && orgs' == orgs + {org}
            else
              && users' == users && orgs' == orgs && (r == Err(PlansNotFound) <==> !planFound)
              && (r == Err(TransactionFailed) <==> planFound && forall u :: u in users ==> users[u].email != email)
  {
    var holders := EmailHolders(users, email);
    assert forall u :: u in holders <==> u in users && users[u].email == email;
    if holders != {} {
      var u :| u in holders;
      assert users[u].email == email;
    }
  }

  /** The daily run expires exactly the pending invitations whose time is before `now`, and changes
      nothing else. */
  lemma ExpireSets(v: Invites, now: Instant)
    ensures Expire(v, now).byHash == v.byHash && Expire(v, now).cache == v.cache
            && Expire(v, now).rows.Keys == v.rows.Keys
    ensures forall id :: id in v.rows ==>
              Expire(v, now).rows[id] == if v.rows[id].status == PendingInvite && v.rows[id].expiresAt < now
                                         then v.rows[id].(status := ExpiredInvite) else v.rows[id]
  {}

  /** An invitation is refused exactly if the email has an active user or a pending invitation. */
  lemma SendRefusedIff(users: Users, v: Invites, holder: Option<User>, email: string, org: OrgId)
    ensures SendCheck(users, v, holder, email, org).Some? <==>
              (holder.Some? && holder.value.isActive)
              || exists id :: id in v.rows && v.rows[id].email == email && v.rows[id].status == PendingInvite
    ensures holder.Some? && holder.value.isActive ==>
              SendCheck(users, v, holder, email, org)
                == Some(if holder.value.org == org then ExistsHere else ExistsElsewhere)
  {
    var pending := PendingFor(v, email);
    if pending != {} {
      var id :| id in pending;
      assert v.rows[id].email == email && v.rows[id].status == PendingInvite;
    }
    if id :| id in v.rows && v.rows[id].email == email && v.rows[id].status == PendingInvite {
      assert id in pending;
    }
  }

  /** An invitation that is not refused is stored, cached and mailed in this order, up to the first
      call that fails; the sender learns of a failure, and what was done stays. */
  lemma SendOutcome(users: Users, v: Invites, holder: Option<User>, id: nat, i: Invitation, ttl: nat, end: SendEnd,
                    now: Instant)
    ensures var (error, v') := SendingOne(users, v, holder, id, i, ttl, end, now);
            var refused := SendCheck(users, v, holder, i.email, i.org);
            && error == (if refused.Some? then refused else if end.Sends? then None else Some(Failed))
            && v'.rows == (if refused.None? && !end.SaveFails? then v.rows[id := i] else v.rows)
            && v'.byHash == (if refused.None? && !end.SaveFails? then v.byHash[i.hash := id] else v.byHash)
            && v'.cache == if refused.None? && (end.Sends? || end.MailFails?)
                           then v.cache[i.hash := Cell(CachedInvite(id, i.email, i.org, i.role, i.expiresAt),
                                                       if ttl == 0 then None else Some(now + 1000 * ttl))]
                           else v.cache
  {}

  /** A token is refused for the first of these reasons: it is unknown, its invitation is no longer
      pending, its time is over, or the invited email has an active user, here or elsewhere. */
  lemma RefusedFor(v: Invites, holder: Option<User>, h: TokenHash, now: Instant)
    requires Indexed(v)
    ensures var c := Get(v.cache, h, now);
            var known := c.Some? || h in v.byHash;
            var row := c.None? && h in v.byHash;
            var pending := c.Some? || (row && v.rows[v.byHash[h]].status == PendingInvite);
            var end := if c.Some? then c.value.expiresAt else if row then v.rows[v.byHash[h]].expiresAt else now;
            var org := if c.Some? then c.value.org else if row then v.rows[v.byHash[h]].org else "";
            var d := Decide(ReadToken(v, h, now), holder, now);
            && (d == Err(InvalidInvite) <==> !known)
            && (d == Err(NotPending) <==> known && !pending)
            && (d == Err(InviteExpired) <==> pending && end < now)
            && (d == Err(MemberAlready) <==>
                  pending && now <= end && holder.Some? && holder.value.isActive && holder.value.org == org)
            && (d == Err(RegisteredElsewhere) <==>
                  pending && now <= end && holder.Some? && holder.value.isActive && holder.value.org != org)
            && (d.Ok? <==> pending && now <= end && !(holder.Some? && holder.value.isActive))
  {}

  /** What becomes of an acceptance that is let through: the user is there in any case; the row is
      closed unless no pair could be issued, and the cache entry dropped unless that fails. A new user
      gets the given name, a revived one keeps the old one if none is given. */
  lemma AcceptOutcome(users: Users, v: Invites, holder: Option<UserId>, h: TokenHash, newId: UserId, name: string,
                      end: AcceptEnd, now: Instant)
    requires Indexed(v)
    ensures var (r, users', v') := Accepting(users, v, holder, h, newId, name, end, now);
            var d := Decide(ReadToken(v, h, now), HolderOf(users, holder), now);
            if d.Err? then r == d && users' == users && v' == v
            else
              var i := d.value.id;
              var revived := holder.Some? && holder.value in users;
              var id := if revived then holder.value else newId;
              && id in users' && users'[id].name == (if revived && name == "" then users[id].name else name)
              && (end.IssueFails? ==> r == Err(IssueFailed) && v' == v)
              && (!end.IssueFails? && i !in v.rows ==> r == Err(InvitationNotFound) && v' == v)
              && (!end.IssueFails? && i in v.rows ==>
                    && r == (if end.DropFails? then Err(EntryKept) else d)
                    && v'.rows == v.rows[i := v.rows[i].(status := AcceptedInvite)] && v'.byHash == v.byHash
                    && v'.cache == if end.DropFails? then v.cache else v.cache - {h})
  {}
}
