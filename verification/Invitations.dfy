/** `InvitationService.send`: the items of one request run concurrently, and each looks for a pending
    invitation before any of the others need have saved its own. */
module Invitations {
  import opened Wrappers
  import opened Ttl
  import opened Hashing
  import opened Runs
  import opened Members
  import opened Membership

  datatype Item = Item(email: string, role: Role, org: OrgId)

  predicate OnePending(v: Invites) {
    forall a, b :: a in v.rows && b in v.rows && a != b && v.rows[a].email == v.rows[b].email
                   ==> v.rows[a].status != PendingInvite || v.rows[b].status != PendingInvite
  }

  /** Of all operations only a save can break it, and does exactly if the email got a pending
      invitation after this item looked. */
  lemma StepKeepsOnePendingIff(s: State, op: Op)
    requires InvitesInv(s) && OnePending(s.invites) && Enabled(s, op)
    ensures OnePending(Apply(s, op).invites)
            <==> (op.SendSave? ==> PendingFor(s.invites, s.sends[op.task].email) == {})
  {
    if op.SendSave? {
      var email, id := s.sends[op.task].email, op.inviteId;
      var after := Apply(s, op).invites;
      assert after.rows[id].email == email && after.rows[id].status == PendingInvite;
      if other :| other in PendingFor(s.invites, email) {
        assert after.rows[other] == s.invites.rows[other];
      } else {
        NonePending(s.invites, email);
      }
    } else {
      StepSettles(s, op);
      RowsStay(s, op);
    }
  }

  lemma NonePending(v: Invites, email: string)
    requires PendingFor(v, email) == {}
    ensures forall id :: id in v.rows && v.rows[id].email == email ==> v.rows[id].status != PendingInvite
  {
    forall id | id in v.rows && v.rows[id].email == email
      ensures v.rows[id].status != PendingInvite
    {
      assert id !in PendingFor(v, email);
    }
  }

  lemma RowsStay(s: State, op: Op)
    requires InvitesInv(s) && Enabled(s, op) && !op.SendSave?
    ensures forall id :: id in Apply(s, op).invites.rows ==>
              id in s.invites.rows && Apply(s, op).invites.rows[id].email == s.invites.rows[id].email
  {
    if op.Accept? { AcceptInvites(s, op); }
  }

  // ---- One request ----

  /** A step of one of the request's items; item i is task i. */
  predicate StepOf(items: seq<Item>, op: Op) {
    match op
    case SendStart(task, email, role, org) => task < |items| && items[task] == Item(email, role, org)
    case SendAskUser(task, _) => task < |items|
    case SendAskPending(task) => task < |items|
    case SendSave(task, _, _, _) => task < |items|
    case SendCache(task) => task < |items|
    case SendFail(task) => task < |items|
    case _ => false
  }

  predicate ScheduleOf(items: seq<Item>, ops: seq<Op>) {
    forall op :: op in ops ==> StepOf(items, op)
  }

  /** What a caller can check beforehand: no active user has the email, and nothing is pending for it. */
  predicate Passes(s: State, email: string) {
    && (forall id :: id in s.users && s.users[id].email == email ==> !s.users[id].isActive)
    && PendingFor(s.invites, email) == {}
  }

  /** No two items that pass beforehand share an email. */
  predicate NoRepeats(s: State, items: seq<Item>) {
    forall i, j :: 0 <= i < j < |items| && Passes(s, items[i].email) && Passes(s, items[j].email)
      ==> items[i].email != items[j].email
  }

  // ---- Without repeats every schedule keeps one pending invitation per email ----

  /** The row an item has saved. */
  function RowOf(p: Sending): Option<nat> {
    match p
    case Saved(id, _, _) => Some(id)
    case Over(row) => row
    case _ => None
  }

  function EmailOf(p: Sending): Option<string> {
    match p
    case Asked(email, _, _) => Some(email)
    case Free(email, _, _) => Some(email)
    case Clear(email, _, _) => Some(email)
    case _ => None
  }

  predicate ItemInv(s0: State, items: seq<Item>, task: nat, p: Sending) {
    && task < |items|
    && (EmailOf(p).Some? ==> EmailOf(p).value == items[task].email)
    && (p.Free? || p.Clear? ==>
          forall id :: id in s0.users && s0.users[id].email == items[task].email ==> !s0.users[id].isActive)
    && (p.Clear? ==> PendingFor(s0.invites, items[task].email) == {})
  }

  /** Row id was there before, or is that of an item that passes. */
  predicate RowInv(s0: State, items: seq<Item>, s: State, id: nat)
    requires id in s.invites.rows
  {
    || (id in s0.invites.rows && s.invites.rows[id] == s0.invites.rows[id])
    || (exists task :: task in s.sends && RowOf(s.sends[task]) == Some(id) && SavedBy(s0, items, s, id, task))
  }

  predicate SavedBy(s0: State, items: seq<Item>, s: State, id: nat, task: nat)
    requires id in s.invites.rows
  {
    task < |items| && s.invites.rows[id].email == items[task].email && Passes(s0, items[task].email)
  }

  predicate BatchInv(s0: State, items: seq<Item>, s: State) {
    && s.users == s0.users
    && (forall id :: id in s0.invites.rows ==> id in s.invites.rows && s.invites.rows[id] == s0.invites.rows[id])
    && (forall task :: task in s.sends ==> ItemInv(s0, items, task, s.sends[task]))
    && (forall id :: id in s.invites.rows ==> RowInv(s0, items, s, id))
  }

  lemma PendingGrows(v: Invites, w: Invites, email: string)
    requires forall id :: id in v.rows ==> id in w.rows && w.rows[id] == v.rows[id]
    ensures PendingFor(v, email) <= PendingFor(w, email)
  {}

  lemma FoundInactive(s: State, email: string, found: Option<UserId>)
    requires UniqueEmails(s.users) && FoundByEmail(s.users, email, found)
    requires found.Some? ==> !s.users[found.value].isActive
    ensures forall id :: id in s.users && s.users[id].email == email ==> !s.users[id].isActive
  {
    forall id | id in s.users && s.users[id].email == email
      ensures !s.users[id].isActive
    {
      assert id in EmailHolders(s.users, email);
    }
  }

  lemma ItemsKept(s0: State, items: seq<Item>, s: State, op: Op)
    requires UniqueEmails(s0.users) && BatchInv(s0, items, s) && StepOf(items, op) && Enabled(s, op)
    ensures forall task :: task in Apply(s, op).sends ==> ItemInv(s0, items, task, Apply(s, op).sends[task])
  {
    if op.SendAskUser? && !(op.found.Some? && s.users[op.found.value].isActive) {
      FoundInactive(s, s.sends[op.task].email, op.found);
    }
    if op.SendAskPending? { PendingGrows(s0.invites, s.invites, s.sends[op.task].email); }
  }

  lemma RowKept(s0: State, items: seq<Item>, s: State, op: Op, id: nat)
    requires BatchInv(s0, items, s) && StepOf(items, op) && Enabled(s, op) && id in s.invites.rows
    ensures id in Apply(s, op).invites.rows && RowInv(s0, items, Apply(s, op), id)
  {
    var s' := Apply(s, op);
    assert s'.invites.rows[id] == s.invites.rows[id];
    if !(id in s0.invites.rows && s.invites.rows[id] == s0.invites.rows[id]) {
      var task :| task in s.sends && RowOf(s.sends[task]) == Some(id) && SavedBy(s0, items, s, id, task);
      assert RowOf(s'.sends[task]) == Some(id) && SavedBy(s0, items, s', id, task);
    }
  }

  lemma NewRowKept(s0: State, items: seq<Item>, s: State, op: Op)
    requires BatchInv(s0, items, s) && StepOf(items, op) && Enabled(s, op) && op.SendSave?
    ensures op.inviteId in Apply(s, op).invites.rows && RowInv(s0, items, Apply(s, op), op.inviteId)
  {
    var s' := Apply(s, op);
    assert ItemInv(s0, items, op.task, s.sends[op.task]);
    assert RowOf(s'.sends[op.task]) == Some(op.inviteId) && SavedBy(s0, items, s', op.inviteId, op.task);
  }

  lemma BatchKept(s0: State, items: seq<Item>, s: State, op: Op)
    requires UniqueEmails(s0.users) && BatchInv(s0, items, s) && StepOf(items, op) && Enabled(s, op)
    ensures BatchInv(s0, items, Apply(s, op))
  {
    var s' := Apply(s, op);
    ItemsKept(s0, items, s, op);
    forall id | id in s'.invites.rows
      ensures RowInv(s0, items, s', id)
    {
      if id in s.invites.rows { RowKept(s0, items, s, op, id); } else { NewRowKept(s0, items, s, op); }
    }
  }

  lemma {:induction false} BatchRun(s0: State, items: seq<Item>, s: State, ops: seq<Op>)
    requires UniqueEmails(s0.users) && BatchInv(s0, items, s) && ScheduleOf(items, ops) && Legal(Office(), s, ops)
    ensures BatchInv(s0, items, After(Office(), s, ops))
    decreases |ops|
  {
    if ops != [] {
      assert StepOf(items, ops[0]);
      BatchKept(s0, items, s, ops[0]);
      BatchRun(s0, items, Apply(s, ops[0]), ops[1..]);
    }
  }

  lemma WithoutRepeats(s0: State, items: seq<Item>, s: State)
    requires OnePending(s0.invites) && NoRepeats(s0, items) && BatchInv(s0, items, s)
    ensures OnePending(s.invites)
  {
    var rows := s.invites.rows;
    forall a, b | a in rows && b in rows && a != b && rows[a].email == rows[b].email
      ensures s.invites.rows[a].status != PendingInvite || s.invites.rows[b].status != PendingInvite
    {
      PairKept(s0, items, s, a, b);
    }
  }

  lemma PairKept(s0: State, items: seq<Item>, s: State, a: nat, b: nat)
    requires OnePending(s0.invites) && NoRepeats(s0, items) && BatchInv(s0, items, s)
    requires a in s.invites.rows && b in s.invites.rows && a != b && s.invites.rows[a].email == s.invites.rows[b].email
    ensures s.invites.rows[a].status != PendingInvite || s.invites.rows[b].status != PendingInvite
  {
    assert RowInv(s0, items, s, a) && RowInv(s0, items, s, b);
    var email := s.invites.rows[a].email;
    if a in s0.invites.rows && b in s0.invites.rows {
      assert s.invites.rows[a] == s0.invites.rows[a] && s.invites.rows[b] == s0.invites.rows[b];
    } else if a in s0.invites.rows || b in s0.invites.rows {
      NonePending(s0.invites, email);
    }
  }

  // ---- With a repeat some schedule breaks it ----

  lemma {:induction false} Highest(ids: set<nat>) returns (n: nat)
    ensures forall i :: i in ids ==> i < n
    decreases |ids|
  {
    if ids == {} { return 0; }
    var x :| x in ids;
    var m := Highest(ids - {x});
    assert ids == {x} + (ids - {x});
    n := if x < m then m else x + 1;
  }

  function Zeros(n: nat): (s: string)
    ensures |s| == n
  {
    seq(n, i => '0')
  }

  lemma FreshToken(hashes: set<TokenHash>) returns (token: string)
    ensures Sha256(token) !in hashes
  {
    var lengths := set h | h in hashes :: |h.token|;
    var n := Highest(lengths);
    token := Zeros(n);
    forall h | h in hashes
      ensures |h.token| < n
    {
      assert |h.token| in lengths;
    }
  }

  /** An item's steps up to the two lookups. */
  function Looking(task: nat, item: Item, found: Option<UserId>): seq<Op> {
    [SendStart(task, item.email, item.role, item.org)] + [SendAskUser(task, found)] + [SendAskPending(task)]
  }

  lemma Looks(s: State, task: nat, item: Item) returns (found: Option<UserId>)
    requires Passes(s, item.email) && task !in s.sends
    ensures FoundByEmail(s.users, item.email, found)
    ensures Leads(Office(), s, Looking(task, item, found), At(s, task, Clear(item.email, item.role, item.org)))
  {
    var holders := EmailHolders(s.users, item.email);
    found := None;
    if holders != {} {
      var id :| id in holders;
      found := Some(id);
    }
    var a, b, c := SendStart(task, item.email, item.role, item.org), SendAskUser(task, found), SendAskPending(task);
    var s1 := At(s, task, Asked(item.email, item.role, item.org));
    var s2 := At(s, task, Free(item.email, item.role, item.org));
    assert Enabled(s, a) && Apply(s, a) == s1;
    UserFree(s, task, item, found);
    PendingFree(s, task, item);
    One(Office(), s, a);
    Extend(Office(), s, [a], s1, b);
    Extend(Office(), s, [a] + [b], s2, c);
  }

  function At(s: State, task: nat, p: Sending): State {
    s.(sends := s.sends[task := p])
  }

  lemma UserFree(s: State, task: nat, item: Item, found: Option<UserId>)
    requires Passes(s, item.email) && FoundByEmail(s.users, item.email, found)
    ensures var s1 := At(s, task, Asked(item.email, item.role, item.org));
            && Enabled(s1, SendAskUser(task, found))
            && Apply(s1, SendAskUser(task, found)) == At(s, task, Free(item.email, item.role, item.org))
  {}

  lemma PendingFree(s: State, task: nat, item: Item)
    requires Passes(s, item.email)
    ensures var s2 := At(s, task, Free(item.email, item.role, item.org));
            && Enabled(s2, SendAskPending(task))
            && Apply(s2, SendAskPending(task)) == At(s, task, Clear(item.email, item.role, item.org))
  {}

  lemma Saves(s: State, task: nat) returns (id: nat, op: Op)
    requires task in s.sends && s.sends[task].Clear?
    ensures op.SendSave? && op.task == task && Enabled(s, op) && id !in s.invites.rows
    ensures id in Apply(s, op).invites.rows
    ensures Apply(s, op).invites.rows[id].email == s.sends[task].email
    ensures Apply(s, op).invites.rows[id].status == PendingInvite
  {
    id := Highest(s.invites.rows.Keys);
    var token := FreshToken(s.invites.byHash.Keys);
    op := SendSave(task, id, token, 0);
  }

  lemma BothLook(s: State, items: seq<Item>, i: nat, j: nat) returns (ops: seq<Op>, t: State)
    requires i < j < |items| && i !in s.sends && j !in s.sends
    requires Passes(s, items[i].email) && Passes(s, items[j].email)
    ensures Leads(Office(), s, ops, t) && ScheduleOf(items, ops) && t.invites == s.invites
    ensures i in t.sends && t.sends[i] == Clear(items[i].email, items[i].role, items[i].org)
    ensures j in t.sends && t.sends[j] == Clear(items[j].email, items[j].role, items[j].org)
  {
    var f := Looks(s, i, items[i]);
    var s1 := At(s, i, Clear(items[i].email, items[i].role, items[i].org));
    var g := Looks(s1, j, items[j]);
    t := At(s1, j, Clear(items[j].email, items[j].role, items[j].org));
    LeadOn(Office(), s, Looking(i, items[i], f), s1, Looking(j, items[j], g), t);
    ops := Looking(i, items[i], f) + Looking(j, items[j], g);
  }

  lemma BothSave(s: State, i: nat, j: nat) returns (a: Op, b: Op)
    requires i != j && i in s.sends && s.sends[i].Clear? && j in s.sends && s.sends[j].Clear?
    requires s.sends[i].email == s.sends[j].email
    ensures a.SendSave? && a.task == i && b.SendSave? && b.task == j
    ensures Enabled(s, a) && Enabled(Apply(s, a), b) && !OnePending(Apply(Apply(s, a), b).invites)
  {
    var x, y;
    x, a := Saves(s, i);
    y, b := Saves(Apply(s, a), j);
    assert Apply(Apply(s, a), b).invites.rows[x] == Apply(s, a).invites.rows[x];
  }

  /** Two items that pass and share an email: both look, then both save. */
  lemma BothSaved(s: State, items: seq<Item>, i: nat, j: nat) returns (ops: seq<Op>)
    requires s.sends == map[] && i < j < |items| && items[i].email == items[j].email && Passes(s, items[i].email)
    ensures Legal(Office(), s, ops) && ScheduleOf(items, ops) && !OnePending(After(Office(), s, ops).invites)
  {
    var t, a, b;
    ops, t := BothLook(s, items, i, j);
    a, b := BothSave(t, i, j);
    Extend(Office(), s, ops, t, a);
    Extend(Office(), s, ops + [a], Apply(t, a), b);
    ops := ops + [a] + [b];
  }

  /** One request keeps one pending invitation per email, whatever the schedule of its items' steps
      and failures, if and only if no two of its items that pass beforehand share an email. */
  lemma RequestKeepsOnePendingIff(s: State, items: seq<Item>)
    requires UniqueEmails(s.users) && OnePending(s.invites) && s.sends == map[]
    ensures (forall ops :: Legal(Office(), s, ops) && ScheduleOf(items, ops)
               ==> OnePending(After(Office(), s, ops).invites))
            <==> NoRepeats(s, items)
  {
    if NoRepeats(s, items) {
      forall ops | Legal(Office(), s, ops) && ScheduleOf(items, ops)
        ensures OnePending(After(Office(), s, ops).invites)
      {
        BatchRun(s, items, s, ops);
        WithoutRepeats(s, items, After(Office(), s, ops));
      }
    } else {
      var i, j :| 0 <= i < j < |items| && Passes(s, items[i].email) && Passes(s, items[j].email)
                  && items[i].email == items[j].email;
      var ops := BothSaved(s, items, i, j);
    }
  }

  /** The request `[{a, MEMBER}, {a, MEMBER}]` can leave two pending invitations for a. */
  lemma OneRequestTwoInvitations() returns (ops: seq<Op>)
    ensures var item := Item("a", Member, "acme");
            && Legal(Office(), EMPTY, ops) && ScheduleOf([item, item], ops)
            && !OnePending(After(Office(), EMPTY, ops).invites)
  {
    var item := Item("a", Member, "acme");
    ops := BothSaved(EMPTY, [item, item], 0, 1);
  }

  // ---- An item that runs alone ----

  /** The steps of an item that no other interrupts leave what `sendOne` is specified to leave. */
  lemma AloneIsSendOne(s: State, task: nat, item: Item, id: nat, token: string, ttl: nat)
    returns (ops: seq<Op>, found: Option<UserId>)
    requires task !in s.sends && Passes(s, item.email) && id !in s.invites.rows && Sha256(token) !in s.invites.byHash
    ensures FoundByEmail(s.users, item.email, found)
    ensures var i := NewInvitation(item.email, item.role, token, item.org, ttl, s.now);
            var sent := SendingOne(s.users, s.invites, HolderOf(s.users, found), id, i, ttl, Sends, s.now);
            sent.0.None? && Leads(Office(), s, ops, At(s, task, Over(Some(id))).(invites := sent.1))
  {
    found := Looks(s, task, item);
    var i := NewInvitation(item.email, item.role, token, item.org, ttl, s.now);
    var s1 := At(s, task, Clear(item.email, item.role, item.org));
    var save := SendSave(task, id, token, ttl);
    var s2 := At(s, task, Saved(id, i, ttl)).(invites := SavedInvite(s.invites, id, i));
    SaveStep(s, task, item, id, token, ttl);
    CacheStep(s, task, id, i, ttl);
    ops := Looking(task, item, found);
    Extend(Office(), s, ops, s1, save);
    Extend(Office(), s, ops + [save], s2, SendCache(task));
    ops := ops + [save] + [SendCache(task)];
  }

  lemma SaveStep(s: State, task: nat, item: Item, id: nat, token: string, ttl: nat)
    requires id !in s.invites.rows && Sha256(token) !in s.invites.byHash
    ensures var i := NewInvitation(item.email, item.role, token, item.org, ttl, s.now);
            var s1 := At(s, task, Clear(item.email, item.role, item.org));
            && Enabled(s1, SendSave(task, id, token, ttl))
            && Apply(s1, SendSave(task, id, token, ttl))
                 == At(s, task, Saved(id, i, ttl)).(invites := SavedInvite(s.invites, id, i))
  {}

  lemma CacheStep(s: State, task: nat, id: nat, i: Invitation, ttl: nat)
    ensures var s2 := At(s, task, Saved(id, i, ttl)).(invites := SavedInvite(s.invites, id, i));
            && Enabled(s2, SendCache(task))
            && Apply(s2, SendCache(task))
                 == At(s, task, Over(Some(id))).(invites := CachedFor(SavedInvite(s.invites, id, i), id, i, ttl, s.now))
  {}

  // ---- An entry that could not be dropped ----

  const OWNER := User("o@acme", "", Owner, true, false, "acme")

  lemma InvitedRun(h: TokenHash, i: Invitation) returns (ops: seq<Op>, s: State)
    requires i == NewInvitation("a", Member, "t", "acme", 1000, 0) && h == i.hash
    ensures Leads(Office(), EMPTY, ops, s)
    ensures s.users == map["o" := OWNER] && s.orgs == {"acme"} && s.now == 0 && s.sends == map[0 := Over(Some(0))]
    ensures s.invites.rows == map[0 := i] && s.invites.byHash == map[h := 0]
    ensures s.invites.cache == map[h := Cell(CachedInvite(0, "a", "acme", Member, i.expiresAt), Some(1000000))]
  {
    var register := Register("acme", "o", "o@acme", "", true, true);
    var s1 := EMPTY.(users := map["o" := OWNER], orgs := {"acme"});
    assert EmailHolders(map[], "o@acme") == {};
    assert Enabled(EMPTY, register) && Apply(EMPTY, register) == s1;
    One(Office(), EMPTY, register);
    assert PendingFor(s1.invites, "a") == {};
    var more, found := AloneIsSendOne(s1, 0, Item("a", Member, "acme"), 0, "t", 1000);
    s := After(Office(), s1, more);
    LeadOn(Office(), EMPTY, [register], s1, more, s);
    ops := [register] + more;
  }

  const MEMBER := User("a", "", Member, true, true, "acme")

  /** The state after `InvitedRun`. */
  predicate JustInvited(s: State, i: Invitation) {
    && i == NewInvitation("a", Member, "t", "acme", 1000, 0)
    && s.users == map["o" := OWNER] && s.now == 0 && (forall task :: task in s.sends ==> !s.sends[task].Saved?)
    && s.invites.rows == map[0 := i] && s.invites.byHash == map[i.hash := 0]
    && s.invites.cache == map[i.hash := Cell(CachedInvite(0, "a", "acme", Member, i.expiresAt), Some(1000000))]
  }

  lemma FirstDecision(s: State, i: Invitation, op: Op)
    requires JustInvited(s, i) && op == Accept(None, i.hash, "u", "", DropFails)
    ensures Closes(s, op) && Decision(s, op) == Ok(TokenData(0, "a", "acme", Member, PendingInvite, i.expiresAt))
  {
    assert EmailHolders(s.users, "a") == {};
  }

  /** The invitation is accepted by a new user, and its entry stays. */
  lemma FirstAcceptance(s: State, i: Invitation, op: Op) returns (t: State)
    requires JustInvited(s, i) && op == Accept(None, i.hash, "u", "", DropFails)
    ensures Closes(s, op) && Decision(s, op).value.id == 0 && t == Apply(s, op)
    ensures t.users == map["o" := OWNER, "u" := MEMBER] && t.now == 0 && t.sends == s.sends
    ensures t.invites == s.invites.(rows := map[0 := i.(status := AcceptedInvite)])
  {
    FirstDecision(s, i, op);
    t := Apply(s, op);
    AcceptInvites(s, op);
    AcceptUsers(s, op);
    assert map["o" := OWNER]["u" := MEMBER] == map["o" := OWNER, "u" := MEMBER];
  }

  lemma MemberRemoved(s: State, op: Op) returns (t: State)
    requires op == Remove(Caller("o", "acme", Owner), "u") && s.users == map["o" := OWNER, "u" := MEMBER]
    ensures Enabled(s, op) && Apply(s, op) == t == s.(users := map["o" := OWNER, "u" := MEMBER.(isActive := false)])
  {
    t := s.(users := map["o" := OWNER, "u" := MEMBER.(isActive := false)]);
    assert s.users["u" := MEMBER.(isActive := false)] == t.users;
  }

  lemma SecondAcceptance(s: State, i: Invitation, op: Op)
    requires i == NewInvitation("a", Member, "t", "acme", 1000, 0)
    requires op == Accept(Some("u"), i.hash, "v", "", Completes)
    requires s.users == map["o" := OWNER, "u" := MEMBER.(isActive := false)] && s.now == 0
    requires forall task :: task in s.sends ==> !s.sends[task].Saved?
    requires s.invites.rows == map[0 := i.(status := AcceptedInvite)] && s.invites.byHash == map[i.hash := 0]
    requires s.invites.cache == map[i.hash := Cell(CachedInvite(0, "a", "acme", Member, i.expiresAt), Some(1000000))]
    ensures Closes(s, op) && Decision(s, op).value.id == 0
  {
    assert "u" in EmailHolders(s.users, "a");
  }

  /** A run from the start in which one invitation is accepted twice: its entry could not be dropped,
      its user was removed, and the same token revives the user. */
  lemma AcceptedTwice() returns (before: seq<Op>, first: Op, between: seq<Op>, second: Op)
    ensures Legal(Office(), EMPTY, before + [first] + between + [second])
    ensures var s1, s2 := After(Office(), EMPTY, before), After(Office(), EMPTY, before + [first] + between);
            && Closes(s1, first) && first.end.DropFails?
            && Closes(s2, second) && Decision(s2, second).value.id == Decision(s1, first).value.id
  {
    var i := NewInvitation("a", Member, "t", "acme", 1000, 0);
    var leave := Remove(Caller("o", "acme", Owner), "u");
    first, between := Accept(None, i.hash, "u", "", DropFails), [leave];
    second := Accept(Some("u"), i.hash, "v", "", Completes);
    var s1;
    before, s1 := InvitedRun(i.hash, i);
    var s2 := FirstAcceptance(s1, i, first);
    var s3 := MemberRemoved(s2, leave);
    SecondAcceptance(s3, i, second);
    Extend(Office(), EMPTY, before, s1, first);
    Extend(Office(), EMPTY, before + [first], s2, leave);
    Extend(Office(), EMPTY, before + [first] + between, s3, second);
  }
}
