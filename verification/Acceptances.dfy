/** What an accepted invitation leaves behind: the user as the invitation was sent, and nobody else
    touched. Invitations are traced back to the requests that sent them. */
module Acceptances {
  import opened Wrappers
  import opened Ttl
  import opened Hashing
  import opened Runs
  import opened Members
  import opened Membership

  // ---- Rows are as they were sent ----

  function StartOf(ops: seq<Op>, task: nat): Option<Op> {
    if ops == [] then None
    else
      var op := ops[|ops| - 1];
      if op.SendStart? && op.task == task then Some(op) else StartOf(ops[..|ops| - 1], task)
  }

  function SaveOf(ops: seq<Op>, id: nat): Option<Op> {
    if ops == [] then None
    else
      var op := ops[|ops| - 1];
      if op.SendSave? && op.inviteId == id then Some(op) else SaveOf(ops[..|ops| - 1], id)
  }

  predicate AskedAs(p: Sending, start: Option<Op>) {
    && start.Some? && start.value.SendStart?
    && (p.Asked? || p.Free? || p.Clear? ==>
          p.email == start.value.email && p.role == start.value.role && p.org == start.value.org)
  }

  /** The row has the email, role and organization its item was sent with, and its token's hash. */
  predicate RowAsSent(i: Invitation, start: Option<Op>, save: Option<Op>) {
    && start.Some? && start.value.SendStart? && save.Some? && save.value.SendSave?
    && i.email == start.value.email && i.role == start.value.role && i.org == start.value.org
    && i.hash == Sha256(save.value.token)
  }

  predicate Traced(ops: seq<Op>, s: State) {
    && (forall task :: task in s.sends ==> AskedAs(s.sends[task], StartOf(ops, task)))
    && (forall id :: id in s.invites.rows ==>
          && SaveOf(ops, id).Some? && SaveOf(ops, id).value.SendSave? && SaveOf(ops, id).value.task in s.sends
          && RowAsSent(s.invites.rows[id], StartOf(ops, SaveOf(ops, id).value.task), SaveOf(ops, id)))
  }

  lemma StartNext(ops: seq<Op>, op: Op, task: nat)
    ensures StartOf(ops + [op], task) == if op.SendStart? && op.task == task then Some(op) else StartOf(ops, task)
  {
    assert (ops + [op])[..|ops|] == ops;
  }

  lemma SaveNext(ops: seq<Op>, op: Op, id: nat)
    ensures SaveOf(ops + [op], id) == if op.SendSave? && op.inviteId == id then Some(op) else SaveOf(ops, id)
  {
    assert (ops + [op])[..|ops|] == ops;
  }

  /** No step changes what an invitation says, and only a save adds one. */
  lemma RowFieldsKept(s: State, op: Op, id: nat)
    requires InvitesInv(s) && Enabled(s, op) && id in Apply(s, op).invites.rows
    ensures var w := Apply(s, op).invites.rows[id];
            if id in s.invites.rows then
              var v := s.invites.rows[id];
              w.email == v.email && w.role == v.role && w.org == v.org && w.hash == v.hash && w.expiresAt == v.expiresAt
            else op.SendSave? && op.inviteId == id
  {
    if op.Accept? { AcceptInvites(s, op); }
  }

  /** What a save stores: its item's email, role and organization, pending, with the token's hash and
      the configured seconds to go. */
  lemma SavedFields(s: State, op: Op)
    requires Enabled(s, op) && op.SendSave?
    ensures var p, i := s.sends[op.task], Apply(s, op).invites.rows;
            && op.inviteId in i
            && i[op.inviteId] == Invitation(p.email, p.role, Sha256(op.token), p.org, PendingInvite,
                                            s.now + 1000 * op.ttl)
  {}

  lemma SendsTraced(ops: seq<Op>, s: State, op: Op)
    requires Traced(ops, s) && Enabled(s, op)
    ensures forall task :: task in Apply(s, op).sends ==> AskedAs(Apply(s, op).sends[task], StartOf(ops + [op], task))
    ensures forall task :: task in s.sends ==>
            task in Apply(s, op).sends && StartOf(ops + [op], task) == StartOf(ops, task)
  {
    forall task: nat
      ensures StartOf(ops + [op], task) == if op.SendStart? && op.task == task then Some(op) else StartOf(ops, task)
    {
      StartNext(ops, op, task);
    }
  }

  lemma RowTraced(ops: seq<Op>, s: State, op: Op, id: nat)
    requires InvitesInv(s) && Traced(ops, s) && Enabled(s, op) && id in Apply(s, op).invites.rows
    ensures var save := SaveOf(ops + [op], id);
            && save.Some? && save.value.SendSave? && save.value.task in Apply(s, op).sends
            && RowAsSent(Apply(s, op).invites.rows[id], StartOf(ops + [op], save.value.task), save)
  {
    SendsTraced(ops, s, op);
    SaveNext(ops, op, id);
    RowFieldsKept(s, op, id);
    if op.SendSave? && op.inviteId == id {
      SavedFields(s, op);
      assert AskedAs(s.sends[op.task], StartOf(ops, op.task));
    }
  }

  lemma {:induction false} TracedReachable(ops: seq<Op>)
    requires Legal(Office(), EMPTY, ops)
    ensures Traced(ops, After(Office(), EMPTY, ops))
  {
    if ops != [] {
      var n := |ops| - 1;
      LastStep(Office(), EMPTY, ops);
      TracedReachable(ops[..n]);
      InvitesReachable(ops[..n]);
      var s, op := After(Office(), EMPTY, ops[..n]), ops[n];
      assert ops[..n] + [op] == ops;
      SendsTraced(ops[..n], s, op);
      forall id | id in Apply(s, op).invites.rows
        ensures SaveOf(ops, id).Some? && SaveOf(ops, id).value.SendSave?
                && SaveOf(ops, id).value.task in Apply(s, op).sends
        ensures RowAsSent(Apply(s, op).invites.rows[id], StartOf(ops, SaveOf(ops, id).value.task), SaveOf(ops, id))
      {
        RowTraced(ops[..n], s, op, id);
      }
    }
  }

  // ---- Which acceptances are let through ----

  predicate NobodyActive(users: Users, email: string) {
    forall id :: id in users && users[id].email == email ==> !users[id].isActive
  }

  lemma HolderSpeaks(users: Users, email: string, holder: Option<UserId>)
    requires UniqueEmails(users) && FoundByEmail(users, email, holder)
    ensures NobodyActive(users, email) <==> !(HolderOf(users, holder).Some? && HolderOf(users, holder).value.isActive)
  {
    forall id | id in users && users[id].email == email
      ensures holder == Some(id)
    {
      assert id in EmailHolders(users, email);
    }
  }

  lemma DecidesAsRow(s: State, op: Op)
    requires InvitesInv(s) && NoneStale(s.invites) && op.Accept? && Enabled(s, op)
    ensures Decide(ReadToken(s.invites, op.h, s.now), None, s.now).Ok? <==>
              && op.h in s.invites.byHash
              && s.invites.rows[s.invites.byHash[op.h]].status == PendingInvite
              && s.now <= s.invites.rows[s.invites.byHash[op.h]].expiresAt
    ensures Decide(ReadToken(s.invites, op.h, s.now), None, s.now).Ok? ==>
              Decide(ReadToken(s.invites, op.h, s.now), None, s.now).value.email
                == s.invites.rows[s.invites.byHash[op.h]].email
  {}

  /** In runs in which accepted entries are dropped, an acceptance is let through if and only if the
      token is an invitation's that is pending and not past its expiry, and no active user has the
      invited email. */
  lemma LetThroughIff(ops: seq<Op>, op: Op)
    requires Legal(Office(), EMPTY, ops) && AllDropped(ops)
    requires op.Accept? && Enabled(After(Office(), EMPTY, ops), op)
    ensures var s := After(Office(), EMPTY, ops);
            Decision(s, op).Ok? <==>
              && op.h in s.invites.byHash && s.invites.byHash[op.h] in s.invites.rows
              && var i := s.invites.rows[s.invites.byHash[op.h]];
                 i.status == PendingInvite && s.now <= i.expiresAt && NobodyActive(s.users, i.email)
  {
    var s := After(Office(), EMPTY, ops);
    InvitesReachable(ops);
    NoneStaleReachable(EMPTY, ops);
    OneAccountPerEmail(ops);
    DecidesAsRow(s, op);
    if Decide(ReadToken(s.invites, op.h, s.now), None, s.now).Ok? {
      HolderSpeaks(s.users, s.invites.rows[s.invites.byHash[op.h]].email, op.holder);
    }
  }

  // ---- The user an acceptance leaves ----

  lemma DecidedAsRow(s: State, op: Op)
    requires InvitesInv(s) && op.Accept? && Enabled(s, op) && Decision(s, op).Ok?
    ensures op.h in s.invites.byHash
    ensures var i, d := s.invites.rows[s.invites.byHash[op.h]], Decision(s, op).value;
            d.email == i.email && d.role == i.role && d.org == i.org
    ensures FoundByEmail(s.users, Decision(s, op).value.email, op.holder)
  {
    TokenOfHash(s, op);
  }

  /** Which user: the one who had the email, else the new one. */
  function AcceptedId(op: Op): UserId
    requires op.Accept?
  {
    if op.holder.Some? then op.holder.value else op.newId
  }

  predicate AsInvited(u: User, i: Invitation) {
    u.email == i.email && u.role == i.role && u.org == i.org && u.isActive && u.isVerified
  }

  lemma LeavesUser(s: State, op: Op)
    requires InvitesInv(s) && op.Accept? && Enabled(s, op) && Decision(s, op).Ok?
    ensures op.h in s.invites.byHash
    ensures var id, users, i := AcceptedId(op), Apply(s, op).users, s.invites.rows[s.invites.byHash[op.h]];
            && id in users && AsInvited(users[id], i)
            && users[id].name == (if id in s.users && op.name == "" then s.users[id].name else op.name)
            && forall other :: other != id ==>
                 (other in users <==> other in s.users) && (other in users ==> users[other] == s.users[other])
  {
    DecidedAsRow(s, op);
    AcceptUsers(s, op);
  }

  /** After any run: an acceptance that the checks let through leaves exactly one user under the
      invited email, active and verified, with the role and organization of the invitation, and
      every other user as before, whether or not a later call fails. */
  lemma AcceptedUser(ops: seq<Op>, op: Op)
    requires Legal(Office(), EMPTY, ops) && op.Accept? && Enabled(After(Office(), EMPTY, ops), op)
    requires Decision(After(Office(), EMPTY, ops), op).Ok?
    ensures var s := After(Office(), EMPTY, ops);
            && op.h in s.invites.byHash && s.invites.byHash[op.h] in s.invites.rows
            && var i, id, users := s.invites.rows[s.invites.byHash[op.h]], AcceptedId(op), Apply(s, op).users;
               && id in users && users[id].email == i.email && users[id].isActive && users[id].isVerified
               && users[id].role == i.role && users[id].org == i.org
               && (forall other :: other in users && users[other].email == i.email ==> other == id)
               && forall other :: other != id ==>
                    (other in users <==> other in s.users) && (other in users ==> users[other] == s.users[other])
  {
    var s := After(Office(), EMPTY, ops);
    InvitesReachable(ops);
    OneAccountPerEmail(ops);
    StepKeepsEmails(s, op);
    LeavesUser(s, op);
  }

  /** So the user has the email, role and organization of the request that sent the invitation. */
  lemma AcceptedAsSent(ops: seq<Op>, op: Op)
    requires Legal(Office(), EMPTY, ops) && op.Accept? && Enabled(After(Office(), EMPTY, ops), op)
    requires Decision(After(Office(), EMPTY, ops), op).Ok?
    ensures var s := After(Office(), EMPTY, ops);
            && op.h in s.invites.byHash
            && var save := SaveOf(ops, s.invites.byHash[op.h]);
               && save.Some? && save.value.SendSave? && op.h == Sha256(save.value.token)
               && var start := StartOf(ops, save.value.task);
                  && start.Some? && start.value.SendStart? && AcceptedId(op) in Apply(s, op).users
                  && var u := Apply(s, op).users[AcceptedId(op)];
                     u.email == start.value.email && u.role == start.value.role && u.org == start.value.org
  {
    InvitesReachable(ops);
    AcceptedUser(ops, op);
    TracedReachable(ops);
  }
}
