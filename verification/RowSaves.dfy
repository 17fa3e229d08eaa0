/** Whole-row saves under concurrency: `updatePlan` and `updateName` read an organization's row and
    save it back later, while subscription jobs, Stripe's events, nightly runs, registrations and
    other such saves go on. Reads and deactivations carry ghost step stamps. */
module RowSaves {
  import opened Wrappers
  import opened Organizations
  import opened Runs
  import opened Lifecycle
  import opened Faults
  import Billing

  /** A row that was read at some step and is still to be saved. Names are not modelled, so a
      renaming saves the row as it was read. */
  datatype Pending =
    | Renaming(id: OrgId, row: Org, read: nat)
    | Switching(id: OrgId, row: Org, newPlan: Plan, read: nat)
  {
    function Saved(): Org {
      if Switching? then Switched(row, newPlan) else row
    }
  }

  datatype State = State(orgs: Orgs, pending: map<nat, Pending>, step: nat, deactivatedAt: map<OrgId, nat>)

  datatype Event =
    | Atomic(op: Op)                                              // everything but plan switches
    | ReadForSwitch(task: nat, id: OrgId, newPlan: Option<Plan>)  // refused at once unless switchable
    | ReadForRename(task: nat, id: OrgId)
    | Save(task: nat, stripeOk: bool)                             // a refused Stripe call ends a switch unsaved
    | Crash(task: nat)

  predicate Enabled(s: State, e: Event) {
    match e
    case Atomic(op) => !op.ChangePlan? && Lifecycle.Enabled(s.orgs, op)
    case ReadForSwitch(task, id, _) => task !in s.pending && id in s.orgs
    case ReadForRename(task, id) => task !in s.pending && id in s.orgs
    case Save(task, _) => task in s.pending
    case Crash(task) => task in s.pending
  }

  function NewOrgs(s: State, e: Event): Orgs
    requires Enabled(s, e)
  {
    match e
    case Atomic(op) => Lifecycle.Apply(s.orgs, op)
    case Save(task, stripeOk) =>
      var p := s.pending[task];
      if p.Renaming? || stripeOk then s.orgs[p.id := p.Saved()] else s.orgs
    case _ => s.orgs
  }

  function NewPending(s: State, e: Event): map<nat, Pending>
    requires Enabled(s, e)
  {
    match e
    case Atomic(_) => s.pending
    case ReadForSwitch(task, id, newPlan) =>
      if Switchable(s.orgs[id], newPlan) then s.pending[task := Switching(id, s.orgs[id], newPlan.value, s.step)]
      else s.pending
    case ReadForRename(task, id) => s.pending[task := Renaming(id, s.orgs[id], s.step)]
    case Save(task, _) => s.pending - {task}
    case Crash(task) => s.pending - {task}
  }

  predicate Deactivates(before: Orgs, after: Orgs, id: OrgId) {
    id in before && id in after && before[id].isActive && !after[id].isActive
  }

  /** When each organization was last deactivated. */
  function Stamped(s: State, after: Orgs): map<OrgId, nat> {
    map id | id in after && (id in s.deactivatedAt || Deactivates(s.orgs, after, id)) ::
      if Deactivates(s.orgs, after, id) then s.step else s.deactivatedAt[id]
  }

  function Apply(s: State, e: Event): State {
    if !Enabled(s, e) then s
    else State(NewOrgs(s, e), NewPending(s, e), s.step + 1, Stamped(s, NewOrgs(s, e)))
  }

  function Office(): Machine<State, Event> {
    Machine((s, e) => Enabled(s, e), (s, e) => Apply(s, e))
  }

  function Start(orgs: Orgs): State {
    State(orgs, map[], 1, map id | id in orgs && !orgs[id].isActive :: 0)
  }

  // ---- How a deactivated organization can come back ----

  predicate StampsInv(s: State) {
    forall id :: id in s.orgs && !s.orgs[id].isActive ==> id in s.deactivatedAt && s.deactivatedAt[id] < s.step
  }

  /** A pending active row of an inactive organization was read before the deactivation. */
  predicate PendingInv(s: State) {
    forall task :: task in s.pending ==>
      var p := s.pending[task];
      && p.id in s.orgs && p.read < s.step
      && (p.row.paymentStatus == Cancelled ==> !p.row.isActive)
      && (p.Switching? ==> HasActivePayment(p.row))
      && (p.row.isActive && !s.orgs[p.id].isActive ==> p.id in s.deactivatedAt && p.read < s.deactivatedAt[p.id])
  }

  predicate Inv(s: State) {
    Sound(s.orgs) && StampsInv(s) && PendingInv(s)
  }

  /** What an operation other than a save keeps. */
  lemma AtomicKeeps(orgs: Orgs, op: Op)
    requires Sound(orgs) && Lifecycle.Enabled(orgs, op)
    ensures Sound(Lifecycle.Apply(orgs, op)) && Onward(orgs, Lifecycle.Apply(orgs, op))
    ensures forall id :: id in Lifecycle.Apply(orgs, op) && id !in orgs ==> Lifecycle.Apply(orgs, op)[id].isActive
  {
    Lifecycle.StepKeeps(orgs, op);
  }

  lemma OrgsKept(s: State, e: Event)
    requires Inv(s) && Enabled(s, e)
    ensures Sound(NewOrgs(s, e)) && forall id :: id in s.orgs ==> id in NewOrgs(s, e)
    ensures forall id :: id in NewOrgs(s, e) && id !in s.orgs ==> NewOrgs(s, e)[id].isActive
  {
    if e.Atomic? { AtomicKeeps(s.orgs, e.op); }
  }

  lemma StampsKept(s: State, e: Event)
    requires Inv(s) && Enabled(s, e)
    ensures StampsInv(Apply(s, e))
  {
    OrgsKept(s, e);
  }

  lemma PendingKept(s: State, e: Event)
    requires Inv(s) && Enabled(s, e)
    ensures PendingInv(Apply(s, e))
  {
    OrgsKept(s, e);
    StampsKept(s, e);
    var s' := Apply(s, e);
    forall task | task in s'.pending
      ensures var p := s'.pending[task];
              && p.id in s'.orgs && p.read < s'.step
              && (p.row.paymentStatus == Cancelled ==> !p.row.isActive)
              && (p.Switching? ==> HasActivePayment(p.row))
              && (p.row.isActive && !s'.orgs[p.id].isActive ==>
                    p.id in s'.deactivatedAt && p.read < s'.deactivatedAt[p.id])
    {
      if task in s.pending && s'.pending[task] == s.pending[task] {
        PendingRowKept(s, e, s.pending[task]);
      }
    }
  }

  lemma PendingRowKept(s: State, e: Event, p: Pending)
    requires Inv(s) && Enabled(s, e) && p.id in s.orgs && p.id in NewOrgs(s, e) && p.read < s.step
    requires p.row.isActive && !s.orgs[p.id].isActive ==> p.id in s.deactivatedAt && p.read < s.deactivatedAt[p.id]
    ensures var s' := Apply(s, e);
            p.row.isActive && !s'.orgs[p.id].isActive ==> p.id in s'.deactivatedAt && p.read < s'.deactivatedAt[p.id]
  {}

  lemma Reachable(orgs: Orgs, evs: seq<Event>)
    requires Sound(orgs) && Legal(Office(), Start(orgs), evs)
    ensures Inv(After(Office(), Start(orgs), evs))
  {
    forall s, e | Inv(s) && Enabled(s, e)
      ensures Inv(Apply(s, e))
    {
      OrgsKept(s, e);
      StampsKept(s, e);
      PendingKept(s, e);
    }
    Invariant(Office(), s => Inv(s), Start(orgs), evs);
  }

  /** Even with saves overlapping everything else, CANCELLED implies inactive. */
  lemma CancelledStaysInactive(orgs: Orgs, evs: seq<Event>)
    requires Sound(orgs) && Legal(Office(), Start(orgs), evs)
    ensures Sound(After(Office(), Start(orgs), evs).orgs)
  {
    Reachable(orgs, evs);
  }

  /** In every run, an inactive organization becomes active only by a save, and the row saved was
      read, active, before the organization's last deactivation. */
  lemma ReactivationOrigin(orgs: Orgs, evs: seq<Event>, e: Event, id: OrgId)
    requires Sound(orgs) && Legal(Office(), Start(orgs), evs) && Enabled(After(Office(), Start(orgs), evs), e)
    requires var s := After(Office(), Start(orgs), evs);
             id in s.orgs && !s.orgs[id].isActive && id in Apply(s, e).orgs && Apply(s, e).orgs[id].isActive
    ensures var s := After(Office(), Start(orgs), evs);
            && e.Save? && s.pending[e.task].id == id && s.pending[e.task].row.isActive
            && id in s.deactivatedAt && s.pending[e.task].read < s.deactivatedAt[id]
  {
    Reachable(orgs, evs);
    var s := After(Office(), Start(orgs), evs);
    if e.Atomic? { AtomicKeeps(s.orgs, e.op); }
  }

  /** In every run, a step loses a stored subscription id if and only if it is a renaming's save of a
      row that was read without one; from then on the nightly runs may suspend and cancel the
      paying organization. */
  lemma SubscriptionLossIff(orgs: Orgs, evs: seq<Event>, e: Event, id: OrgId)
    requires Sound(orgs) && Legal(Office(), Start(orgs), evs) && Enabled(After(Office(), Start(orgs), evs), e)
    requires var s := After(Office(), Start(orgs), evs); id in s.orgs && s.orgs[id].subscriptionId.Some?
    ensures var s := After(Office(), Start(orgs), evs);
            id in Apply(s, e).orgs && Apply(s, e).orgs[id].subscriptionId.None? <==>
              && e.Save? && s.pending[e.task].Renaming? && s.pending[e.task].id == id
              && s.pending[e.task].row.subscriptionId.None?
  {
    Reachable(orgs, evs);
    var s := After(Office(), Start(orgs), evs);
    if e.Atomic? { AtomicKeeps(s.orgs, e.op); }
  }

  // ---- Exactly when a save undoes a deactivation ----

  predicate Mentions(e: Event, task: nat) {
    !e.Atomic? && e.task == task
  }

  lemma {:induction false} PendingStays(s: State, evs: seq<Event>, task: nat)
    requires Legal(Office(), s, evs) && forall e :: e in evs ==> !Mentions(e, task)
    ensures var t := After(Office(), s, evs);
            (task in t.pending <==> task in s.pending) && (task in s.pending ==> t.pending[task] == s.pending[task])
    decreases |evs|
  {
    if evs != [] {
      assert !Mentions(evs[0], task);
      PendingStays(Apply(s, evs[0]), evs[1..], task);
    }
  }

  /** The event that reads a row for a switch to newPlan, or, without one, for a renaming. */
  function Reading(task: nat, id: OrgId, rename: bool, newPlan: Option<Plan>): Event {
    if rename then ReadForRename(task, id) else ReadForSwitch(task, id, newPlan)
  }

  /** A row is read in state s, anything else happens, and then comes the save. It reactivates the
      organization if and only if that is inactive by then, was active when read, and either this
      is a renaming, or the switch was allowed for the row as read and Stripe accepts it. */
  lemma SaveUndoesDeactivationIff(s: State, task: nat, id: OrgId, rename: bool, newPlan: Option<Plan>,
                                  between: seq<Event>, stripeOk: bool)
    requires Enabled(s, Reading(task, id, rename, newPlan))
             && Legal(Office(), Apply(s, Reading(task, id, rename, newPlan)), between)
    requires forall e :: e in between ==> !Mentions(e, task)
    ensures var mid := After(Office(), Apply(s, Reading(task, id, rename, newPlan)), between);
            var end := Apply(mid, Save(task, stripeOk));
            (id in mid.orgs && !mid.orgs[id].isActive && id in end.orgs && end.orgs[id].isActive)
            <==> && id in mid.orgs && !mid.orgs[id].isActive && s.orgs[id].isActive
                 && (rename || (Switchable(s.orgs[id], newPlan) && stripeOk))
  {
    PendingStays(Apply(s, Reading(task, id, rename, newPlan)), between, task);
  }

  /** A row is read in state s, anything else happens, and then comes the save. It loses the stored
      subscription id if and only if there is one by then, and this is a renaming of a row that had
      none when it was read. */
  lemma SaveErasesSubscriptionIff(s: State, task: nat, id: OrgId, rename: bool, newPlan: Option<Plan>,
                                  between: seq<Event>, stripeOk: bool)
    requires Enabled(s, Reading(task, id, rename, newPlan))
             && Legal(Office(), Apply(s, Reading(task, id, rename, newPlan)), between)
    requires forall e :: e in between ==> !Mentions(e, task)
    ensures var mid := After(Office(), Apply(s, Reading(task, id, rename, newPlan)), between);
            var end := Apply(mid, Save(task, stripeOk));
            (id in mid.orgs && mid.orgs[id].subscriptionId.Some? && id in end.orgs && end.orgs[id].subscriptionId.None?)
            <==> && id in mid.orgs && mid.orgs[id].subscriptionId.Some?
                 && rename && s.orgs[id].subscriptionId.None?
  {
    PendingStays(Apply(s, Reading(task, id, rename, newPlan)), between, task);
  }

  /** With anything at all between read and save, the save puts back every field as it was read,
      whatever has become of the row meanwhile; a switch that Stripe accepts changes the plan and ends
      a trial, and one that was refused or not accepted writes nothing. No other row is touched. */
  lemma SaveWrites(s: State, task: nat, id: OrgId, rename: bool, newPlan: Option<Plan>, between: seq<Event>,
                   stripeOk: bool)
    requires Enabled(s, Reading(task, id, rename, newPlan))
             && Legal(Office(), Apply(s, Reading(task, id, rename, newPlan)), between)
    requires forall e :: e in between ==> !Mentions(e, task)
    ensures var mid := After(Office(), Apply(s, Reading(task, id, rename, newPlan)), between);
            var row := s.orgs[id];
            Apply(mid, Save(task, stripeOk)).orgs ==
              if rename then mid.orgs[id := row]
              else if SwitchPlan(row, newPlan, stripeOk).Err? then mid.orgs
              else mid.orgs[id := row.(plan := newPlan.value, paymentStatus := Paying,
                                       trialEndsAt := if row.paymentStatus == Trial then None else row.trialEndsAt)]
  {
    PendingStays(Apply(s, Reading(task, id, rename, newPlan)), between, task);
    SwitchSets(s.orgs[id], newPlan, stripeOk);
  }

  /** A run from the start in which a cancelled subscription's organization comes back. */
  lemma SaveCanReactivate() returns (orgs: Orgs, evs: seq<Event>)
    ensures Sound(orgs) && Legal(Office(), Start(orgs), evs + [Save(0, true)])
    ensures var s := After(Office(), Start(orgs), evs);
            "acme" in s.orgs && !s.orgs["acme"].isActive && Apply(s, Save(0, true)).orgs["acme"].isActive
  {
    var plan := Plan(1, "Pro", Some("price_1"), 14);
    var org := Org(plan, Some("cus_0"), Some("sub_0"), Paying, true, None);
    orgs := map["acme" := org];
    var read := ReadForSwitch(0, "acme", Some(plan.(id := 2)));
    var gone := Atomic(Op.Event(SubscriptionDeleted("sub_0"), Some("acme")));
    var s0 := Start(orgs);
    var s1 := Apply(s0, read);
    var s2 := Apply(s1, gone);
    One(Office(), s0, read);
    Extend(Office(), s0, [read], s1, gone);
    evs := [read] + [gone];
    Extend(Office(), s0, evs, s2, Save(0, true));
  }

  /** A run from the start in which a renaming erases the subscription id a job has just stored. */
  lemma RenameCanEraseSubscription() returns (orgs: Orgs, evs: seq<Event>)
    ensures Sound(orgs) && Legal(Office(), Start(orgs), evs + [Save(0, true)])
    ensures var s := After(Office(), Start(orgs), evs);
            && "acme" in s.orgs && s.orgs["acme"].subscriptionId.Some?
            && Apply(s, Save(0, true)).orgs["acme"].subscriptionId.None?
  {
    var org := Org(Plan(1, "Pro", Some("price_1"), 0), Some("cus_0"), None, PaymentStatus.Trial, true, None);
    orgs := map["acme" := org];
    var script := Billing.Script(0, true, Works, Works, Works, false, Works);
    var read := ReadForRename(0, "acme");
    var job := Atomic(SubscribeJob("acme", Billing.Server(["cus_0"], [], map[]), script));
    assert Billing.Attempt(org, Billing.Server(["cus_0"], [], map[]), script).1.subscriptionId.Some?;
    var s0 := Start(orgs);
    var s1 := Apply(s0, read);
    var s2 := Apply(s1, job);
    One(Office(), s0, read);
    Extend(Office(), s0, [read], s1, job);
    evs := [read] + [job];
    Extend(Office(), s0, evs, s2, Save(0, true));
  }
}
