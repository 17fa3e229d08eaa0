/** Everything that writes an organization's status: registration, the subscription job, plan
    switches, Stripe's events and the nightly run, each one atomic. */
module Lifecycle {
  import opened Wrappers
  import opened Ttl
  import opened Organizations
  import opened Runs
  import opened Faults
  import Billing
  import TrialExpiry

  datatype StripeStatus = StripeActive | Trialing | PastDue | Unpaid | Canceled | OtherStatus

  datatype StripeEvent =
    | SubscriptionUpdated(subscription: string, status: StripeStatus)
    | SubscriptionDeleted(subscription: string)
    | InvoicePaymentFailed(customer: Option<string>)
    | OtherEvent

  /** Which row the event is about. */
  predicate Concerns(ev: StripeEvent, org: Org) {
    match ev
    case SubscriptionUpdated(sub, _) => org.subscriptionId == Some(sub)
    case SubscriptionDeleted(sub) => org.subscriptionId == Some(sub)
    case InvoicePaymentFailed(customer) => customer.Some? && customer.value != "" && org.customerId == customer
    case OtherEvent => false
  }

  function MapStatus(s: StripeStatus): Option<PaymentStatus> {
    match s
    case StripeActive => Some(Paying)
    case Trialing => Some(Trial)
    case PastDue => Some(Suspended)
    case Unpaid => Some(Suspended)
    case Canceled => Some(Cancelled)
    case OtherStatus => None
  }

  /** What the event does to the row it concerns. */
  function React(ev: StripeEvent, org: Org): Org {
    match ev
    case SubscriptionUpdated(_, status) =>
      var p := MapStatus(status);
      if p.None? then org
      else org.(paymentStatus := p.value, isActive := org.isActive && !p.value.Cancelled?)
    case SubscriptionDeleted(_) => org.(paymentStatus := Cancelled, isActive := false)
    case InvoicePaymentFailed(_) => org.(paymentStatus := Suspended)
    case OtherEvent => org
  }

  function Patched(orgs: Orgs, id: Option<OrgId>, ev: StripeEvent): Orgs
    requires id.Some? ==> id.value in orgs
  {
    if id.Some? then orgs[id.value := React(ev, orgs[id.value])] else orgs
  }

  class StripeWebhookService {
    const organizations: OrganizationService

    constructor (organizations: OrganizationService)
      ensures this.organizations == organizations
    {
      this.organizations := organizations;
    }

    /** The row found is one the event concerns, and is absent only if no row is. */
    method HandleWebhook(ev: StripeEvent) returns (found: Option<OrgId>)
      modifies organizations
      ensures found.Some? ==>
                found.value in old(organizations.orgs) && Concerns(ev, old(organizations.orgs)[found.value])
      ensures found.None? ==> forall id :: id in old(organizations.orgs) ==> !Concerns(ev, old(organizations.orgs)[id])
      ensures organizations.orgs == Patched(old(organizations.orgs), found, ev)
    {
      ghost var before := organizations.orgs;
      found := None;
      match ev
      case SubscriptionUpdated(sub, status) =>
        found := organizations.GetOneBy((o: Org) => o.subscriptionId == Some(sub));
        NoneConcerned(before, ev, (o: Org) => o.subscriptionId == Some(sub), found);
        if found.None? { return; }
        var p := MapStatus(status);
        if p.None? {
          assert before[found.value := before[found.value]] == before;
          return;
        }
        if p.value == Cancelled {
          organizations.UpdateFields(found.value, (o: Org) => o.(paymentStatus := Cancelled, isActive := false));
        } else {
          organizations.UpdateFields(found.value, (o: Org) => o.(paymentStatus := p.value));
        }
      case SubscriptionDeleted(sub) =>
        found := organizations.GetOneBy((o: Org) => o.subscriptionId == Some(sub));
        NoneConcerned(before, ev, (o: Org) => o.subscriptionId == Some(sub), found);
        if found.None? { return; }
        organizations.UpdateFields(found.value, (o: Org) => o.(paymentStatus := Cancelled, isActive := false));
      case InvoicePaymentFailed(customer) =>
        if customer.None? || customer.value == "" { return; }
        found := organizations.GetOneBy((o: Org) => o.customerId == customer);
        NoneConcerned(before, ev, (o: Org) => o.customerId == customer, found);
        if found.None? { return; }
        organizations.UpdateFields(found.value, (o: Org) => o.(paymentStatus := Suspended));
      case OtherEvent =>
    }
  }

  lemma NoneConcerned(orgs: Orgs, ev: StripeEvent, where: Org -> bool, found: Option<OrgId>)
    requires found.None? ==> Matching(orgs, where) == {}
    requires forall o :: where(o) <==> Concerns(ev, o)
    ensures found.None? ==> forall id :: id in orgs ==> !Concerns(ev, orgs[id])
  {
    if found.None? {
      forall id | id in orgs
        ensures !Concerns(ev, orgs[id])
      {
        assert id !in Matching(orgs, where);
      }
    }
  }

  datatype PlanError =
    | OrganizationNotFound | NoActiveSubscription | PlanNotFound | PlanWithoutPrice | PlanAlreadyActive | StripeFailed

  predicate HasActivePayment(org: Org) {
    && org.subscriptionId.Some? && org.subscriptionId.value != ""
    && (org.paymentStatus == Paying || org.paymentStatus == Trial)
  }

  /** What lets a plan switch through, before Stripe is asked. */
  predicate Switchable(org: Org, newPlan: Option<Plan>) {
    && HasActivePayment(org) && newPlan.Some?
    && newPlan.value.stripePriceId.Some? && newPlan.value.stripePriceId.value != ""
    && org.plan.id != newPlan.value.id
  }

  function Switched(org: Org, newPlan: Plan): Org {
    if org.paymentStatus == Trial then org.(plan := newPlan, paymentStatus := Paying, trialEndsAt := None)
    else org.(plan := newPlan)
  }

  function SwitchPlan(org: Org, newPlan: Option<Plan>, stripeOk: bool): Result<Org, PlanError> {
    if !HasActivePayment(org) then Err(NoActiveSubscription)
    else if newPlan.None? then Err(PlanNotFound)
    else if newPlan.value.stripePriceId.None? || newPlan.value.stripePriceId.value == "" then Err(PlanWithoutPrice)
    else if org.plan.id == newPlan.value.id then Err(PlanAlreadyActive)
    else if !stripeOk then Err(StripeFailed)
    else Ok(Switched(org, newPlan.value))
  }

  /** `OrganizationService.updatePlan`: the whole row is read first and saved last. */
  method UpdatePlan(service: OrganizationService, id: OrgId, newPlan: Option<Plan>, stripeOk: bool)
    returns (r: Result<Org, PlanError>)
    modifies service
    ensures r == if id in old(service.orgs) then SwitchPlan(old(service.orgs)[id], newPlan, stripeOk)
                 else Err(OrganizationNotFound)
    ensures service.orgs == if r.Ok? then old(service.orgs)[id := r.value] else old(service.orgs)
    ensures r.Ok? ==>
              && id in old(service.orgs) && newPlan.Some? && id in service.orgs
              && service.orgs[id].plan == newPlan.value
              && (old(service.orgs)[id].paymentStatus == Trial ==>
                    service.orgs[id].paymentStatus == Paying && service.orgs[id].trialEndsAt.None?)
  {
    var row := service.GetById(id);
    if row.None? { return Err(OrganizationNotFound); }
    var org := row.value;
    var status := org.paymentStatus;
    var subscribed := org.subscriptionId.Some? && org.subscriptionId.value != "";
    if !(subscribed && (status == Paying || status == Trial)) { return Err(NoActiveSubscription); }
    if newPlan.None? { return Err(PlanNotFound); }
    if newPlan.value.stripePriceId.None? || newPlan.value.stripePriceId.value == "" { return Err(PlanWithoutPrice); }
    if org.plan.id == newPlan.value.id { return Err(PlanAlreadyActive); }
    if !stripeOk { return Err(StripeFailed); }
    org := org.(plan := newPlan.value);
    if status == Trial { org := org.(paymentStatus := Paying, trialEndsAt := None); }
    service.UpdateFields(id, (o: Org) => org);
    r := Ok(org);
  }

  /** `getTrialEndDate` */
  function TrialEnd(trialDays: int, now: Instant): Option<Instant> {
    if trialDays > 0 then Some(now + trialDays * 86400000) else None
  }

  /** The row `register` saves. */
  function NewOrg(plan: Plan, now: Instant): Org {
    Org(plan, None, None, if plan.name == "Free" then Free else Trial, true, TrialEnd(plan.trialDays, now))
  }

  datatype Op =
    | Register(id: OrgId, plan: Plan, now: Instant)
    | SubscribeJob(id: OrgId, server: Billing.Server, script: Billing.Script)  // any attempt, against any Stripe state
    | ChangePlan(id: OrgId, newPlan: Option<Plan>, stripeOk: bool)
    | Event(ev: StripeEvent, found: Option<OrgId>)
    | Cron(run: TrialExpiry.CronRun)

  predicate Enabled(orgs: Orgs, op: Op) {
    match op
    case Register(id, _, _) => id !in orgs
    case SubscribeJob(id, _, _) => id in orgs
    case ChangePlan(id, _, _) => id in orgs
    case Event(ev, found) => found.Some? ==> found.value in orgs && Concerns(ev, orgs[found.value])
    case Cron(_) => true
  }

  function Apply(orgs: Orgs, op: Op): Orgs {
    if !Enabled(orgs, op) then orgs else
    match op
    case Register(id, plan, now) => orgs[id := NewOrg(plan, now)]
    case SubscribeJob(id, server, script) => orgs[id := Billing.Attempt(orgs[id], server, script).1]
    case ChangePlan(id, newPlan, stripeOk) =>
      var r := SwitchPlan(orgs[id], newPlan, stripeOk);
      if r.Ok? then orgs[id := r.value] else orgs
    case Event(ev, found) => Patched(orgs, found, ev)
    case Cron(run) => TrialExpiry.Night(orgs, run)
  }

  function Company(): Machine<Orgs, Op> {
    Machine((orgs, op) => Enabled(orgs, op), (orgs, op) => Apply(orgs, op))
  }

  /** Cancelled organizations are inactive. */
  predicate Sound(orgs: Orgs) {
    forall id :: id in orgs && orgs[id].paymentStatus == Cancelled ==> !orgs[id].isActive
  }

  /** What no operation undoes: existence, deactivation, and the stored subscription id. */
  predicate Onward(a: Orgs, b: Orgs) {
    forall id :: id in a ==>
      && id in b
      && (!a[id].isActive ==> !b[id].isActive)
      && (a[id].subscriptionId.Some? ==> b[id].subscriptionId.Some?)
  }

  lemma AttemptFacts(org: Org, server: Billing.Server, script: Billing.Script)
    ensures var o := Billing.Attempt(org, server, script).1;
            && o.isActive == org.isActive
            && (o.paymentStatus == Cancelled ==> org.paymentStatus == Cancelled)
            && (org.subscriptionId.Some? ==> o.subscriptionId.Some?)
  {}

  lemma StepKeeps(orgs: Orgs, op: Op)
    requires Sound(orgs) && Enabled(orgs, op)
    ensures Sound(Apply(orgs, op)) && Onward(orgs, Apply(orgs, op))
  {
    match op
    case SubscribeJob(id, server, script) => AttemptFacts(orgs[id], server, script);
    case Cron(run) => assert forall id :: id in orgs ==> Apply(orgs, op)[id] == TrialExpiry.NightOf(orgs[id], run);
    case _ =>
  }

  /** Over every run: CANCELLED implies inactive; an inactive organization never becomes active
      again; a stored subscription id stays stored. */
  lemma {:induction false} LifecycleInvariants(orgs: Orgs, ops: seq<Op>)
    requires Sound(orgs) && Legal(Company(), orgs, ops)
    ensures Sound(After(Company(), orgs, ops)) && Onward(orgs, After(Company(), orgs, ops))
    decreases |ops|
  {
    if ops != [] {
      StepKeeps(orgs, ops[0]);
      LifecycleInvariants(Apply(orgs, ops[0]), ops[1..]);
    }
  }

  /** Once a subscription id is stored, no later nightly run changes the organization. */
  lemma SubscribedIsOutOfCron(orgs: Orgs, ops: seq<Op>, run: TrialExpiry.CronRun, id: OrgId)
    requires Sound(orgs) && Legal(Company(), orgs, ops + [Cron(run)])
    requires id in orgs && orgs[id].subscriptionId.Some?
    ensures var before, after := After(Company(), orgs, ops), After(Company(), orgs, ops + [Cron(run)]);
            id in before && id in after && after[id] == before[id]
  {
    Join(Company(), orgs, ops, [Cron(run)]);
    LifecycleInvariants(orgs, ops);
    One(Company(), After(Company(), orgs, ops), Cron(run));
  }

  // ---- Billing the inactive ----

  /** The attempt gets as far as storing a subscription: the row is read, a customer is stored or
      made, the plan has a price, Stripe answers with a subscription, and the save takes effect. */
  predicate StoresSubscription(org: Org, server: Billing.Server, s: Billing.Script) {
    && s.loads && (org.customerId.Some? || (s.customer.Works? && s.saveCustomer.Works?))
    && org.plan.stripePriceId.Some? && org.plan.stripePriceId.value != ""
    && s.create.Works? && !s.saveSubscription.FailsBefore?
    && var customer := if org.customerId.Some? then org.customerId.value else Billing.CustomerId(|server.customers|);
       var price := org.plan.stripePriceId.value;
       var trialEnd := Billing.TrialSeconds(if Billing.InTrial(org, s.now) then org.trialEndsAt else None);
       Billing.Request(server, Billing.IdempotencyKey(customer, price), Billing.Subscription(customer, price, trialEnd),
                       s.declines).0.Ok?
  }

  lemma StoresIff(org: Org, server: Billing.Server, s: Billing.Script)
    requires org.subscriptionId.None?
    ensures Billing.Attempt(org, server, s).1.subscriptionId.Some? <==> StoresSubscription(org, server, s)
  {}

  /** The job never looks at whether the organization is active. */
  lemma JobIgnoresActivity(org: Org, active: bool, server: Billing.Server, s: Billing.Script)
    ensures var (outcome, o, server') := Billing.Attempt(org, server, s);
            Billing.Attempt(org.(isActive := active), server, s) == (outcome, o.(isActive := active), server')
  {}

  /** An inactive organization gets a subscription in a step if and only if that is an attempt of its
      job that stores one; it stays inactive, and is put on trial or to paying. */
  lemma InactiveBilledIff(orgs: Orgs, op: Op, id: OrgId)
    requires Enabled(orgs, op) && id in orgs && !orgs[id].isActive && orgs[id].subscriptionId.None?
    ensures var o := Apply(orgs, op)[id];
            && (o.subscriptionId.Some? <==>
                  op.SubscribeJob? && op.id == id && StoresSubscription(orgs[id], op.server, op.script))
            && (o.subscriptionId.Some? ==> !o.isActive && (o.paymentStatus == Paying || o.paymentStatus == Trial))
  {
    if op.SubscribeJob? && op.id == id {
      StoresIff(orgs[id], op.server, op.script);
      AttemptFacts(orgs[id], op.server, op.script);
    }
  }

  /** A run from registration in which the nightly runs cancel an organization whose subscription job
      is late: it ends inactive, paying, with a subscription. */
  lemma CancelledThenBilled() returns (ops: seq<Op>)
    ensures Legal(Company(), map[], ops)
    ensures var orgs := After(Company(), map[], ops);
            && "acme" in orgs && !orgs["acme"].isActive
            && orgs["acme"].paymentStatus == Paying && orgs["acme"].subscriptionId.Some?
  {
    var day := 86400000;
    var register := Register("acme", Plan(1, "Pro", Some("price_1"), 1), 0);
    var suspend := Cron(TrialExpiry.CronRun(2 * day, true, 2 * day, true));
    var cancel := Cron(TrialExpiry.CronRun(8 * day, true, 8 * day, true));
    var job := SubscribeJob("acme", Billing.Server([], [], map[]),
                            Billing.Script(9 * day, true, Works, Works, Works, false, Works));
    var o1 := Apply(map[], register);
    var o2 := Apply(o1, suspend);
    var o3 := Apply(o2, cancel);
    assert o2["acme"].paymentStatus == Suspended && o3["acme"].paymentStatus == Cancelled && !o3["acme"].isActive;
    InactiveBilledIff(o3, job, "acme");
    One(Company(), map[], register);
    Extend(Company(), map[], [register], o1, suspend);
    Extend(Company(), map[], [register] + [suspend], o2, cancel);
    Extend(Company(), map[], [register] + [suspend] + [cancel], o3, job);
    ops := [register] + [suspend] + [cancel] + [job];
  }

  // ---- What each operation sets, field by field ----

  /** A switch goes through exactly for a paying or trial organization with a subscription, to another
      plan that exists and has a price, when Stripe accepts. The plan becomes the new one; a trial
      becomes paying, with no trial end; nothing else changes. */
  lemma SwitchSets(org: Org, newPlan: Option<Plan>, stripeOk: bool)
    ensures SwitchPlan(org, newPlan, stripeOk).Ok? <==>
              && org.subscriptionId.Some? && org.subscriptionId.value != ""
              && (org.paymentStatus == Paying || org.paymentStatus == Trial)
              && newPlan.Some? && newPlan.value.stripePriceId.Some? && newPlan.value.stripePriceId.value != ""
              && newPlan.value.id != org.plan.id && stripeOk
    ensures SwitchPlan(org, newPlan, stripeOk).Ok? <==> Switchable(org, newPlan) && stripeOk
    ensures SwitchPlan(org, newPlan, stripeOk).Ok? ==>
              var row := SwitchPlan(org, newPlan, stripeOk).value;
              && row.plan == newPlan.value && row.paymentStatus == Paying
              && row.trialEndsAt == (if org.paymentStatus == Trial then None else org.trialEndsAt)
              && row.customerId == org.customerId && row.subscriptionId == org.subscriptionId
              && row.isActive == org.isActive
  {}

  /** The row of a new organization. */
  lemma RegisteredRow(plan: Plan, now: Instant)
    ensures var org := NewOrg(plan, now);
            && org.plan == plan && org.customerId.None? && org.subscriptionId.None? && org.isActive
            && org.paymentStatus == (if plan.name == "Free" then Free else Trial)
            && org.trialEndsAt == (if plan.trialDays > 0 then Some(now + plan.trialDays * 24 * 60 * 60 * 1000)
                                   else None)
  {}

  /** And the refusals, each by the first thing that is wrong. */
  lemma SwitchRefusals(org: Org, newPlan: Option<Plan>, stripeOk: bool)
    ensures var r := SwitchPlan(org, newPlan, stripeOk);
            var subscribed := && org.subscriptionId.Some? && org.subscriptionId.value != ""
                              && (org.paymentStatus == Paying || org.paymentStatus == Trial);
            var priced := newPlan.Some? && newPlan.value.stripePriceId.Some? && newPlan.value.stripePriceId.value != "";
            && (r == Err(NoActiveSubscription) <==> !subscribed)
            && (r == Err(PlanNotFound) <==> subscribed && newPlan.None?)
            && (r == Err(PlanWithoutPrice) <==> subscribed && newPlan.Some? && !priced)
            && (r == Err(PlanAlreadyActive) <==> subscribed && priced && newPlan.value.id == org.plan.id)
            && (r == Err(StripeFailed) <==> subscribed && priced && newPlan.value.id != org.plan.id && !stripeOk)
  {}

  /** An event of a subscription is about the organization that stores its id, a failed payment
      about the one that stores the customer, if one is named, and nothing else about any. */
  lemma EventConcerns(org: Org, sub: string, status: StripeStatus, customer: string)
    ensures Concerns(SubscriptionUpdated(sub, status), org) <==> org.subscriptionId == Some(sub)
    ensures Concerns(SubscriptionDeleted(sub), org) <==> org.subscriptionId == Some(sub)
    ensures Concerns(InvoicePaymentFailed(Some(customer)), org) <==> customer != "" && org.customerId == Some(customer)
    ensures !Concerns(InvoicePaymentFailed(None), org) && !Concerns(OtherEvent, org)
  {}

  /** Stripe's statuses one by one, and the two other events. */
  lemma EventSets(org: Org, sub: string, customer: Option<string>)
    ensures React(SubscriptionUpdated(sub, StripeActive), org) == org.(paymentStatus := Paying)
    ensures React(SubscriptionUpdated(sub, Trialing), org) == org.(paymentStatus := Trial)
    ensures React(SubscriptionUpdated(sub, PastDue), org) == org.(paymentStatus := Suspended)
    ensures React(SubscriptionUpdated(sub, Unpaid), org) == org.(paymentStatus := Suspended)
    ensures React(SubscriptionUpdated(sub, Canceled), org) == org.(paymentStatus := Cancelled, isActive := false)
    ensures React(SubscriptionUpdated(sub, OtherStatus), org) == org
    ensures React(SubscriptionDeleted(sub), org) == org.(paymentStatus := Cancelled, isActive := false)
    ensures React(InvoicePaymentFailed(customer), org) == org.(paymentStatus := Suspended)
    ensures React(OtherEvent, org) == org
  {}

  function NextPlan(orgs: Orgs, earlier: Option<Plan>, op: Op, id: OrgId): Option<Plan> {
    match op
    case Register(i, plan, _) => if i == id then Some(plan) else earlier
    case ChangePlan(i, newPlan, stripeOk) =>
      if i == id && i in orgs && SwitchPlan(orgs[i], newPlan, stripeOk).Ok? then newPlan else earlier
    case _ => earlier
  }

  /** Reading the history: the plan of the organization's registration, or of its latest switch that
      was answered with success. */
  function GivenPlan(ops: seq<Op>, id: OrgId): Option<Plan> {
    if ops == [] then None
    else
      var n := |ops| - 1;
      NextPlan(After(Company(), map[], ops[..n]), GivenPlan(ops[..n], id), ops[n], id)
  }

  lemma PlanNext(orgs: Orgs, given: Option<Plan>, op: Op, id: OrgId)
    requires Enabled(orgs, op) && (id in orgs <==> given.Some?) && (id in orgs ==> orgs[id].plan == given.value)
    ensures var after, next := Apply(orgs, op), NextPlan(orgs, given, op, id);
            (id in after <==> next.Some?) && (id in after ==> after[id].plan == next.value)
  {
    match op
    case SubscribeJob(i, server, script) => Billing.AttemptStores(orgs[i], server, script);
    case ChangePlan(i, newPlan, stripeOk) => SwitchSets(orgs[i], newPlan, stripeOk);
    case Cron(run) => if id in orgs { TrialExpiry.NightExact(orgs[id], run); }
    case _ =>
  }

  /** In every run an organization's plan is the one its registration or its latest successful switch
      gave it; no job, event or nightly run changes it. */
  lemma {:induction false} PlanIsGiven(ops: seq<Op>, id: OrgId)
    requires Legal(Company(), map[], ops)
    ensures var orgs := After(Company(), map[], ops);
            (id in orgs <==> GivenPlan(ops, id).Some?) && (id in orgs ==> orgs[id].plan == GivenPlan(ops, id).value)
  {
    if ops != [] {
      var n := |ops| - 1;
      LastStep(Company(), map[], ops);
      PlanIsGiven(ops[..n], id);
      PlanNext(After(Company(), map[], ops[..n]), GivenPlan(ops[..n], id), ops[n], id);
    }
  }
}
