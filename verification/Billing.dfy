/** `BillingService.createSubscription` as a retried job over `StripeService`: every remote call
    and every row update may fail before its effect, or be cut off after it. */
module Billing {
  import opened Wrappers
  import opened Ttl
  import opened Keys
  import opened Organizations
  import opened Faults

  datatype Subscription = Subscription(customer: string, price: string, trialEnd: Option<int>)

  /** What Stripe remembers under an idempotency key: the parameters, and the subscription made
      or, if none, that the request was declined. */
  datatype Remembered = Remembered(request: Subscription, created: Option<nat>)

  /** The part of Stripe that this organization's jobs write. Subscription ids are positions. */
  datatype Server = Server(customers: seq<string>, subs: seq<Subscription>, idempotency: map<string, Remembered>)

  function IdempotencyKey(customer: string, price: string): string {
    "sub_" + customer + "_" + price
  }

  function CustomerId(n: nat): string {
    "cus_" + Decimal(n)
  }

  /** Stripe's side of `subscriptions.create`: a remembered key replays its result, provided the
      parameters are the same. */
  function Request(s: Server, key: string, request: Subscription, declines: bool): (Result<nat, ()>, Server) {
    if key in s.idempotency then
      var r := s.idempotency[key];
      (if r.request != request || r.created.None? then Err(()) else Ok(r.created.value), s)
    else if declines then (Err(()), s.(idempotency := s.idempotency[key := Remembered(request, None)]))
    else
      var made := Remembered(request, Some(|s.subs|));
      (Ok(|s.subs|), s.(subs := s.subs + [request], idempotency := s.idempotency[key := made]))
  }

  class StripeService {
    var customers: seq<string>
    var subs: seq<Subscription>
    var idempotency: map<string, Remembered>

    constructor ()
      ensures State() == Server([], [], map[])
    {
      customers, subs, idempotency := [], [], map[];
    }

    function State(): Server
      reads this
    {
      Server(customers, subs, idempotency)
    }

    method CreateCustomer(f: Fault) returns (r: Result<string, ()>)
      modifies this
      ensures State() == if f.FailsBefore? then old(State())
                         else old(State()).(customers := old(customers) + [CustomerId(|old(customers)|)])
      ensures r == if f.Works? then Ok(CustomerId(|old(customers)|)) else Err(())
    {
      if f.FailsBefore? { return Err(()); }
      var id := CustomerId(|customers|);
      customers := customers + [id];
      r := if f.CutAfter? then Err(()) else Ok(id);
    }

    method CreateSubscription(customer: string, price: string, trialEndsAt: Option<Instant>, f: Fault, declines: bool)
      returns (r: Result<nat, ()>)
      modifies this
      ensures var request := Subscription(customer, price, TrialSeconds(trialEndsAt));
              var (answer, after) := Request(old(State()), IdempotencyKey(customer, price), request, declines);
              && State() == (if f.FailsBefore? then old(State()) else after)
              && r == if f.Works? then answer else Err(())
    {
      if f.FailsBefore? { return Err(()); }
      var request := Subscription(customer, price, TrialSeconds(trialEndsAt));
      var key := IdempotencyKey(customer, price);
      if key in idempotency {
        var known := idempotency[key];
        r := if known.request != request || known.created.None? then Err(()) else Ok(known.created.value);
      } else if declines {
        idempotency := idempotency[key := Remembered(request, None)];
        r := Err(());
      } else {
        idempotency := idempotency[key := Remembered(request, Some(|subs|))];
        r := Ok(|subs|);
        subs := subs + [request];
      }
      if f.CutAfter? { r := Err(()); }
    }
  }

  /** `Math.floor(trialEnd.getTime() / 1000)` */
  function TrialSeconds(t: Option<Instant>): Option<int> {
    if t.Some? then Some(t.value / 1000) else None
  }

  function SubscriptionId(n: nat): string {
    "sub_" + Decimal(n)
  }

  /** One attempt's weather: the clock, the row read, and the five calls after it. */
  datatype Script = Script(now: Instant, loads: bool, customer: Fault, saveCustomer: Fault,
                           create: Fault, declines: bool, saveSubscription: Fault)

  /** An attempt stops after any call; only the stretch from creating a customer to saving its
      id can leave a customer nobody remembers. */
  datatype Outcome = Cut | CutWithOrphan | Completed(sub: nat)

  datatype Phase =
    | Stopped(why: Outcome, org: Org, server: Server)
    | WithCustomer(customer: string, org: Org, server: Server)

  /** The first half: make sure the organization has a stored customer. */
  function EnsureCustomer(org: Org, server: Server, s: Script): Phase {
    if !s.loads then Stopped(Cut, org, server)
    else if org.customerId.Some? then WithCustomer(org.customerId.value, org, server)
    else
      var id := CustomerId(|server.customers|);
      var server1 := server.(customers := server.customers + [id]);
      var org1 := org.(customerId := Some(id));
      match s.customer
      case FailsBefore => Stopped(Cut, org, server)
      case CutAfter => Stopped(CutWithOrphan, org, server1)
      case Works =>
        match s.saveCustomer
        case FailsBefore => Stopped(CutWithOrphan, org, server1)
        case CutAfter => Stopped(Cut, org1, server1)
        case Works => WithCustomer(id, org1, server1)
  }

  function InTrial(org: Org, now: Instant): bool {
    org.trialEndsAt.Some? && org.trialEndsAt.value > now
  }

  function Subscribed(org: Org, sub: nat, now: Instant): Org {
    org.(subscriptionId := Some(SubscriptionId(sub)), paymentStatus := if InTrial(org, now) then Trial else Paying)
  }

  /** The second half: subscribe that customer to the plan's price and store the result. The
      plan and the trial end are those of the row as it was read. */
  function Subscribe(customer: string, org: Org, server: Server, s: Script): (Outcome, Org, Server) {
    if org.plan.stripePriceId.None? || org.plan.stripePriceId.value == "" then (Cut, org, server)
    else if s.create.FailsBefore? then (Cut, org, server)
    else
      var price := org.plan.stripePriceId.value;
      var request := Subscription(customer, price, TrialSeconds(if InTrial(org, s.now) then org.trialEndsAt else None));
      var (answer, server1) := Request(server, IdempotencyKey(customer, price), request, s.declines);
      if s.create.CutAfter? || answer.Err? || s.saveSubscription.FailsBefore? then (Cut, org, server1)
      else
        var outcome := if s.saveSubscription.CutAfter? then Cut else Completed(answer.value);
        (outcome, Subscribed(org, answer.value, s.now), server1)
  }

  function Attempt(org: Org, server: Server, s: Script): (Outcome, Org, Server) {
    match EnsureCustomer(org, server, s)
    case Stopped(why, org1, server1) => (why, org1, server1)
    case WithCustomer(customer, org1, server1) => Subscribe(customer, org1, server1, s)
  }

  class BillingService {
    const organizations: OrganizationService
    const stripe: StripeService

    constructor (organizations: OrganizationService, stripe: StripeService)
      ensures this.organizations == organizations && this.stripe == stripe
    {
      this.organizations, this.stripe := organizations, stripe;
    }

    method CreateSubscription(id: OrgId, s: Script) returns (outcome: Outcome)
      requires organizations as object != stripe
      modifies organizations, stripe
      ensures id !in old(organizations.orgs) ==>
                outcome == Cut && organizations.orgs == old(organizations.orgs) && stripe.State() == old(stripe.State())
      ensures id in old(organizations.orgs) ==>
                && id in organizations.orgs
                && organizations.orgs == old(organizations.orgs)[id := organizations.orgs[id]]
                && (outcome, organizations.orgs[id], stripe.State())
                   == Attempt(old(organizations.orgs)[id], old(stripe.State()), s)
    {
      outcome := Cut;
      if !s.loads { return; }
      var details := organizations.GetById(id);
      if details.None? { return; }
      var org := details.value;
      var customer: string;
      if org.customerId.Some? {
        customer := org.customerId.value;
      } else {
        var created := stripe.CreateCustomer(s.customer);
        if created.Err? {
          outcome := if s.customer.CutAfter? then CutWithOrphan else Cut;
          return;
        }
        customer := created.value;
        if s.saveCustomer.FailsBefore? { return CutWithOrphan; }
        organizations.UpdateFields(id, (o: Org) => o.(customerId := Some(customer)));
        if s.saveCustomer.CutAfter? { return Cut; }
      }
      if org.plan.stripePriceId.None? || org.plan.stripePriceId.value == "" { return Cut; }
      var trial := InTrial(org, s.now);
      var sub := stripe.CreateSubscription(customer, org.plan.stripePriceId.value,
                                           if trial then org.trialEndsAt else None, s.create, s.declines);
      if sub.Err? || s.saveSubscription.FailsBefore? { return Cut; }
      organizations.UpdateFields(id, (o: Org) =>
        o.(subscriptionId := Some(SubscriptionId(sub.value)), paymentStatus := if trial then Trial else Paying));
      outcome := if s.saveSubscription.CutAfter? then Cut else Completed(sub.value);
    }
  }

  /** Creating the customer touches nothing but the customer. */
  lemma EnsureCustomerFields(org: Org, server: Server, s: Script)
    ensures var p := EnsureCustomer(org, server, s);
            && p.org == org.(customerId := p.org.customerId) && p.server.subs == server.subs
            && (org.customerId.Some? ==> p.org.customerId == org.customerId)
            && (p.WithCustomer? ==> p.org.customerId == Some(p.customer))
            && (p.Stopped? ==> !p.why.Completed?)
  {}

  /** The subscription half, field by field: see `AttemptStores`. */
  lemma SubscribeFields(customer: string, org: Org, server: Server, s: Script)
    ensures var (outcome, o, server') := Subscribe(customer, org, server, s);
            var onTrial := org.trialEndsAt.Some? && s.now < org.trialEndsAt.value;
            && o == org.(subscriptionId := o.subscriptionId, paymentStatus := o.paymentStatus)
            && (o != org || outcome.Completed? ==>
                  o.subscriptionId.Some? && o.paymentStatus == if onTrial then PaymentStatus.Trial else Paying)
            && (outcome.Completed? ==> o.subscriptionId == Some("sub_" + Decimal(outcome.sub)))
            && (outcome.Completed? ==> s.create.Works? && s.saveSubscription.Works?)
            && (server'.subs != server.subs ==>
                  && org.plan.stripePriceId.Some?
                  && server'.subs == server.subs + [Subscription(customer, org.plan.stripePriceId.value,
                       if onTrial then Some(org.trialEndsAt.value / 1000) else None)])
  {}

  /** What an attempt sends and stores, field by field. A new subscription is for the organization's
      customer and its plan's price, with the trial's end in whole seconds if the trial is not over,
      and none otherwise. A stored subscription puts the organization on trial while its trial is not
      over, and to paying otherwise. Plan, activity and trial end stay, as does the status of an
      organization whose attempt stores no subscription. */
  lemma AttemptStores(org: Org, server: Server, s: Script)
    ensures var (outcome, o, server') := Attempt(org, server, s);
            var onTrial := org.trialEndsAt.Some? && s.now < org.trialEndsAt.value;
            && o.plan == org.plan && o.isActive == org.isActive && o.trialEndsAt == org.trialEndsAt
            && (org.customerId.Some? ==> o.customerId == org.customerId)
            && (o.paymentStatus != org.paymentStatus || o.subscriptionId != org.subscriptionId || outcome.Completed? ==>
                  o.subscriptionId.Some? && o.paymentStatus == if onTrial then PaymentStatus.Trial else Paying)
            && (outcome.Completed? ==> o.subscriptionId == Some("sub_" + Decimal(outcome.sub)))
            && (outcome.Completed? ==> s.create.Works? && s.saveSubscription.Works?)
            && (server'.subs != server.subs ==>
                  && o.customerId.Some? && org.plan.stripePriceId.Some?
                  && server'.subs == server.subs + [Subscription(o.customerId.value, org.plan.stripePriceId.value,
                       if onTrial then Some(org.trialEndsAt.value / 1000) else None)])
  {
    EnsureCustomerFields(org, server, s);
    var p := EnsureCustomer(org, server, s);
    if p.WithCustomer? { SubscribeFields(p.customer, p.org, p.server, s); }
  }

  // ---- Any sequence of attempts ----

  function Attempts(org: Org, server: Server, scripts: seq<Script>): (Org, Server) {
    if scripts == [] then (org, server)
    else
      var (o, s) := Attempts(org, server, scripts[..|scripts| - 1]);
      var (_, o1, s1) := Attempt(o, s, scripts[|scripts| - 1]);
      (o1, s1)
  }

  /** How many attempts were cut between creating a customer and saving it. */
  function Orphans(org: Org, server: Server, scripts: seq<Script>): nat {
    if scripts == [] then 0
    else
      var n := |scripts| - 1;
      var (o, s) := Attempts(org, server, scripts[..n]);
      Orphans(org, server, scripts[..n]) + if Attempt(o, s, scripts[n]).0.CutWithOrphan? then 1 else 0
  }

  /** At most one subscription; it is the stored customer's, and its key is remembered with it. */
  predicate AtMostOnce(org: Org, server: Server) {
    && |server.subs| <= 1
    && (org.customerId.None? ==> server.subs == [] && server.idempotency == map[])
    && (org.customerId.Some? && org.plan.stripePriceId.Some? ==>
          var key := IdempotencyKey(org.customerId.value, org.plan.stripePriceId.value);
          && (forall k :: k in server.idempotency ==> k == key)
          && (|server.subs| == 1 ==> key in server.idempotency && server.idempotency[key].created == Some(0)
                                     && server.idempotency[key].request == server.subs[0]
                                     && server.subs[0].customer == org.customerId.value
                                     && server.subs[0].price == org.plan.stripePriceId.value)
          && (key in server.idempotency && server.idempotency[key].created.Some? ==>
                |server.subs| == 1 && server.idempotency[key].created == Some(0)))
    && (org.plan.stripePriceId.None? ==> server.subs == [])
    && (org.subscriptionId.Some? ==> |server.subs| == 1 && org.subscriptionId == Some(SubscriptionId(0)))
  }

  lemma EnsureCustomerKeeps(org: Org, server: Server, s: Script)
    requires AtMostOnce(org, server)
    ensures var p := EnsureCustomer(org, server, s);
            && AtMostOnce(p.org, p.server) && p.org.plan == org.plan
            && (p.WithCustomer? ==> p.org.customerId == Some(p.customer))
            && (p.Stopped? ==> !p.why.Completed?)
            && |p.server.customers| - (if p.org.customerId.Some? then 1 else 0)
                 == |server.customers| - (if org.customerId.Some? then 1 else 0)
                    + if p.Stopped? && p.why.CutWithOrphan? then 1 else 0
  {}

  lemma SubscribeKeeps(org: Org, server: Server, s: Script)
    requires AtMostOnce(org, server) && org.customerId.Some?
    ensures var (outcome, o, s1) := Subscribe(org.customerId.value, org, server, s);
            && AtMostOnce(o, s1) && o.plan == org.plan && o.customerId == org.customerId
            && s1.customers == server.customers
            && !outcome.CutWithOrphan?
            && (outcome.Completed? ==>
                  outcome.sub == 0 && |s1.subs| == 1 && o.subscriptionId == Some(SubscriptionId(0)))
  {}

  /** Whatever cuts the attempts short, with the plan's price unchanged: at most one subscription
      ever exists and it belongs to the stored customer; customers beyond the stored one are
      exactly the attempts cut between create and save; and a stored subscription id is the id
      of that one subscription. */
  lemma {:induction false} SubscribedOnce(org: Org, scripts: seq<Script>)
    requires org.customerId.None? && org.subscriptionId.None?
    ensures var server := Server([], [], map[]);
            var (o, s) := Attempts(org, server, scripts);
            && AtMostOnce(o, s) && o.plan == org.plan
            && |s.customers| == (if o.customerId.Some? then 1 else 0) + Orphans(org, server, scripts)
  {
    if scripts != [] {
      var n := |scripts| - 1;
      SubscribedOnce(org, scripts[..n]);
      var (o, s) := Attempts(org, Server([], [], map[]), scripts[..n]);
      EnsureCustomerKeeps(o, s, scripts[n]);
      var p := EnsureCustomer(o, s, scripts[n]);
      if p.WithCustomer? { SubscribeKeeps(p.org, p.server, scripts[n]); }
    }
  }

  /** A completed attempt has stored the organization's only subscription. */
  lemma CompletedIsStored(org: Org, scripts: seq<Script>)
    requires org.customerId.None? && org.subscriptionId.None? && scripts != []
    ensures var server := Server([], [], map[]);
            var (before, s0) := Attempts(org, server, scripts[..|scripts| - 1]);
            var (outcome, o, s) := Attempt(before, s0, scripts[|scripts| - 1]);
            outcome.Completed? ==>
              && |s.subs| == 1 && o.subscriptionId == Some(SubscriptionId(outcome.sub))
              && o.customerId == Some(s.subs[0].customer)
  {
    var n := |scripts| - 1;
    SubscribedOnce(org, scripts[..n]);
    var (o, s) := Attempts(org, Server([], [], map[]), scripts[..n]);
    EnsureCustomerKeeps(o, s, scripts[n]);
    var p := EnsureCustomer(o, s, scripts[n]);
    if p.WithCustomer? { SubscribeKeeps(p.org, p.server, scripts[n]); }
  }

  /** A retry that meets no failure completes exactly when Stripe has not seen the request and
      accepts it, or has answered it before with the same trial end. So a subscription created
      during the trial and cut off before it was stored is beyond the reach of any retry that
      runs after the trial has ended: Stripe refuses the changed parameters. */
  lemma RetryCompletesIff(org: Org, scripts: seq<Script>, s: Script)
    requires org.customerId.None? && org.subscriptionId.None?
    requires org.plan.stripePriceId.Some? && org.plan.stripePriceId.value != ""
    requires s.loads && s.customer.Works? && s.saveCustomer.Works? && s.create.Works? && s.saveSubscription.Works?
    ensures var (o, server) := Attempts(org, Server([], [], map[]), scripts);
            Attempt(o, server, s).0.Completed? <==>
              if server.subs == [] then server.idempotency == map[] && !s.declines
              else server.subs[0].trialEnd == TrialSeconds(if InTrial(o, s.now) then o.trialEndsAt else None)
  {
    SubscribedOnce(org, scripts);
    var (o, server) := Attempts(org, Server([], [], map[]), scripts);
    EnsureCustomerKeeps(o, server, s);
    var p := EnsureCustomer(o, server, s);
    assert p.WithCustomer? && p.server.subs == server.subs && p.server.idempotency == server.idempotency;
    var key := IdempotencyKey(p.customer, org.plan.stripePriceId.value);
    if server.subs == [] && server.idempotency != map[] {
      var k :| k in server.idempotency;
      assert k == key;
    }
  }

  /** A subscription with a trial end exists, but the row does not name it. */
  predicate Stranded(org: Org, server: Server) {
    && AtMostOnce(org, server) && org.subscriptionId.None? && org.plan.stripePriceId.Some?
    && |server.subs| == 1 && server.subs[0].trialEnd.Some?
  }

  lemma StrandedStep(org: Org, server: Server, s: Script)
    requires Stranded(org, server) && !InTrial(org, s.now)
    ensures var (outcome, o, s1) := Attempt(org, server, s);
            Stranded(o, s1) && o.trialEndsAt == org.trialEndsAt && !outcome.Completed?
  {
    EnsureCustomerKeeps(org, server, s);
  }

  /** However many retries follow after the trial, the organization never gets its subscription. */
  lemma {:induction false} StrandedForever(org: Org, server: Server, scripts: seq<Script>)
    requires Stranded(org, server) && forall s :: s in scripts ==> !InTrial(org, s.now)
    ensures var (o, s) := Attempts(org, server, scripts);
            Stranded(o, s) && o.trialEndsAt == org.trialEndsAt
  {
    if scripts != [] {
      var n := |scripts| - 1;
      StrandedForever(org, server, scripts[..n]);
      var (o, s) := Attempts(org, server, scripts[..n]);
      StrandedStep(o, s, scripts[n]);
    }
  }

  /** One attempt cut off between Stripe's answer and the save is enough to get there. */
  lemma OneCutStrands()
    ensures var org := Org(Plan(1, "Pro", Some("price_1"), 14), None, None, PaymentStatus.Trial, true, Some(1000));
            var (_, o, s) := Attempt(org, Server([], [], map[]), Script(0, true, Works, Works, CutAfter, false, Works));
            Stranded(o, s) && !InTrial(o, 2000)
  {}

  /** Stripe declined the organization's request, and remembers having done so. */
  predicate Declined(org: Org, server: Server) {
    && AtMostOnce(org, server) && server.subs == [] && org.customerId.Some? && org.plan.stripePriceId.Some?
    && IdempotencyKey(org.customerId.value, org.plan.stripePriceId.value) in server.idempotency
  }

  /** Retries repeat the key, and so the refusal: a declined organization is never subscribed, even
      if Stripe would accept the same request by now. */
  lemma {:induction false} DeclinedForever(org: Org, server: Server, scripts: seq<Script>)
    requires Declined(org, server)
    ensures var (o, s) := Attempts(org, server, scripts);
            Declined(o, s) && o.subscriptionId.None?
  {
    if scripts != [] {
      var n := |scripts| - 1;
      DeclinedForever(org, server, scripts[..n]);
      var (o, s) := Attempts(org, server, scripts[..n]);
      EnsureCustomerKeeps(o, s, scripts[n]);
    }
  }

  /** One declined request is enough, even if its answer is lost. */
  lemma OneDeclineSticks(org: Org, server: Server, s: Script)
    requires AtMostOnce(org, server) && server.idempotency == map[] && server.subs == []
    requires org.plan.stripePriceId.Some? && org.plan.stripePriceId.value != ""
    requires s.loads && s.customer.Works? && s.saveCustomer.Works? && !s.create.FailsBefore? && s.declines
    ensures var (outcome, o, server') := Attempt(org, server, s); Declined(o, server') && !outcome.Completed?
  {
    EnsureCustomerKeeps(org, server, s);
  }
}
