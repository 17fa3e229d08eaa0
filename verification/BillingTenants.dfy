/** The subscription jobs of all organizations, in any order, on one Stripe account: their
    idempotency keys never meet, so what holds of one organization's jobs holds of everyone's. */
module BillingTenants {
  import opened Wrappers
  import opened Keys
  import opened Organizations
  import opened Billing

  /** One attempt of one organization's job. */
  datatype Job = Job(org: OrgId, script: Script)

  datatype Tenants = Tenants(orgs: Orgs, server: Server)

  function Work(t: Tenants, job: Job): Tenants {
    if job.org !in t.orgs then t
    else
      var (_, org, server) := Attempt(t.orgs[job.org], t.server, job.script);
      Tenants(t.orgs[job.org := org], server)
  }

  function WorkAll(t: Tenants, jobs: seq<Job>): Tenants {
    if jobs == [] then t else Work(WorkAll(t, jobs[..|jobs| - 1]), jobs[|jobs| - 1])
  }

  predicate LeavesOrphan(t: Tenants, job: Job) {
    job.org in t.orgs && Attempt(t.orgs[job.org], t.server, job.script).0.CutWithOrphan?
  }

  /** Attempts cut between creating a customer and saving it, over all organizations. */
  function Orphaned(t: Tenants, jobs: seq<Job>): nat {
    if jobs == [] then 0
    else
      var n := |jobs| - 1;
      var before := WorkAll(t, jobs[..n]);
      Orphaned(t, jobs[..n]) + if LeavesOrphan(before, jobs[n]) then 1 else 0
  }

  // ---- Idempotency keys of different customers differ ----

  /** Two texts cut at their first underscore. */
  lemma {:induction false} CutAtUnderscore(a: string, p: string, b: string, q: string)
    requires '_' !in a && '_' !in b && a + "_" + p == b + "_" + q
    ensures a == b && p == q
  {
    var s, r := a + "_" + p, b + "_" + q;
    assert if a == "" then s[0] == '_' else s[0] == a[0] && s[1..] == a[1..] + "_" + p;
    assert if b == "" then r[0] == '_' else r[0] == b[0] && r[1..] == b[1..] + "_" + q;
    assert a == "" <==> b == "";
    if a == "" {
      assert p == s[1..] == q;
    } else {
      CutAtUnderscore(a[1..], p, b[1..], q);
      assert a == [a[0]] + a[1..] && b == [b[0]] + b[1..];
    }
  }

  lemma CustomersDiffer(i: nat, j: nat)
    requires CustomerId(i) == CustomerId(j)
    ensures i == j
  {
    assert Decimal(i) == CustomerId(i)[4..] == CustomerId(j)[4..] == Decimal(j);
    DecimalOrder(i, j);
  }

  /** Keys determine the customer and the price, whatever characters prices contain. */
  lemma KeyDetermines(i: nat, p: string, j: nat, q: string)
    requires IdempotencyKey(CustomerId(i), p) == IdempotencyKey(CustomerId(j), q)
    ensures i == j && p == q
  {
    var prefix := "sub_" + "cus_";
    assert IdempotencyKey(CustomerId(i), p) == prefix + (Decimal(i) + "_" + p);
    assert IdempotencyKey(CustomerId(j), q) == prefix + (Decimal(j) + "_" + q);
    assert (prefix + (Decimal(i) + "_" + p))[|prefix|..] == Decimal(i) + "_" + p;
    assert (prefix + (Decimal(j) + "_" + q))[|prefix|..] == Decimal(j) + "_" + q;
    DecimalDigits(i);
    DecimalDigits(j);
    CutAtUnderscore(Decimal(i), p, Decimal(j), q);
    CustomersDiffer(i, j);
  }

  // ---- The invariant ----

  predicate Billable(org: Org) {
    org.customerId.Some? && org.plan.stripePriceId.Some?
  }

  function KeyOf(org: Org): string
    requires Billable(org)
  {
    IdempotencyKey(org.customerId.value, org.plan.stripePriceId.value)
  }

  predicate OwnsKey(orgs: Orgs, id: OrgId, k: string) {
    id in orgs && Billable(orgs[id]) && k == KeyOf(orgs[id])
  }

  /** Subscription i is this organization's, for its stored customer, and remembered as such. */
  predicate OwnsSub(t: Tenants, id: OrgId, i: nat) {
    && i < |t.server.subs| && id in t.orgs && Billable(t.orgs[id])
    && KeyOf(t.orgs[id]) in t.server.idempotency
    && t.server.idempotency[KeyOf(t.orgs[id])] == Remembered(t.server.subs[i], Some(i))
    && t.server.subs[i].customer == t.orgs[id].customerId.value
    && t.server.subs[i].price == t.orgs[id].plan.stripePriceId.value
  }

  ghost predicate Owned(t: Tenants, i: nat) {
    exists id :: OwnsSub(t, id, i)
  }

  /** What is remembered under k is this organization's. */
  predicate Remembers(t: Tenants, id: OrgId, k: string) {
    && OwnsKey(t.orgs, id, k) && k in t.server.idempotency
    && (t.server.idempotency[k].created.Some? ==> OwnsSub(t, id, t.server.idempotency[k].created.value))
  }

  predicate CustomersInv(t: Tenants) {
    && (forall i :: 0 <= i < |t.server.customers| ==> t.server.customers[i] == CustomerId(i))
    && (forall id :: id in t.orgs && t.orgs[id].customerId.Some? ==> t.orgs[id].customerId.value in t.server.customers)
    && (forall a, b :: a in t.orgs && b in t.orgs && a != b && t.orgs[a].customerId.Some?
                       ==> t.orgs[a].customerId != t.orgs[b].customerId)
  }

  ghost predicate ServerInv(t: Tenants) {
    && (forall k :: k in t.server.idempotency ==> exists id :: Remembers(t, id, k))
    && (forall i :: 0 <= i < |t.server.subs| ==> Owned(t, i))
  }

  /** A stored subscription id is that of the organization's own subscription. */
  ghost predicate StoredInv(t: Tenants) {
    forall id :: id in t.orgs && t.orgs[id].subscriptionId.Some?
      ==> exists i: nat :: OwnsSub(t, id, i) && t.orgs[id].subscriptionId == Some(SubscriptionId(i))
  }

  ghost predicate Inv(t: Tenants) {
    CustomersInv(t) && ServerInv(t) && StoredInv(t)
  }

  lemma FreshCustomer(t: Tenants)
    requires CustomersInv(t)
    ensures CustomerId(|t.server.customers|) !in t.server.customers
  {
    var n := |t.server.customers|;
    if CustomerId(n) in t.server.customers {
      var i :| 0 <= i < n && t.server.customers[i] == CustomerId(n);
      CustomersDiffer(i, n);
    }
  }

  lemma KeysApart(t: Tenants, a: OrgId, b: OrgId)
    requires CustomersInv(t) && a in t.orgs && b in t.orgs && a != b && Billable(t.orgs[a]) && Billable(t.orgs[b])
    ensures KeyOf(t.orgs[a]) != KeyOf(t.orgs[b])
  {
    var i :| 0 <= i < |t.server.customers| && t.server.customers[i] == t.orgs[a].customerId.value;
    var j :| 0 <= j < |t.server.customers| && t.server.customers[j] == t.orgs[b].customerId.value;
    if KeyOf(t.orgs[a]) == KeyOf(t.orgs[b]) {
      KeyDetermines(i, t.orgs[a].plan.stripePriceId.value, j, t.orgs[b].plan.stripePriceId.value);
    }
  }

  // ---- Making sure of a customer ----

  /** The organization got the customer just created, or nobody did. */
  predicate CustomerStep(t: Tenants, t': Tenants, id: OrgId) {
    var newest := CustomerId(|t.server.customers|);
    && id in t.orgs && t.orgs[id].customerId.None?
    && t'.server == t.server.(customers := t.server.customers + [newest])
    && (t'.orgs == t.orgs || t'.orgs == t.orgs[id := t.orgs[id].(customerId := Some(newest))])
  }

  lemma CustomerStepCustomers(t: Tenants, t': Tenants, id: OrgId)
    requires CustomersInv(t) && CustomerStep(t, t', id)
    ensures CustomersInv(t')
  {
    FreshCustomer(t);
  }

  lemma CustomerStepOwners(t: Tenants, t': Tenants, id: OrgId, owner: OrgId)
    requires CustomerStep(t, t', id)
    ensures forall i: nat :: OwnsSub(t, owner, i) ==> OwnsSub(t', owner, i)
    ensures forall k :: Remembers(t, owner, k) ==> Remembers(t', owner, k)
  {}

  lemma CustomerStepServer(t: Tenants, t': Tenants, id: OrgId)
    requires ServerInv(t) && CustomerStep(t, t', id)
    ensures ServerInv(t')
  {
    forall k | k in t'.server.idempotency
      ensures exists owner :: Remembers(t', owner, k)
    {
      var owner :| Remembers(t, owner, k);
      CustomerStepOwners(t, t', id, owner);
    }
    forall i | 0 <= i < |t'.server.subs|
      ensures Owned(t', i)
    {
      assert Owned(t, i);
      var owner :| OwnsSub(t, owner, i);
      CustomerStepOwners(t, t', id, owner);
    }
  }

  lemma CustomerStepStored(t: Tenants, t': Tenants, id: OrgId)
    requires StoredInv(t) && CustomerStep(t, t', id)
    ensures StoredInv(t')
  {
    forall o | o in t'.orgs && t'.orgs[o].subscriptionId.Some?
      ensures exists i: nat :: OwnsSub(t', o, i) && t'.orgs[o].subscriptionId == Some(SubscriptionId(i))
    {
      var i: nat :| OwnsSub(t, o, i) && t.orgs[o].subscriptionId == Some(SubscriptionId(i));
      CustomerStepOwners(t, t', id, o);
    }
  }

  // ---- Subscribing a stored customer ----

  /** What `subscriptions.create` and the save after it can do, seen from the whole account. */
  predicate SubscribeStep(t: Tenants, t': Tenants, id: OrgId) {
    && id in t.orgs && Billable(t.orgs[id]) && id in t'.orgs
    && var k := KeyOf(t.orgs[id]);
       && t'.server.customers == t.server.customers
       && t'.orgs == t.orgs[id := t'.orgs[id]]
       && t'.orgs[id].customerId == t.orgs[id].customerId && t'.orgs[id].plan == t.orgs[id].plan
       && (t'.server == t.server || (k !in t.server.idempotency && Created(t, t', id, k)))
       && (t'.orgs[id].subscriptionId == t.orgs[id].subscriptionId
           || (k in t'.server.idempotency && t'.server.idempotency[k].created.Some?
               && t'.orgs[id].subscriptionId == Some(SubscriptionId(t'.server.idempotency[k].created.value))))
  }

  /** A new request: declined, or one more subscription. */
  predicate Created(t: Tenants, t': Tenants, id: OrgId, k: string)
    requires id in t.orgs && Billable(t.orgs[id])
  {
    && k in t'.server.idempotency
    && var r := t'.server.idempotency[k];
       && r.request.customer == t.orgs[id].customerId.value && r.request.price == t.orgs[id].plan.stripePriceId.value
       && t'.server.idempotency == t.server.idempotency[k := r]
       && (if r.created.None? then t'.server.subs == t.server.subs
           else r.created == Some(|t.server.subs|) && t'.server.subs == t.server.subs + [r.request])
  }

  lemma SubscribeStepKeys(t: Tenants, t': Tenants, id: OrgId)
    requires SubscribeStep(t, t', id)
    ensures forall owner, k :: OwnsKey(t.orgs, owner, k) ==> OwnsKey(t'.orgs, owner, k)
    ensures forall k :: k in t.server.idempotency ==>
              k in t'.server.idempotency && t'.server.idempotency[k] == t.server.idempotency[k]
    ensures forall k :: k in t'.server.idempotency && k !in t.server.idempotency ==> k == KeyOf(t.orgs[id])
    ensures |t.server.subs| <= |t'.server.subs| && t'.server.subs[..|t.server.subs|] == t.server.subs
  {}

  lemma SubscribeStepOwners(t: Tenants, t': Tenants, id: OrgId, owner: OrgId, i: nat)
    requires SubscribeStep(t, t', id) && OwnsSub(t, owner, i)
    ensures OwnsSub(t', owner, i)
  {
    SubscribeStepKeys(t, t', id);
    assert t'.server.subs[i] == t'.server.subs[..|t.server.subs|][i];
  }

  lemma SubscribeStepNewSub(t: Tenants, t': Tenants, id: OrgId)
    requires SubscribeStep(t, t', id) && |t'.server.subs| > |t.server.subs|
    ensures |t'.server.subs| == |t.server.subs| + 1 && OwnsSub(t', id, |t.server.subs|)
  {}

  lemma SubscribeStepNewKey(t: Tenants, t': Tenants, id: OrgId, k: string)
    requires SubscribeStep(t, t', id) && k in t'.server.idempotency && k !in t.server.idempotency
    ensures Remembers(t', id, k)
  {}

  lemma SubscribeStepServer(t: Tenants, t': Tenants, id: OrgId)
    requires ServerInv(t) && SubscribeStep(t, t', id)
    ensures ServerInv(t')
  {
    SubscribeStepKeys(t, t', id);
    forall k | k in t'.server.idempotency
      ensures exists owner :: Remembers(t', owner, k)
    {
      if k in t.server.idempotency {
        var owner :| Remembers(t, owner, k);
        var created := t.server.idempotency[k].created;
        if created.Some? { SubscribeStepOwners(t, t', id, owner, created.value); }
        assert Remembers(t', owner, k);
      } else {
        SubscribeStepNewKey(t, t', id, k);
      }
    }
    forall i | 0 <= i < |t'.server.subs|
      ensures Owned(t', i)
    {
      if i < |t.server.subs| {
        assert Owned(t, i);
        var owner :| OwnsSub(t, owner, i);
        SubscribeStepOwners(t, t', id, owner, i);
      } else {
        SubscribeStepNewSub(t, t', id);
      }
    }
  }

  lemma SubscribeStepCustomers(t: Tenants, t': Tenants, id: OrgId)
    requires CustomersInv(t) && SubscribeStep(t, t', id)
    ensures CustomersInv(t')
  {}

  /** What is remembered under an organization's key can only be its own. */
  lemma RememberedIsOwn(t: Tenants, id: OrgId)
    requires CustomersInv(t) && ServerInv(t) && id in t.orgs && Billable(t.orgs[id])
             && KeyOf(t.orgs[id]) in t.server.idempotency
    ensures Remembers(t, id, KeyOf(t.orgs[id]))
  {
    var owner :| Remembers(t, owner, KeyOf(t.orgs[id]));
    if owner != id { KeysApart(t, owner, id); }
  }

  lemma SubscribeStepStored(t: Tenants, t': Tenants, id: OrgId)
    requires Inv(t) && SubscribeStep(t, t', id) && CustomersInv(t') && ServerInv(t')
    ensures StoredInv(t')
  {
    forall o | o in t'.orgs && t'.orgs[o].subscriptionId.Some?
      ensures exists i: nat :: OwnsSub(t', o, i) && t'.orgs[o].subscriptionId == Some(SubscriptionId(i))
    {
      if t'.orgs[o].subscriptionId == t.orgs[o].subscriptionId {
        var i: nat :| OwnsSub(t, o, i) && t.orgs[o].subscriptionId == Some(SubscriptionId(i));
        SubscribeStepOwners(t, t', id, o, i);
      } else {
        RememberedIsOwn(t', id);
      }
    }
  }

  // ---- One attempt ----

  /** The first half of an attempt. */
  lemma EnsureIsStep(t: Tenants, id: OrgId, s: Script)
    requires id in t.orgs
    ensures var p := EnsureCustomer(t.orgs[id], t.server, s);
            var t' := Tenants(t.orgs[id := p.org], p.server);
            && (t' == t || CustomerStep(t, t', id))
            && (p.WithCustomer? ==> p.org.customerId == Some(p.customer))
  {
    assert t.orgs[id := t.orgs[id]] == t.orgs;
  }

  /** The second half. */
  lemma SubscribeIsStep(t: Tenants, id: OrgId, s: Script)
    requires id in t.orgs && t.orgs[id].customerId.Some?
    ensures var (_, org, server) := Subscribe(t.orgs[id].customerId.value, t.orgs[id], t.server, s);
            var t' := Tenants(t.orgs[id := org], server);
            t' == t || SubscribeStep(t, t', id)
  {
    assert t.orgs[id := t.orgs[id]] == t.orgs;
  }

  lemma CustomerKeeps(t: Tenants, t': Tenants, id: OrgId)
    requires Inv(t) && (t' == t || CustomerStep(t, t', id))
    ensures Inv(t')
  {
    if t' != t {
      CustomerStepCustomers(t, t', id);
      CustomerStepServer(t, t', id);
      CustomerStepStored(t, t', id);
    }
  }

  lemma SubscribeKeepsInv(t: Tenants, t': Tenants, id: OrgId)
    requires Inv(t) && (t' == t || SubscribeStep(t, t', id))
    ensures Inv(t')
  {
    if t' != t {
      SubscribeStepCustomers(t, t', id);
      SubscribeStepServer(t, t', id);
      SubscribeStepStored(t, t', id);
    }
  }

  lemma AttemptInHalves(t: Tenants, job: Job) returns (mid: Tenants)
    requires job.org in t.orgs
    ensures mid == t || CustomerStep(t, mid, job.org)
    ensures Work(t, job) == mid || SubscribeStep(mid, Work(t, job), job.org)
  {
    var p := EnsureCustomer(t.orgs[job.org], t.server, job.script);
    EnsureIsStep(t, job.org, job.script);
    mid := Tenants(t.orgs[job.org := p.org], p.server);
    if p.WithCustomer? { SubscribeIsStep(mid, job.org, job.script); }
    var org := Work(t, job).orgs[job.org];
    assert mid.orgs[job.org := org] == t.orgs[job.org := org];
  }

  lemma WorkKeeps(t: Tenants, job: Job)
    requires Inv(t)
    ensures Inv(Work(t, job))
  {
    if job.org in t.orgs {
      var mid := AttemptInHalves(t, job);
      CustomerKeeps(t, mid, job.org);
      SubscribeKeepsInv(mid, Work(t, job), job.org);
    }
  }

  // ---- All attempts ----

  /** Organizations with a stored customer. */
  function Customers(orgs: Orgs): set<OrgId> {
    set id | id in orgs && orgs[id].customerId.Some?
  }

  lemma WorkCustomers(t: Tenants, job: Job)
    requires job.org in t.orgs
    ensures |Work(t, job).server.customers| - |Customers(Work(t, job).orgs)|
              == |t.server.customers| - |Customers(t.orgs)| + if LeavesOrphan(t, job) then 1 else 0
  {
    var t' := Work(t, job);
    AttemptCustomers(t.orgs[job.org], t.server, job.script);
    if t'.orgs[job.org].customerId.Some? && t.orgs[job.org].customerId.None? {
      assert Customers(t'.orgs) == Customers(t.orgs) + {job.org};
    } else {
      assert Customers(t'.orgs) == Customers(t.orgs);
    }
  }

  lemma AttemptCustomers(org: Org, server: Server, s: Script)
    ensures var (outcome, o, server') := Attempt(org, server, s);
            && (org.customerId.Some? ==> o.customerId == org.customerId)
            && |server'.customers| - (if o.customerId.Some? then 1 else 0)
                 == |server.customers| - (if org.customerId.Some? then 1 else 0)
                    + if outcome.CutWithOrphan? then 1 else 0
  {}

  predicate Unbilled(orgs: Orgs) {
    forall id :: id in orgs ==> orgs[id].customerId.None? && orgs[id].subscriptionId.None?
  }

  lemma {:induction false} AllJobsKeep(orgs: Orgs, jobs: seq<Job>)
    requires Unbilled(orgs)
    ensures var start := Tenants(orgs, Server([], [], map[]));
            var t := WorkAll(start, jobs);
            Inv(t) && |t.server.customers| == |Customers(t.orgs)| + Orphaned(start, jobs)
  {
    var start := Tenants(orgs, Server([], [], map[]));
    if jobs == [] {
      assert Customers(orgs) == {};
    } else {
      var n := |jobs| - 1;
      AllJobsKeep(orgs, jobs[..n]);
      var t := WorkAll(start, jobs[..n]);
      WorkKeeps(t, jobs[n]);
      if jobs[n].org in t.orgs { WorkCustomers(t, jobs[n]); }
    }
  }

  lemma OneEach(t: Tenants)
    requires CustomersInv(t) && ServerInv(t)
    ensures forall id, i: nat, j: nat :: OwnsSub(t, id, i) && OwnsSub(t, id, j) ==> i == j
  {}

  lemma OnePerCustomer(t: Tenants, i: nat, j: nat)
    requires CustomersInv(t) && ServerInv(t) && i < j < |t.server.subs|
    ensures t.server.subs[i].customer != t.server.subs[j].customer
  {
    assert Owned(t, i) && Owned(t, j);
    var a :| OwnsSub(t, a, i);
    var b :| OwnsSub(t, b, j);
    OneEach(t);
    if a != b { assert t.orgs[a].customerId != t.orgs[b].customerId; }
  }

  /** Whatever cuts the attempts of all organizations short, in whatever order they come: each
      subscription is for the stored customer and the plan's price of one organization, no
      organization has two, a stored subscription id is the organization's own, and the customers
      beyond the stored ones are exactly the attempts cut between create and save. */
  lemma TenantsSubscribedOnce(orgs: Orgs, jobs: seq<Job>)
    requires Unbilled(orgs)
    ensures var start := Tenants(orgs, Server([], [], map[]));
            var t := WorkAll(start, jobs);
            && (forall i :: 0 <= i < |t.server.subs| ==> Owned(t, i))
            && (forall i, j :: 0 <= i < j < |t.server.subs| ==> t.server.subs[i].customer != t.server.subs[j].customer)
            && StoredInv(t)
            && |t.server.customers| == |Customers(t.orgs)| + Orphaned(start, jobs)
  {
    AllJobsKeep(orgs, jobs);
    var t := WorkAll(Tenants(orgs, Server([], [], map[])), jobs);
    forall i, j | 0 <= i < j < |t.server.subs|
      ensures t.server.subs[i].customer != t.server.subs[j].customer
    {
      OnePerCustomer(t, i, j);
    }
  }
}
