/** The organizations table and `OrganizationService`'s plain reads and updates. */
module Organizations {
  import opened Wrappers
  import opened Ttl

  type OrgId = string

  datatype PaymentStatus = Free | Trial | Paying | Suspended | Cancelled

  datatype Plan = Plan(id: nat, name: string, stripePriceId: Option<string>, trialDays: int)

  datatype Org = Org(plan: Plan, customerId: Option<string>, subscriptionId: Option<string>,
                     paymentStatus: PaymentStatus, isActive: bool, trialEndsAt: Option<Instant>)

  type Orgs = map<OrgId, Org>

  /** UPDATE ... WHERE: every matching row, in one statement. */
  function UpdateWhere(orgs: Orgs, where: Org -> bool, patch: Org -> Org): Orgs {
    map id | id in orgs :: if where(orgs[id]) then patch(orgs[id]) else orgs[id]
  }

  function Matching(orgs: Orgs, where: Org -> bool): set<OrgId> {
    set id | id in orgs && where(orgs[id])
  }

  class OrganizationService {
    var orgs: Orgs

    constructor ()
      ensures orgs == map[]
    {
      orgs := map[];
    }

    method GetById(id: OrgId) returns (org: Option<Org>)
      ensures org == if id in orgs then Some(orgs[id]) else None
    {
      org := if id in orgs then Some(orgs[id]) else None;
    }

    /** Any one of the matching rows. */
    method GetOneBy(where: Org -> bool) returns (found: Option<OrgId>)
      ensures found.Some? ==> found.value in orgs && where(orgs[found.value])
      ensures found.None? ==> Matching(orgs, where) == {}
    {
      var rows := Matching(orgs, where);
      if rows == {} { return None; }
      var id :| id in rows;
      found := Some(id);
    }

    method UpdateFields(id: OrgId, patch: Org -> Org)
      modifies this
      ensures orgs == if id in old(orgs) then old(orgs)[id := patch(old(orgs)[id])] else old(orgs)
    {
      if id in orgs { orgs := orgs[id := patch(orgs[id])]; }
    }

    method UpdateMany(where: Org -> bool, patch: Org -> Org) returns (affected: nat)
      modifies this
      ensures orgs == UpdateWhere(old(orgs), where, patch)
      ensures orgs.Keys == old(orgs).Keys
      ensures forall id :: id in orgs ==>
                orgs[id] == if where(old(orgs)[id]) then patch(old(orgs)[id]) else old(orgs)[id]
      ensures affected == |Matching(old(orgs), where)|
    {
      affected := |Matching(orgs, where)|;
      orgs := map id | id in orgs :: if where(orgs[id]) then patch(orgs[id]) else orgs[id];
    }
  }
}
