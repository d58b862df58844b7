/**
 * Tenant isolation: every query a service issues is narrowed to the caller's
 * organization by `addTenantFilter`, and `ensureTenancy` admits a request only
 * when it carries a signed-in user and an organization that exists, attaching
 * that organization to the request.
 */
module Tenancy {
  import opened Wrappers
  import opened JsValue
  import opened Store
  import opened Rbac

  /** `addTenantFilter(organizationId, filter = {})`: `{ ...filter, organizationId }`. */
  function AddTenantFilter(organizationId: string, filter: Value): (r: Value)
    ensures r.Obj? && Get(r, "organizationId") == Str(organizationId)
    ensures forall k :: k in Spread(filter) && k != "organizationId" ==> Get(r, k) == Spread(filter)[k]
    ensures forall k :: k in r.fields ==> k == "organizationId" || k in Spread(filter)
  {
    Obj(Spread(filter)["organizationId" := Str(organizationId)])
  }

  /** With the default filter the query is `{ organizationId }` alone. */
  lemma DefaultTenantFilter(organizationId: string)
    ensures AddTenantFilter(organizationId, Absent) == Obj(map["organizationId" := Str(organizationId)])
  {
  }

  /** Narrowing twice, to the same or to another organization, is narrowing once
      to the last one: a caller cannot widen a tenant's query by nesting. */
  lemma TenantFilterLastWins(a: string, b: string, filter: Value)
    ensures AddTenantFilter(b, AddTenantFilter(a, filter)) == AddTenantFilter(b, filter)
  {
    var inner := AddTenantFilter(a, filter);
    assert Spread(inner) == Spread(filter)["organizationId" := Str(a)];
  }

  /** The parts of a request the middleware reads and writes: the signed-in user
      (its id), the organization id from the token, and the organization attached
      for the handlers. */
  class Request {
    const user: Option<string>
    const organizationId: Option<string>
    var organization: Option<Organization>

    constructor (user: Option<string>, organizationId: Option<string>)
      ensures this.user == user && this.organizationId == organizationId && organization == None
    {
      this.user := user;
      this.organizationId := organizationId;
      organization := None;
    }

    /** `!req.user || !req.organizationId`: an empty id is missing too. */
    predicate Anonymous() {
      user.None? || organizationId.None? || organizationId.value == ""
    }
  }

  /** `ensureTenancy`: 401 without a user or organization id, 404 when the
      organization does not exist; otherwise the organization is attached to the
      request and the request continues. */
  method EnsureTenancy(req: Request, db: Db) returns (d: Decision)
    modifies req
    ensures req.Anonymous() ==> d == Deny(401, "Authentication required") && req.organization == old(req.organization)
    ensures !req.Anonymous() && req.organizationId.value !in db.organizations ==>
              d == Deny(404, "Organization not found") && req.organization == old(req.organization)
    ensures d.Next? <==> !req.Anonymous() && req.organizationId.value in db.organizations
    ensures d.Next? ==> req.organization == Some(db.organizations[req.organizationId.value])
  {
    if req.Anonymous() {
      return Deny(401, "Authentication required");
    }
    var id := req.organizationId.value;
    if id !in db.organizations {
      return Deny(404, "Organization not found");
    }
    req.organization := Some(db.organizations[id]);
    d := Next;
  }
}
