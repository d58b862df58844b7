/**
 * The document store the services work against: organizations, users,
 * invitations and workflows, held in memory. `findOne` is the first document in
 * insertion order that matches the query.
 *
 * Hashing is replaced by injective stand-ins: the code only ever compares a
 * stored hash with the hash of a candidate, so any injective function gives
 * the same outcomes.
 */
module Store {
  import opened Wrappers
  import opened WorkflowTypes
  import opened WorkflowModel

  datatype Settings = Settings(aiConfidenceThreshold: real, requireApproval: bool, webhookSecret: string)

  datatype Usage = Usage(workflowsExecuted: nat, aiCallsThisMonth: nat, storageUsedMB: nat)

  datatype Organization = Organization(
    id: string, name: string, slug: string, plan: OrganizationPlan, settings: Settings, usage: Usage)

  datatype User = User(
    id: string,
    email: string,
    password: string,                 // the stored digest
    firstName: string,
    lastName: string,
    emailVerified: bool,
    verificationToken: Option<string>,
    resetPasswordToken: Option<string>,
    resetPasswordExpires: Option<int>,
    organizationId: string,
    role: UserRole,
    lastLoginAt: Option<int>)

  datatype InvitationStatus = Pending | Accepted | Expired

  datatype Invitation = Invitation(
    id: string, organizationId: string, email: string, role: UserRole, invitedBy: string,
    token: string, status: InvitationStatus, expiresAt: int)

  /** `hashToken`: SHA-256 of a token, here an injective tagging. */
  function HashToken(t: string): string { "sha256:" + t }

  /** The bcrypt digest stored for a password, here an injective tagging. */
  function PasswordDigest(p: string): string { "bcrypt:" + p }

  lemma HashTokenInjective(a: string, b: string)
    ensures HashToken(a) == HashToken(b) <==> a == b
  {
    if HashToken(a) == HashToken(b) {
      assert a == HashToken(a)[7..];
    }
  }

  lemma PasswordDigestInjective(a: string, b: string)
    ensures PasswordDigest(a) == PasswordDigest(b) <==> a == b
  {
    if PasswordDigest(a) == PasswordDigest(b) {
      assert a == PasswordDigest(a)[7..];
    }
  }

  /** The first index at or after `from` whose element satisfies `p`. */
  function FirstIndex<T>(s: seq<T>, p: T -> bool, from: nat): (r: Option<nat>)
    ensures r.Some? ==> from <= r.value < |s| && p(s[r.value])
    ensures r.Some? ==> forall k :: from <= k < r.value ==> !p(s[k])
    ensures r.None? ==> forall k :: from <= k < |s| ==> !p(s[k])
    decreases |s| - from
  {
    if from >= |s| then None else if p(s[from]) then Some(from) else FirstIndex(s, p, from + 1)
  }

  lemma InAppend<T>(s: seq<T>, x: T, y: T)
    requires y in s + [x]
    ensures y in s || y == x
  {
  }

  /** Appending a well-formed record keeps every record well formed. */
  lemma WellFormedAfterAppend(ws: seq<Workflow>, w: Workflow)
    requires (forall x :: x in ws ==> WellFormed(x)) && WellFormed(w)
    ensures forall x :: x in ws + [w] ==> WellFormed(x)
  {
    forall x | x in ws + [w]
      ensures WellFormed(x)
    {
      InAppend(ws, w, x);
    }
  }

  /** Replacing one stored workflow by a well-formed record keeps every record well formed. */
  lemma WellFormedAfterUpdate(ws: seq<Workflow>, k: nat, w: Workflow)
    requires k < |ws| && (forall x :: x in ws ==> WellFormed(x)) && WellFormed(w)
    ensures forall x :: x in ws[k := w] ==> WellFormed(x)
  {
    forall x | x in ws[k := w]
      ensures WellFormed(x)
    {
      var i :| 0 <= i < |ws[k := w]| && ws[k := w][i] == x;
      if i != k {
        assert ws[i] in ws;
      }
    }
  }

  class Db {
    var organizations: map<string, Organization>
    var users: seq<User>
    var invitations: seq<Invitation>
    var workflows: seq<Workflow>

    constructor ()
      ensures organizations == map[] && users == [] && invitations == [] && workflows == []
    {
      organizations := map[];
      users := [];
      invitations := [];
      workflows := [];
    }

    /** Every stored workflow passed the schema. */
    ghost predicate Valid()
      reads this
    {
      forall w :: w in workflows ==> WellFormed(w)
    }

    /** A stored workflow has an id and an owning organization. */
    lemma StoredWorkflowIdentified(k: nat)
      requires Valid() && k < |workflows|
      ensures workflows[k].id != "" && workflows[k].organizationId != ""
    {
      assert workflows[k] in workflows;
    }

    /** `Workflow.findOne({_id, organizationId})`: a lookup scoped to one tenant. */
    function FindWorkflow(id: string, organizationId: string): (r: Option<nat>)
      reads this
      ensures r.Some? ==>
                r.value < |workflows| && workflows[r.value].id == id
                && workflows[r.value].organizationId == organizationId
      ensures r.None? ==> forall k :: 0 <= k < |workflows| ==>
        !(workflows[k].id == id && workflows[k].organizationId == organizationId)
    {
      FirstIndex(workflows, (w: Workflow) => w.id == id && w.organizationId == organizationId, 0)
    }

    /** `User.findOne({email})`. */
    function FindUserByEmail(email: string): (r: Option<nat>)
      reads this
      ensures r.Some? ==> r.value < |users| && users[r.value].email == email
      ensures r.None? ==> forall k :: 0 <= k < |users| ==> users[k].email != email
    {
      FirstIndex(users, (u: User) => u.email == email, 0)
    }

    /** `User.findOne({_id, organizationId})`. */
    function FindMember(id: string, organizationId: string): (r: Option<nat>)
      reads this
      ensures r.Some? ==> r.value < |users| && users[r.value].id == id && users[r.value].organizationId == organizationId
      ensures r.None? ==> forall k :: 0 <= k < |users| ==>
        !(users[k].id == id && users[k].organizationId == organizationId)
    {
      FirstIndex(users, (u: User) => u.id == id && u.organizationId == organizationId, 0)
    }

    /** The account at `k` is the first owner of `organizationId` in insertion order. */
    predicate FirstOwnerAt(organizationId: string, k: nat)
      reads this
    {
      && k < |users| && users[k].organizationId == organizationId && users[k].role == Owner
      && forall j :: 0 <= j < k ==> !(users[j].organizationId == organizationId && users[j].role == Owner)
    }

    /** The e-mail of `User.findOne({organizationId, role: 'owner'})`, if there is one. */
    function OwnerEmail(organizationId: string): (r: Option<string>)
      reads this
      ensures r.Some? <==> exists k :: 0 <= k < |users| && users[k].organizationId == organizationId && users[k].role == Owner
      ensures r.Some? ==> exists k: nat :: FirstOwnerAt(organizationId, k) && r.value == users[k].email
    {
      match FirstIndex(users, (u: User) => u.organizationId == organizationId && u.role == Owner, 0)
      case Some(k) => Some(users[k].email)
      case None => None
    }
  }
}
