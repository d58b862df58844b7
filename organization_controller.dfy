/**
 * The organization's member management: inviting an address, removing a
 * member and changing a member's role. The owner can be neither removed nor
 * demoted, an address that already has an account cannot be invited, and an
 * organization holds at most one pending invitation per address.
 *
 * The invitation e-mail is an outbound effect and is not part of this model;
 * the token, the clock and the new id are parameters.
 */
module OrganizationController {
  import opened Wrappers
  import opened WorkflowTypes
  import opened WorkflowModel
  import opened Store
  import opened Errors
  import opened Auth

  /** Seven days in milliseconds, the lifetime of an invitation. */
  const InvitationLifetime: int := 7 * 24 * 60 * 60 * 1000

  /** A pending invitation of `organizationId` for `email`. */
  predicate PendingFor(inv: Invitation, organizationId: string, email: string) {
    inv.organizationId == organizationId && inv.email == email && inv.status == Pending
  }

  /** No organization holds two pending invitations for one address. */
  predicate UniquePending(invitations: seq<Invitation>) {
    forall i, j :: 0 <= i < j < |invitations| && invitations[i].status == Pending ==>
      !PendingFor(invitations[j], invitations[i].organizationId, invitations[i].email)
  }

  /** Adding an invitation for an address its organization has no pending invitation for keeps them unique. */
  lemma UniquePendingAfterInvite(invitations: seq<Invitation>, inv: Invitation)
    requires UniquePending(invitations)
    requires forall k :: 0 <= k < |invitations| ==> !PendingFor(invitations[k], inv.organizationId, inv.email)
    ensures UniquePending(invitations + [inv])
  {
  }

  /** The invitation `inviteMember` creates: the token's hash, pending, expiring seven days after `now`. */
  function NewInvitation(id: string, organizationId: string, email: string, role: UserRole, invitedBy: string,
                         token: string, now: int): Invitation {
    Invitation(id, organizationId, EmailKey(email), role, invitedBy, HashToken(token), Pending, now + InvitationLifetime)
  }

  /** The invitation is pending, names the inviter, opens with the token handed
      out and with no other, and lasts exactly 604,800,000 ms. */
  lemma NewInvitationRules(id: string, organizationId: string, email: string, role: UserRole, invitedBy: string,
                           token: string, now: int, other: string)
    ensures var inv := NewInvitation(id, organizationId, email, role, invitedBy, token, now);
            && PendingFor(inv, organizationId, EmailKey(email)) && inv.invitedBy == invitedBy && inv.role == role
            && (inv.token == HashToken(other) <==> other == token)
            && inv.expiresAt - now == 604800000
  {
    HashTokenInjective(other, token);
  }

  /** `users` without the account at `k` (`findByIdAndDelete`). */
  function RemoveAt(users: seq<User>, k: nat): (r: seq<User>)
    requires k < |users|
    ensures |r| == |users| - 1
    ensures forall i :: 0 <= i < k ==> r[i] == users[i]
    ensures forall i :: k <= i < |r| ==> r[i] == users[i + 1]
  {
    users[..k] + users[k + 1..]
  }

  /** The ids of the owners of `organizationId`, in store order. */
  function OwnersOf(users: seq<User>, organizationId: string): seq<string> {
    if users == [] then []
    else (if users[0].organizationId == organizationId && users[0].role == Owner then [users[0].id] else [])
         + OwnersOf(users[1..], organizationId)
  }

  /** Removing an account that is not an owner leaves every organization's owners as they were. */
  lemma {:induction false} OwnersKeptOnRemove(users: seq<User>, k: nat, organizationId: string)
    requires k < |users| && users[k].role != Owner
    ensures OwnersOf(RemoveAt(users, k), organizationId) == OwnersOf(users, organizationId)
  {
    if k > 0 {
      OwnersKeptOnRemove(users[1..], k - 1, organizationId);
      assert RemoveAt(users, k) == [users[0]] + RemoveAt(users[1..], k - 1);
      assert RemoveAt(users, k)[1..] == RemoveAt(users[1..], k - 1);
    } else {
      assert RemoveAt(users, k) == users[1..];
    }
  }

  /** Giving an account that is not an owner a role other than owner leaves
      every organization's owners as they were. */
  lemma {:induction false} OwnersKeptOnRoleChange(users: seq<User>, k: nat, role: UserRole, organizationId: string)
    requires k < |users| && users[k].role != Owner && role != Owner
    ensures OwnersOf(users[k := users[k].(role := role)], organizationId) == OwnersOf(users, organizationId)
  {
    var changed := users[k := users[k].(role := role)];
    if k > 0 {
      OwnersKeptOnRoleChange(users[1..], k - 1, role, organizationId);
      assert changed[1..] == users[1..][k - 1 := users[k].(role := role)];
    } else {
      assert changed[1..] == users[1..];
    }
  }

  /** Removing an account keeps the addresses unique. */
  lemma UniqueAfterRemove(users: seq<User>, k: nat)
    requires k < |users| && UniqueEmails(users)
    ensures UniqueEmails(RemoveAt(users, k))
  {
    var r := RemoveAt(users, k);
    forall i, j | 0 <= i < j < |r|
      ensures r[i].email != r[j].email
    {
      var i' := if i < k then i else i + 1;
      var j' := if j < k then j else j + 1;
      assert r[i] == users[i'] && r[j] == users[j'];
    }
  }

  class OrganizationController {
    const db: Db

    constructor (db: Db)
      ensures this.db == db
    {
      this.db := db;
    }

    /** `Invitation.findOne({organizationId, email, status: 'pending'})`. */
    function FindPending(organizationId: string, email: string): (r: Option<nat>)
      reads db
      ensures r.Some? ==> r.value < |db.invitations| && PendingFor(db.invitations[r.value], organizationId, email)
      ensures r.None? ==> forall k :: 0 <= k < |db.invitations| ==> !PendingFor(db.invitations[k], organizationId, email)
    {
      FirstIndex(db.invitations, (inv: Invitation) => PendingFor(inv, organizationId, email), 0)
    }

    /** `inviteMember`, for the signed-in `userId` of `organizationId`. */
    method InviteMember(organizationId: string, userId: string, email: string, role: UserRole,
                        token: string, now: int, invitationId: string)
      returns (r: Result<Invitation, Err>)
      modifies db
      ensures db.users == old(db.users) && db.organizations == old(db.organizations) && db.workflows == old(db.workflows)
      ensures UniquePending(old(db.invitations)) ==> UniquePending(db.invitations)
      ensures old(db.FindUserByEmail(EmailKey(email))).Some? ==>
                r == Failure(AppError(400, "User already exists")) && db.invitations == old(db.invitations)
      ensures old(db.FindUserByEmail(EmailKey(email))).None? && old(FindPending(organizationId, EmailKey(email))).Some? ==>
                r == Failure(AppError(400, "Invitation already sent")) && db.invitations == old(db.invitations)
      ensures old(db.FindUserByEmail(EmailKey(email))).None? && old(FindPending(organizationId, EmailKey(email))).None?
              && EmailKey(email) == "" ==>
                r == Failure(Invalid(Required("email"))) && db.invitations == old(db.invitations)
      ensures old(db.FindUserByEmail(EmailKey(email))).None? && old(FindPending(organizationId, EmailKey(email))).None?
              && EmailKey(email) != "" ==>
                var inv := NewInvitation(invitationId, organizationId, email, role, userId, token, now);
                r == Success(inv) && db.invitations == old(db.invitations) + [inv]
    {
      var key := EmailKey(email);
      if db.FindUserByEmail(key).Some? {
        return Failure(AppError(400, "User already exists"));
      }
      if FindPending(organizationId, key).Some? {
        return Failure(AppError(400, "Invitation already sent"));
      }
      if key == "" {
        return Failure(Invalid(Required("email")));
      }
      var inv := NewInvitation(invitationId, organizationId, email, role, userId, token, now);
      AddInvitation(inv);
      r := Success(inv);
    }

    /** `Invitation.create` for an address its organization has no pending invitation for. */
    method AddInvitation(inv: Invitation)
      requires forall k :: 0 <= k < |db.invitations| ==> !PendingFor(db.invitations[k], inv.organizationId, inv.email)
      modifies db
      ensures db.invitations == old(db.invitations) + [inv]
      ensures db.users == old(db.users) && db.organizations == old(db.organizations) && db.workflows == old(db.workflows)
      ensures UniquePending(old(db.invitations)) ==> UniquePending(db.invitations)
    {
      if UniquePending(db.invitations) {
        UniquePendingAfterInvite(db.invitations, inv);
      }
      db.invitations := db.invitations + [inv];
    }

    /** `removeMember`: only a member of this organization, and never its owner. */
    method RemoveMember(organizationId: string, userId: string) returns (r: Result<string, Err>)
      modifies db
      ensures db.invitations == old(db.invitations) && db.organizations == old(db.organizations) && db.workflows == old(db.workflows)
      ensures UniqueEmails(old(db.users)) ==> UniqueEmails(db.users)
      ensures forall o :: OwnersOf(db.users, o) == OwnersOf(old(db.users), o)
      ensures old(db.FindMember(userId, organizationId)).None? ==>
                r == Failure(AppError(404, "User not found")) && db.users == old(db.users)
      ensures old(db.FindMember(userId, organizationId)).Some? && old(db.users)[old(db.FindMember(userId, organizationId)).value].role == Owner ==>
                r == Failure(AppError(400, "Cannot remove organization owner")) && db.users == old(db.users)
      ensures old(db.FindMember(userId, organizationId)).Some? && old(db.users)[old(db.FindMember(userId, organizationId)).value].role != Owner ==>
                r == Success("Member removed") && db.users == RemoveAt(old(db.users), old(db.FindMember(userId, organizationId)).value)
    {
      var k := db.FindMember(userId, organizationId);
      if k.None? {
        return Failure(AppError(404, "User not found"));
      }
      if db.users[k.value].role == Owner {
        return Failure(AppError(400, "Cannot remove organization owner"));
      }
      forall o {
        OwnersKeptOnRemove(db.users, k.value, o);
      }
      if UniqueEmails(db.users) {
        UniqueAfterRemove(db.users, k.value);
      }
      db.users := RemoveAt(db.users, k.value);
      r := Success("Member removed");
    }

    /** `updateMemberRole`: only a member of this organization, and never its owner. */
    method UpdateMemberRole(organizationId: string, userId: string, role: UserRole) returns (r: Result<User, Err>)
      modifies db
      ensures db.invitations == old(db.invitations) && db.organizations == old(db.organizations) && db.workflows == old(db.workflows)
      ensures UniqueEmails(old(db.users)) ==> UniqueEmails(db.users)
      ensures role != Owner ==> forall o :: OwnersOf(db.users, o) == OwnersOf(old(db.users), o)
      ensures old(db.FindMember(userId, organizationId)).None? ==>
                r == Failure(AppError(404, "User not found")) && db.users == old(db.users)
      ensures old(db.FindMember(userId, organizationId)).Some? && old(db.users)[old(db.FindMember(userId, organizationId)).value].role == Owner ==>
                r == Failure(AppError(400, "Cannot change owner role")) && db.users == old(db.users)
      ensures old(db.FindMember(userId, organizationId)).Some? && old(db.users)[old(db.FindMember(userId, organizationId)).value].role != Owner ==>
                var k := old(db.FindMember(userId, organizationId)).value;
                var u := old(db.users)[k].(role := role);
                r == Success(u) && db.users == old(db.users)[k := u]
    {
      var k := db.FindMember(userId, organizationId);
      if k.None? {
        return Failure(AppError(404, "User not found"));
      }
      if db.users[k.value].role == Owner {
        return Failure(AppError(400, "Cannot change owner role"));
      }
      var u := db.users[k.value].(role := role);
      if role != Owner {
        forall o {
          OwnersKeptOnRoleChange(db.users, k.value, role, o);
        }
      }
      if UniqueEmails(db.users) {
        UniqueAfterChange(db.users, k.value, u);
      }
      db.users := db.users[k.value := u];
      r := Success(u);
    }
  }
}
