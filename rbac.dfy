/**
 * Role-based access control: the four roles are ranked by a fixed level table,
 * a route guarded by a minimum role lets a signed-in user through exactly when
 * the user's level reaches the minimum, and members may modify only what they
 * own.
 */
module Rbac {
  import opened Wrappers
  import opened WorkflowTypes

  /** `roleLevels`. */
  function Level(role: UserRole): (n: nat)
    ensures 1 <= n <= 4
  {
    match role
    case Viewer => 1
    case Member => 2
    case Admin => 3
    case Owner => 4
  }

  /** The levels rank the roles strictly, viewer lowest and owner highest; no two
      roles share a level. */
  lemma LevelsStrictlyOrdered(a: UserRole, b: UserRole)
    ensures Level(Viewer) < Level(Member) < Level(Admin) < Level(Owner)
    ensures Level(a) == Level(b) <==> a == b
  {
  }

  /** What a guard does with a request: call `next`, answer with a status and an
      error, or answer 403 "Insufficient permissions" naming the minimum role
      (`required`) and the user's role (`current`). */
  datatype Decision = Next | Deny(status: int, error: string) | Forbidden(required: UserRole, current: UserRole)

  /** `requireRole(minRole)` for a request whose signed-in user has `user`'s role (None: no user). */
  function RequireRole(minRole: UserRole, user: Option<UserRole>): (d: Decision)
    ensures user.None? <==> d == Deny(401, "Authentication required")
    ensures user.Some? ==> (d == Forbidden(minRole, user.value) <==> Level(user.value) < Level(minRole))
    ensures d.Next? <==> user.Some? && Level(minRole) <= Level(user.value)
  {
    if user.None? then Deny(401, "Authentication required")
    else if Level(user.value) < Level(minRole) then Forbidden(minRole, user.value)
    else Next
  }

  /** A role that passes a minimum passes every lower minimum, and every higher
      role passes it too. */
  lemma RequireRoleMonotone(low: UserRole, high: UserRole, role: UserRole, higher: UserRole)
    requires Level(low) <= Level(high) && Level(role) <= Level(higher)
    ensures RequireRole(high, Some(role)).Next? ==> RequireRole(low, Some(role)).Next?
    ensures RequireRole(low, Some(role)).Next? ==> RequireRole(low, Some(higher)).Next?
  {
  }

  /** `requireOwner`, `requireAdmin` and `requireMember`. */
  function RequireOwner(user: Option<UserRole>): Decision { RequireRole(Owner, user) }
  function RequireAdmin(user: Option<UserRole>): Decision { RequireRole(Admin, user) }
  function RequireMember(user: Option<UserRole>): Decision { RequireRole(Member, user) }

  /** Only the owner passes `requireOwner`; owners and admins pass `requireAdmin`;
      everyone but a viewer passes `requireMember`. */
  lemma NamedGuards(role: UserRole)
    ensures RequireOwner(Some(role)).Next? <==> role == Owner
    ensures RequireAdmin(Some(role)).Next? <==> role == Owner || role == Admin
    ensures RequireMember(Some(role)).Next? <==> role != Viewer
  {
  }

  /** `canModifyResource`. */
  predicate CanModifyResource(role: UserRole, resourceOwnerId: string, userId: string) {
    if role == Owner || role == Admin then true
    else role == Member && resourceOwnerId == userId
  }

  /** Owners and admins modify anything, members exactly their own resources,
      viewers nothing; so the permission only grows with the role's level. */
  lemma ModifyRule(role: UserRole, resourceOwnerId: string, userId: string, higher: UserRole)
    requires Level(role) <= Level(higher)
    ensures role == Owner || role == Admin ==> CanModifyResource(role, resourceOwnerId, userId)
    ensures role == Member ==> (CanModifyResource(role, resourceOwnerId, userId) <==> resourceOwnerId == userId)
    ensures role == Viewer ==> !CanModifyResource(role, resourceOwnerId, userId)
    ensures CanModifyResource(role, resourceOwnerId, userId) ==> CanModifyResource(higher, resourceOwnerId, userId)
  {
  }
}
