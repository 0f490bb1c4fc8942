/**
 * The static tables of the platform: the four market categories settlement
 * dispatches on, and the role hierarchy that decides which account may manage which.
 */
module Utils {
  import opened Wrappers
  import opened Records

  /** The `BETTYPE` category strings. */
  const H2H: string := "h2h"
  const TOTAL: string := "totals"
  const SPREAD: string := "spreads"
  const OUTRIGHT: string := "outrights"

  /** The roles of the hierarchy, top to bottom. */
  const ADMIN: string := "admin"
  const DISTRIBUTOR: string := "distributor"
  const SUBDISTRIBUTOR: string := "subdistributor"
  const AGENT: string := "agent"
  const PLAYER: string := "player"

  /** `rolesHierarchy[role] || []`: the roles an account of `role` may manage. */
  function AllowedRoles(role: string): (r: seq<string>)
    ensures role == ADMIN ==> r == [DISTRIBUTOR, SUBDISTRIBUTOR, AGENT, PLAYER]
    ensures role == DISTRIBUTOR ==> r == [SUBDISTRIBUTOR]
    ensures role == SUBDISTRIBUTOR ==> r == [AGENT]
    ensures role == AGENT ==> r == [PLAYER]
    ensures role !in {ADMIN, DISTRIBUTOR, SUBDISTRIBUTOR, AGENT} ==> r == []
  {
    if role == ADMIN then [DISTRIBUTOR, SUBDISTRIBUTOR, AGENT, PLAYER]
    else if role == DISTRIBUTOR then [SUBDISTRIBUTOR]
    else if role == SUBDISTRIBUTOR then [AGENT]
    else if role == AGENT then [PLAYER]
    else []
  }

  /** The height of a role in the hierarchy; roles outside it sit at the bottom. */
  function Rank(role: string): nat
  {
    if role == ADMIN then 4
    else if role == DISTRIBUTOR then 3
    else if role == SUBDISTRIBUTOR then 2
    else if role == AGENT then 1
    else 0
  }

  /** Every role an account may manage sits strictly below its own, so the hierarchy has no cycle and no role manages itself. */
  lemma HierarchyDescends(role: string, managed: string)
    requires managed in AllowedRoles(role)
    ensures Rank(managed) < Rank(role)
    ensures managed != role
  {
  }

  /**
   * `hasPermission(requestingUserId, targetUserId, requestingUserRole)` over the `User`
   * collection: true exactly when the three arguments are non-empty, both accounts
   * exist, a non-admin requester created the target, and the target's role is one the
   * claimed role may manage.
   */
  function HasPermission(users: map<string, Account>, requesterId: string, targetId: string, requesterRole: string): (r: bool)
    ensures r <==>
      requesterId != "" && requesterRole != "" && targetId != "" &&
      requesterId in users && targetId in users &&
      (requesterRole == ADMIN || users[targetId].createdBy == requesterId) &&
      users[targetId].role in AllowedRoles(requesterRole)
    ensures r ==> requesterRole in {ADMIN, DISTRIBUTOR, SUBDISTRIBUTOR, AGENT}
  {
    if requesterId == "" || requesterRole == "" || targetId == "" then false
    else if requesterId !in users then false
    else
      var target := TargetLookup(users, targetId, requesterId, requesterRole);
      match target
      case None => false
      case Some(t) => t.role in AllowedRoles(requesterRole)
  }

  /** `User.findOne(targetUserQuery)`: by id for an admin, by id and creator otherwise. */
  function TargetLookup(users: map<string, Account>, targetId: string, requesterId: string, requesterRole: string): (r: Option<Account>)
    ensures r.Some? <==> targetId in users && (requesterRole == ADMIN || users[targetId].createdBy == requesterId)
    ensures r.Some? ==> r.value == users[targetId]
  {
    if targetId !in users then None
    else if requesterRole == ADMIN || users[targetId].createdBy == requesterId then Some(users[targetId])
    else None
  }
}
