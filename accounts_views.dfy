/** The account views: the role-based landing redirect, and an owner's list and
    deletion of the verifier accounts attached to it. */
module AccountViews {
  import opened Wrappers
  import opened AccountModels

  /** `role_based_redirect` (behind `login_required`, so the user is authenticated):
      the verifier test comes first, then owner or administrator, then the fallback. */
  function RoleBasedRedirect(u: User): (r: Route)
    ensures r == VerifyCodePage <==> IsVerifier(u)
    ensures r == DashboardPage <==> !IsVerifier(u) && (IsOwner(u) || IsAdmin(u))
    ensures r == HomePage <==> !IsVerifier(u) && !IsOwner(u) && !IsAdmin(u)
    ensures r != AdminSite
  {
    if IsVerifier(u) then VerifyCodePage
    else if IsOwner(u) || IsAdmin(u) then DashboardPage
    else HomePage
  }

  /** The fallback to `home` is taken exactly for a user whose role is off the declared
      choices and who is no superuser; a verifier superuser still goes to verification. */
  lemma RoleRedirectFallback(u: User)
    ensures RoleBasedRedirect(u) == HomePage <==> !IsDeclaredRole(u.role) && !u.isSuperuser
    ensures IsVerifier(u) && u.isSuperuser ==> RoleBasedRedirect(u) == VerifyCodePage
  {
  }

  /** The query of `verifier_list`: the keys of the rows whose owner is the caller and
      whose role is VERIFIER. */
  function VerifiersOf(rows: map<UserId, User>, caller: User): (ids: set<UserId>)
    ensures ids <= rows.Keys
    ensures forall id | id in rows ::
      id in ids <==> rows[id].owner == Some(caller.id) && rows[id].role == VERIFIER
  {
    set id | id in rows && rows[id].owner == Some(caller.id) && rows[id].role == VERIFIER
  }

  /** `verifier_list` on the current table. */
  function VerifierList(users: UserTable, caller: User): set<UserId>
    reads users
  {
    VerifiersOf(users.rows, caller)
  }

  /** The responses of `verifier_delete`. */
  datatype DeleteOutcome = Forbidden | NotFound | Deleted(verifier: User)

  /** `verifier_delete`: only a caller whose role is OWNER may delete (an administrator
      who passed `owner_required` is still refused), and only a verifier of that caller
      is deleted; any other key is a 404. Nothing changes unless a row is deleted. */
  method VerifierDelete(users: UserTable, caller: User, verifierId: UserId) returns (o: DeleteOutcome)
    requires users.Valid()
    modifies users
    ensures users.Valid() && users.nextId == old(users.nextId)
    ensures o.Forbidden? <==> caller.role != OWNER
    ensures o.Deleted? <==> caller.role == OWNER && verifierId in VerifiersOf(old(users.rows), caller)
    ensures o.Deleted? ==> o.verifier == old(users.rows)[verifierId]
    ensures o.Deleted? ==> users.rows == old(users.rows) - {verifierId}
    ensures !o.Deleted? ==> users.rows == old(users.rows)
  {
    if caller.role != OWNER {
      return Forbidden;
    }
    if !(verifierId in users.rows && users.rows[verifierId].role == VERIFIER
         && users.rows[verifierId].owner == Some(caller.id)) {
      return NotFound;
    }
    o := Deleted(users.rows[verifierId]);
    users.rows := users.rows - {verifierId};
  }

  /** Deleting one verifier takes exactly that key out of its owner's list and leaves
      every owner's list otherwise as it was. */
  lemma DeleteShrinksVerifierList(rows: map<UserId, User>, caller: User, verifierId: UserId, other: User)
    requires verifierId in VerifiersOf(rows, caller)
    ensures VerifiersOf(rows - {verifierId}, caller) == VerifiersOf(rows, caller) - {verifierId}
    ensures VerifiersOf(rows - {verifierId}, other) == VerifiersOf(rows, other) - {verifierId}
    ensures other.id != caller.id ==> VerifiersOf(rows - {verifierId}, other) == VerifiersOf(rows, other)
  {
    var rest := rows - {verifierId};
    assert VerifiersOf(rest, other) == VerifiersOf(rows, other) - {verifierId};
  }
  /** How Django calls a view for a matched URL: the captured value is passed as a
      keyword argument named by the route, so a view without a parameter of that name
      raises TypeError instead of running. */
  datatype Dispatch = RaisesTypeError | CallsWith(verifierId: UserId)

  function DispatchByKeyword(routeParameter: string, viewParameter: string, captured: UserId): (d: Dispatch)
    ensures d.CallsWith? <==> routeParameter == viewParameter
    ensures d.CallsWith? ==> d.verifierId == captured
  {
    if routeParameter == viewParameter then CallsWith(captured) else RaisesTypeError
  }

  /** The keyword the delete route captures, as written, and the parameter the view takes. */
  const DeleteRouteParameter: string := "pk"
  const DeleteViewParameter: string := "verifier_id"

  /** As written, no request to the delete route reaches the body of `verifier_delete`. */
  lemma DeleteRouteNeverRuns(captured: UserId)
    ensures DispatchByKeyword(DeleteRouteParameter, DeleteViewParameter, captured) == RaisesTypeError
  {
  }

  /** With the route capturing `verifier_id`, the view runs on the captured key. */
  lemma DeleteRouteCorrected(captured: UserId)
    ensures DispatchByKeyword("verifier_id", DeleteViewParameter, captured) == CallsWith(captured)
  {
  }
}
