/**
  The two access middlewares: the role gate put in front of a route, and
  the check that a subcontractor reads only its own data.
 */
module Roles {

  import opened Wrappers

  /** `req.user` as the authentication middleware leaves it */
  datatype AuthUser = AuthUser(role: string, sousTraitantId: Option<string>)

  /**
    What the middleware does with the request: pass it on, answer 401 or
    403, or fail on `req.user.role` when no user is attached.
   */
  datatype Decision = Next | NotAuthenticated | Forbidden | Fault

  /** `roles(allowedRoles)`: authentication is checked before the role */
  function RoleGate(allowed: seq<string>, user: Option<AuthUser>): (d: Decision)
    ensures d == NotAuthenticated <==> user.None?
    ensures d == Forbidden <==> user.Some? && user.value.role !in allowed
    ensures d == Next <==> user.Some? && user.value.role in allowed
  {
    if user.None? then NotAuthenticated
    else if user.value.role !in allowed then Forbidden
    else Next
  }

  /** Allowing more roles never refuses a request that fewer roles let through */
  lemma RoleGateMonotone(allowed: seq<string>, more: seq<string>, user: Option<AuthUser>)
    requires forall r :: r in allowed ==> r in more
    requires RoleGate(allowed, user) == Next
    ensures RoleGate(more, user) == Next
  {
  }

  /** `req.params[paramName] || req.body.sous_traitant_id`: an empty parameter falls back to the body */
  function RequestedId(param: Option<string>, body: Option<string>): (r: Option<string>)
    ensures param.Some? && param.value != "" ==> r == param
    ensures (param.None? || param.value == "") ==> r == body
  {
    if param.Some? && param.value != "" then param else body
  }

  /**
    `checkSousTraitantAccess`: an admin passes; a subcontractor asking for a
    non-empty id other than its own is refused; everyone else passes. The
    comparison is strict, so a subcontractor without an id of its own is
    refused any requested id.
   */
  function SousTraitantAccess(user: Option<AuthUser>, param: Option<string>, body: Option<string>): (d: Decision)
    ensures d == Fault <==> user.None?
    ensures d != NotAuthenticated
  {
    match user
    case None => Fault
    case Some(u) =>
      if u.role == "admin" then Next
      else if u.role == "sous_traitant" then
        var requested := RequestedId(param, body);
        if requested.Some? && requested.value != "" && Some(requested.value) != u.sousTraitantId then Forbidden else Next
      else Next
  }

  lemma AdminPasses(u: AuthUser, param: Option<string>, body: Option<string>)
    requires u.role == "admin"
    ensures SousTraitantAccess(Some(u), param, body) == Next
  {
  }

  /**
    Exactly the subcontractors whose requested id is present and not their
    own are refused; an absent id, their own id and every other role pass.
   */
  lemma ForbiddenExactly(u: AuthUser, param: Option<string>, body: Option<string>)
    ensures var requested := RequestedId(param, body);
      (SousTraitantAccess(Some(u), param, body) == Forbidden) <==> (u.role == "sous_traitant" && requested.Some? && requested.value != "" && Some(requested.value) != u.sousTraitantId)
    ensures SousTraitantAccess(Some(u), param, body) in {Next, Forbidden}
  {
  }

  /** A subcontractor asking for its own id passes */
  lemma OwnDataPasses(u: AuthUser, param: Option<string>, body: Option<string>)
    requires u.role == "sous_traitant" && RequestedId(param, body) == u.sousTraitantId
    ensures SousTraitantAccess(Some(u), param, body) == Next
  {
  }
}
