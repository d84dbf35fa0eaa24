/** The role gates of `backend/middleware/roles.js`. */
module Roles {
  import opened Wrappers

  // ----- Error messages --------------------------------------------------------------------

  const AuthenticationRequired := "Authentication required"
  const AccessDenied := "Access denied. Insufficient permissions."

  /** `req.user`: the id and role carried by a verified token. */
  datatype Principal = Principal(id: int, role: string)

  const PharmacyRoles: seq<string> := ["pharmacy", "admin"]
  const DistributorRoles: seq<string> := ["distributor", "admin"]
  const AdminRoles: seq<string> := ["admin"]

  /** `hasRole(roles)`: 401 without an authenticated user, 403 when the user's role is not
      listed, and otherwise the request goes on with that user. */
  function HasRole(user: Option<Principal>, roles: seq<string>): (r: Response<Principal>)
    ensures user.None? ==> r == Fail(401, AuthenticationRequired)
    ensures user.Some? ==> (r.Ok? <==> user.value.role in roles)
    ensures r.Ok? ==> r.value == user.value
    ensures user.Some? && user.value.role !in roles
            ==> r == Fail(403, AccessDenied)
  {
    match user
    case None => Fail(401, AuthenticationRequired)
    case Some(u) =>
      if u.role in roles then Ok(u) else Fail(403, AccessDenied)
  }

  function IsPharmacy(user: Option<Principal>): (r: Response<Principal>)
    ensures r.Ok? <==> user.Some? && (user.value.role == "pharmacy" || user.value.role == "admin")
  {
    HasRole(user, PharmacyRoles)
  }

  function IsDistributor(user: Option<Principal>): (r: Response<Principal>)
    ensures r.Ok? <==> user.Some? && (user.value.role == "distributor" || user.value.role == "admin")
  {
    HasRole(user, DistributorRoles)
  }

  function IsAdmin(user: Option<Principal>): (r: Response<Principal>)
    ensures r.Ok? <==> user.Some? && user.value.role == "admin"
  {
    HasRole(user, AdminRoles)
  }

  /** An admin passes every gate. */
  lemma AdminPassesAll(id: int)
    ensures IsPharmacy(Some(Principal(id, "admin"))).Ok?
    ensures IsDistributor(Some(Principal(id, "admin"))).Ok?
    ensures IsAdmin(Some(Principal(id, "admin"))).Ok?
  {
  }

  /** A pharmacy is turned away, with 403, by the distributor and admin gates. */
  lemma PharmacyLimited(id: int)
    ensures IsDistributor(Some(Principal(id, "pharmacy"))) == Fail(403, AccessDenied)
    ensures IsAdmin(Some(Principal(id, "pharmacy"))) == Fail(403, AccessDenied)
  {
    assert "pharmacy" !in DistributorRoles;
    assert "pharmacy" !in AdminRoles;
  }
}
