/** Token verification, `verifyToken` of `backend/middleware/auth.js`, followed by a role
    gate. Decoding and checking the signature of a JSON web token is not modelled: the
    outcome of `jwt.verify` is given as a `Token`. */
module Access {
  import opened Wrappers
  import opened Roles
  import opened Seqs
  import opened MemoryDb

  // ----- Error messages --------------------------------------------------------------------

  const NoToken := "No authentication token provided"
  const InvalidToken := "Invalid token"
  const UserNotFound := "User not found"

  /** What `jwt.verify` makes of the `Authorization` header. */
  datatype Token =
    | Missing                          // no bearer token in the header
    | Invalid                          // bad signature, expired, malformed
    | Decoded(id: int, role: string)   // the payload of a valid token

  /** `verifyToken`: 401 without a token, with a token that does not verify, or with one
      whose user no longer exists; otherwise the token's `(id, role)`. */
  function VerifyToken(db: MemoryDatabase, t: Token): (r: Response<Principal>)
    reads db
    ensures t.Missing? ==> r == Fail(401, NoToken)
    ensures t.Invalid? ==> r == Fail(401, InvalidToken)
    ensures t.Decoded? && db.GetUserById(t.id).None? ==> r == Fail(401, UserNotFound)
    ensures r.Ok? <==> t.Decoded? && db.GetUserById(t.id).Some?
    ensures r.Ok? ==> r.value == Principal(t.id, t.role)
  {
    match t
    case Missing => Fail(401, NoToken)
    case Invalid => Fail(401, InvalidToken)
    case Decoded(id, role) =>
      if db.GetUserById(id).None? then Fail(401, UserNotFound) else Ok(Principal(id, role))
  }

  /** `verifyToken` and then `hasRole(roles)`: passes exactly the existing users whose
      token carries one of `roles`. */
  function Authorize(db: MemoryDatabase, t: Token, roles: seq<string>): (r: Response<Principal>)
    reads db
    ensures VerifyToken(db, t).Err? ==> r == VerifyToken(db, t)
    ensures r.Ok? <==> VerifyToken(db, t).Ok? && t.role in roles
    ensures r.Ok? ==> r.value == Principal(t.id, t.role)
                      && exists i :: 0 <= i < |db.users| && db.users[i].id == t.id
  {
    match VerifyToken(db, t)
    case Err(e) => Err(e)
    case Ok(p) => HasRole(Some(p), roles)
  }

  /** What the `multer` upload middleware hands the handler. */
  datatype Upload =
    | Failed(reason: string)   // the upload itself failed
    | NoFile                   // no file in the request
    | File(path: string)       // the stored file's path

  /** The records a caller's list shows: a pharmacy its own, a distributor those addressed
      to it, an admin all of them, any other role none. */
  predicate Lists(p: Principal, pharmacyId: int, distributorId: int) {
    || (p.role == "pharmacy" && pharmacyId == p.id)
    || (p.role == "distributor" && distributorId == p.id)
    || p.role == "admin"
  }

  /** The records a caller may open by id: all but another pharmacy's or another
      distributor's. */
  predicate MayView(p: Principal, pharmacyId: int, distributorId: int) {
    && !(p.role == "pharmacy" && pharmacyId != p.id)
    && !(p.role == "distributor" && distributorId != p.id)
  }

  /** The `?status=` narrowing of a list: the records with that status, or all of them
      when no status (`""`) is given. */
  function WithStatus<T>(s: seq<T>, status: T -> string, wanted: string): (r: seq<T>)
    ensures forall i :: 0 <= i < |r| ==> r[i] in s && (wanted != "" ==> status(r[i]) == wanted)
    ensures forall i :: 0 <= i < |s| && (wanted == "" || status(s[i]) == wanted) ==> s[i] in r
  {
    if wanted == "" then s else Filter(s, (x: T) => status(x) == wanted)
  }
}
