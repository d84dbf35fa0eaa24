/** The account routes of `backend/routes/auth.js`: registration, login, the current user,
    the admin's user list and the admin's credit-limit update.

    Password hashing and comparison (`bcrypt`) are parameters: `hash` stands for
    `bcrypt.hash` with a fresh salt and `compare` for `bcrypt.compare`. Issuing the JSON web
    token that registration and login return is not modelled. */
module AuthRoutes {
  import opened Wrappers
  import opened Seqs
  import opened Text
  import opened Entities
  import opened Roles
  import opened MemoryDb
  import opened Access

  // ----- Error messages --------------------------------------------------------------------

  const CredentialsMissing := "Email and password are required"
  const EmailTaken := "Email already registered"
  const InvalidRole := "Invalid role. Must be pharmacy, distributor, or admin"
  const InvalidEmail := "Invalid email format"
  const UserNotCreated := "Error creating user in database"
  const InvalidCredentials := "Invalid credentials"
  const UserNotFound := "User not found"
  const CreditLimitNotPharmacy := "Credit limit can only be set for pharmacy users"

  const AccountRoles: seq<string> := ["pharmacy", "distributor", "admin"]

  /** The credit limit a new pharmacy starts with: 1000 JD, in fils. */
  const DefaultCreditLimit: int := 1000 * 1000

  // ----- POST /api/auth/register -----------------------------------------------------------

  /** The body of the registration; `""` stands for a missing field. */
  datatype RegisterRequest = RegisterRequest(email: string, password: string, name: string,
                                             phoneNumber: string, role: string,
                                             businessName: string, address: string)

  /** A run of the `[^\s@]+` class: non-empty, no white space, no `@`. */
  predicate Segment(s: string) {
    |s| > 0 && forall i :: 0 <= i < |s| ==> !IsJsSpace(s[i]) && s[i] != '@'
  }

  /** `/^[^\s@]+@[^\s@]+\.[^\s@]+$/`: a local part, `@`, and a domain holding a dot with
      text on both sides of it. */
  predicate EmailShaped(e: string) {
    exists i, j ::
      && 0 <= i < j < |e| && e[i] == '@' && e[j] == '.'
      && Segment(e[..i]) && Segment(e[i + 1..j]) && Segment(e[j + 1..])
  }

  /** Documentation examples: some addresses the pattern accepts and refuses. They follow
      from `EmailShapedIsPlain` and are kept only to show the pattern at work. */
  lemma EmailShapes()
    ensures EmailShaped("a@b.c")
    ensures !EmailShaped("a@b")
    ensures !EmailShaped("@b.c")
  {
    var e := "a@b.c";
    assert e[1] == '@' && e[3] == '.';
    assert Segment(e[..1]) && Segment(e[1 + 1..3]) && Segment(e[3 + 1..]);
    assert EmailShaped(e);
    assert forall i :: 0 <= i < |"a@b"| ==> "a@b"[i] != '.';
    assert !Segment("@b.c"[..0]);
  }

  /** The pattern's meaning in plain terms: no white space, exactly one `@`, with text
      before it, and a `.` after it that is neither right after the `@` nor the last
      character. */
  predicate PlainEmail(e: string) {
    && (forall k :: 0 <= k < |e| ==> !IsJsSpace(e[k]))
    && exists i :: && 0 < i < |e| && e[i] == '@'
                   && (forall k :: 0 <= k < |e| && e[k] == '@' ==> k == i)
                   && exists j :: i + 1 < j < |e| - 1 && e[j] == '.'
  }

  /** What the pattern accepts is plain. */
  lemma ShapedIsPlain(e: string)
    requires EmailShaped(e)
    ensures PlainEmail(e)
  {
    var i, j :| && 0 <= i < j < |e| && e[i] == '@' && e[j] == '.'
                && Segment(e[..i]) && Segment(e[i + 1..j]) && Segment(e[j + 1..]);
    var local, host, top := e[..i], e[i + 1..j], e[j + 1..];
    forall k | 0 <= k < |e|
      ensures !IsJsSpace(e[k]) && (e[k] == '@' ==> k == i)
    {
      if k < i {
        assert e[k] == local[k];
      } else if i < k < j {
        assert e[k] == host[k - i - 1];
      } else if j < k {
        assert e[k] == top[k - j - 1];
      }
    }
    assert i + 1 < j < |e| - 1 && e[j] == '.';
  }

  /** What is plain, the pattern accepts. */
  lemma PlainIsShaped(e: string)
    requires PlainEmail(e)
    ensures EmailShaped(e)
  {
    var i :| && 0 < i < |e| && e[i] == '@'
             && (forall k :: 0 <= k < |e| && e[k] == '@' ==> k == i)
             && exists j :: i + 1 < j < |e| - 1 && e[j] == '.';
    var j :| i + 1 < j < |e| - 1 && e[j] == '.';
    var local, host, top := e[..i], e[i + 1..j], e[j + 1..];
    assert forall k :: 0 <= k < |local| ==> local[k] == e[k];
    assert forall k :: 0 <= k < |host| ==> host[k] == e[i + 1 + k];
    assert forall k :: 0 <= k < |top| ==> top[k] == e[j + 1 + k];
    assert Segment(local) && Segment(host) && Segment(top);
  }

  /** The pattern accepts exactly the plain addresses. */
  lemma EmailShapedIsPlain(e: string)
    ensures EmailShaped(e) <==> PlainEmail(e)
  {
    if EmailShaped(e) {
      ShapedIsPlain(e);
    }
    if PlainEmail(e) {
      PlainIsShaped(e);
    }
  }

  /** The record the handler asks the store to create: the email serves as username, a
      pharmacy gets the default credit limit, a distributor its business type. */
  function RegisterDraft(req: RegisterRequest, hash: string -> string, now: int): UserDraft {
    UserDraft(Some(now), req.email, hash(req.password), req.name, req.email, req.phoneNumber,
              req.role, req.businessName, req.address,
              if req.role == "pharmacy" then Some(DefaultCreditLimit) else None,
              if req.role == "distributor" then Some("Distributor") else None)
  }

  /** The checks of the registration, in their order. */
  function CheckRegister(db: MemoryDatabase, req: RegisterRequest): (r: Response<()>)
    reads db
    ensures req.email == "" || req.password == "" ==> r == Fail(400, CredentialsMissing)
    ensures req.email != "" && req.password != "" && db.GetUserByUsername(req.email).Some?
            ==> r == Fail(400, EmailTaken)
    ensures req.email != "" && req.password != "" && db.GetUserByUsername(req.email).None?
            && req.role !in AccountRoles
            ==> r == Fail(400, InvalidRole)
    ensures req.email != "" && req.password != "" && db.GetUserByUsername(req.email).None?
            && req.role in AccountRoles && !EmailShaped(req.email)
            ==> r == Fail(400, InvalidEmail)
    ensures r.Ok? <==> && req.email != "" && req.password != ""
                       && db.GetUserByUsername(req.email).None?
                       && req.role in AccountRoles && EmailShaped(req.email)
  {
    if req.email == "" || req.password == "" then Fail(400, CredentialsMissing)
    else if db.GetUserByUsername(req.email).Some? then Fail(400, EmailTaken)
    else if req.role !in AccountRoles then
      Fail(400, InvalidRole)
    else if !EmailShaped(req.email) then Fail(400, InvalidEmail)
    // the source's `password.length < 1` check cannot fire: an empty password stops above
    else Ok(())
  }

  /** `POST /api/auth/register`: on success exactly one user is added, and the password
      that registered it logs in. A store refusal (only an empty hash can cause one) is a
      500. */
  method Register(db: MemoryDatabase, req: RegisterRequest, hash: string -> string,
                  compare: (string, string) -> bool, now: int) returns (r: Response<PublicUser>)
    requires db.UsersValid()
    modifies db`users, db`nextUserId
    ensures db.UsersValid()
    ensures old(CheckRegister(db, req)).Err? ==> r == Err(old(CheckRegister(db, req)).error)
    ensures old(CheckRegister(db, req)).Ok? && hash(req.password) == ""
            ==> r == Fail(500, UserNotCreated)
    ensures r.Err? ==> unchanged(db)
    ensures r.Ok? <==> old(CheckRegister(db, req)).Ok? && hash(req.password) != ""
    ensures r.Ok? ==> && db.users == old(db.users) + [NewUser(old(db.nextUserId), now,
                                                             RegisterDraft(req, hash, now))]
                      && r.value == Public(db.users[|db.users| - 1])
                      && r.value.username == req.email && r.value.role == req.role
                      && (req.role == "pharmacy" <==> r.value.creditLimit == Some(DefaultCreditLimit))
    ensures r.Ok? && compare(req.password, hash(req.password))
            ==> Login(db, req.email, req.password, compare) == Ok(r.value)
  {
    var c := CheckRegister(db, req);
    if c.Err? {
      return Err(c.error);
    }
    var d := RegisterDraft(req, hash, now);
    assert d.username == d.email == req.email && d.role == req.role != "";
    var created := db.CreateUser(d, now);
    if created.Err? {
      assert d.password == hash(req.password) == "";
      return Fail(500, UserNotCreated);
    }
    r := Ok(created.value);
    var k := |db.users| - 1;
    assert db.users[k].username == req.email;
    UniqueUsernameFound(db.users, k);
  }

  /** With unique usernames, looking a user's name up finds that user. */
  lemma UniqueUsernameFound(us: seq<User>, k: int)
    requires UsernamesUnique(us) && 0 <= k < |us|
    ensures FindIndex(us, (u: User) => u.username == us[k].username) == k
  {
  }

  // ----- POST /api/auth/login --------------------------------------------------------------

  /** `POST /api/auth/login`: the user named `username`, without its password, when the
      password equals the stored one (the seed users' plain-text passwords) or matches it
      as a hash; otherwise 401. */
  function Login(db: MemoryDatabase, username: string, password: string,
                 compare: (string, string) -> bool): (r: Response<PublicUser>)
    reads db
    ensures r.Err? ==> r == Fail(401, InvalidCredentials)
    ensures r.Ok? <==> exists i :: && 0 <= i < |db.users| && db.users[i].username == username
                                  && (forall j :: 0 <= j < i ==> db.users[j].username != username)
                                  && (password == db.users[i].password
                                      || compare(password, db.users[i].password))
    ensures r.Ok? ==> r.value.username == username
                      && exists i :: && 0 <= i < |db.users| && r.value == Public(db.users[i])
                                    && db.users[i].username == username
                                    && forall j :: 0 <= j < i ==> db.users[j].username != username
  {
    var k := FindIndex(db.users, (u: User) => u.username == username);
    if k < 0 then Fail(401, InvalidCredentials)
    else
      var u := db.users[k];
      if password == u.password || compare(password, u.password) then Ok(Public(u))
      else Fail(401, InvalidCredentials)
  }

  // ----- GET /api/auth/me ------------------------------------------------------------------

  /** `GET /api/auth/me`: the caller's own record, without its password. (The handler's
      404 for a missing user cannot be reached: `verifyToken` has already found the user.) */
  function Me(db: MemoryDatabase, token: Token): (r: Response<PublicUser>)
    reads db
    ensures VerifyToken(db, token).Err? ==> r == Err(VerifyToken(db, token).error)
    ensures r.Ok? <==> VerifyToken(db, token).Ok?
    ensures r.Ok? ==> && r.value.id == token.id
                      && exists i :: 0 <= i < |db.users| && r.value == Public(db.users[i])
  {
    match VerifyToken(db, token)
    case Err(e) => Err(e)
    case Ok(p) => Ok(db.GetUserById(p.id).value)
  }

  // ----- GET /api/auth/users ---------------------------------------------------------------

  datatype UsersByRole = UsersByRole(pharmacies: seq<PublicUser>, distributors: seq<PublicUser>,
                                     admins: seq<PublicUser>)

  /** `GET /api/auth/users`, admins only: the users split by role, each user of one of the
      three roles in its own list. */
  function ListUsers(db: MemoryDatabase, token: Token): (r: Response<UsersByRole>)
    reads db
    ensures Authorize(db, token, AdminRoles).Err? ==> r == Err(Authorize(db, token, AdminRoles).error)
    ensures r.Ok? <==> Authorize(db, token, AdminRoles).Ok?
    ensures r.Ok? ==> && (forall i :: 0 <= i < |r.value.pharmacies| ==> r.value.pharmacies[i].role == "pharmacy")
                      && (forall i :: 0 <= i < |r.value.distributors| ==> r.value.distributors[i].role == "distributor")
                      && (forall i :: 0 <= i < |r.value.admins| ==> r.value.admins[i].role == "admin")
    ensures r.Ok? ==> forall j :: 0 <= j < |db.users| ==>
              && (db.users[j].role == "pharmacy" ==> Public(db.users[j]) in r.value.pharmacies)
              && (db.users[j].role == "distributor" ==> Public(db.users[j]) in r.value.distributors)
              && (db.users[j].role == "admin" ==> Public(db.users[j]) in r.value.admins)
    ensures r.Ok? ==> && (forall i :: 0 <= i < |r.value.pharmacies| ==>
                            exists j :: 0 <= j < |db.users| && r.value.pharmacies[i] == Public(db.users[j]))
                      && (forall i :: 0 <= i < |r.value.distributors| ==>
                            exists j :: 0 <= j < |db.users| && r.value.distributors[i] == Public(db.users[j]))
                      && (forall i :: 0 <= i < |r.value.admins| ==>
                            exists j :: 0 <= j < |db.users| && r.value.admins[i] == Public(db.users[j]))
  {
    match Authorize(db, token, AdminRoles)
    case Err(e) => Err(e)
    case Ok(_) =>
      Ok(UsersByRole(db.GetUsersByRole("pharmacy"), db.GetUsersByRole("distributor"),
                     db.GetUsersByRole("admin")))
  }

  // ----- PUT /api/auth/users/:id/credit-limit ----------------------------------------------

  /** The checks of the credit-limit update: admin gate, an existing user, a pharmacy. */
  function CheckCreditLimit(db: MemoryDatabase, token: Token, id: int): (r: Response<PublicUser>)
    reads db
    ensures Authorize(db, token, AdminRoles).Err? ==> r == Err(Authorize(db, token, AdminRoles).error)
    ensures Authorize(db, token, AdminRoles).Ok? && db.GetUserById(id).None?
            ==> r == Fail(404, UserNotFound)
    ensures Authorize(db, token, AdminRoles).Ok? && db.GetUserById(id).Some?
            && db.GetUserById(id).value.role != "pharmacy"
            ==> r == Fail(400, CreditLimitNotPharmacy)
    ensures r.Ok? <==> && Authorize(db, token, AdminRoles).Ok? && db.GetUserById(id).Some?
                       && db.GetUserById(id).value.role == "pharmacy"
    ensures r.Ok? ==> Some(r.value) == db.GetUserById(id)
  {
    match Authorize(db, token, AdminRoles)
    case Err(e) => Err(e)
    case Ok(_) =>
      match db.GetUserById(id)
      case None => Fail(404, UserNotFound)
      case Some(u) =>
        if u.role != "pharmacy" then Fail(400, CreditLimitNotPharmacy)
        else Ok(u)
  }

  /** `PUT /api/auth/users/:id/credit-limit`: only that pharmacy's `creditLimit` changes
      (to `None` when the body leaves it out), and the credit check of new orders then
      measures the pharmacy's pending payments against the new limit. */
  method PutCreditLimit(db: MemoryDatabase, token: Token, id: int, creditLimit: Option<int>)
    returns (r: Response<PublicUser>)
    requires db.UsersValid()
    modifies db`users
    ensures db.UsersValid()
    ensures old(CheckCreditLimit(db, token, id)).Err?
            ==> r == Err(old(CheckCreditLimit(db, token, id)).error) && unchanged(db)
    ensures r.Ok? <==> old(CheckCreditLimit(db, token, id)).Ok?
    ensures r.Ok? ==>
              var k := IndexOf(old(db.users), UserKey, id);
              && 0 <= k && db.users == old(db.users)[k := old(db.users)[k].(creditLimit := creditLimit)]
              && r.value == Public(db.users[k])
    ensures r.Ok? ==> (db.IsExceedingCreditLimit(id)
                       <==> PendingTotal(db.payments, id) > creditLimit.GetOr(0))
  {
    var c := CheckCreditLimit(db, token, id);
    if c.Err? {
      return Err(c.error);
    }
    ghost var k := IndexOf(db.users, UserKey, id);
    var updated := db.UpdateUser(id, UserPatch(None, None, None, None, None, Some(creditLimit)));
    r := Ok(updated.value);
    assert db.users[k].id == id && db.users[k].role == "pharmacy";
    forall i | 0 <= i < |db.users| && db.users[i].id == id ensures i == k {
      NumberedUnique(db.users, UserKey, db.nextUserId, i, k);
    }
  }
}
