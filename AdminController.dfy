/**
 * The administrator handlers: signup, login (cookie `admin_jwt`) and logout.
 * The clock that stamps `createdAt`/`updatedAt` is a parameter.
 */
module AdminController {
  import opened Records
  import opened Crypto
  import opened Http
  import opened Store
  import opened Validation

  /**
   * `signup`: a form the schema rejects gets 400 with every issue and no
   * admin; an email already registered gets 400 and no admin; otherwise one
   * admin is appended holding the hash of the password, and the response
   * carries id, names, email and timestamps, never the password.
   */
  method Signup(db: Database, form: SignupForm, isEmail: string -> bool, hash: Hasher, now: nat)
    returns (res: Response)
    requires db.Valid()
    modifies db
    ensures db.Valid()
    ensures !Accepts(form, isEmail) ==>
      res == Reply(BAD_REQUEST, Errors(Issues(form, AdminMessages, isEmail))) && unchanged(db)
    ensures Accepts(form, isEmail) && FindAdmin(old(db.admins), form.email.value).Some? ==>
      res == Reply(BAD_REQUEST, Error("Admin with this email already exists")) && unchanged(db)
    ensures Accepts(form, isEmail) && FindAdmin(old(db.admins), form.email.value).None? ==>
      var admin := Admin(old(db.nextId), form.firstName.value, form.lastName.value,
                         form.email.value, hash(form.password.value), now, now);
      && db.admins == old(db.admins) + [admin]
      && res == Reply(CREATED, AdminCreated(AdminProfile(
           admin.id, admin.firstName, admin.lastName, admin.email, admin.createdAt, admin.updatedAt)))
      && db.nextId == old(db.nextId) + 1
      && unchanged(db`users, db`courses, db`purchases)
  {
    var issues := Issues(form, AdminMessages, isEmail);
    if issues != [] {
      return Reply(BAD_REQUEST, Errors(issues));
    }
    var email := form.email.value;
    var existing := FindAdmin(db.admins, email);
    if existing.Some? {
      return Reply(BAD_REQUEST, Error("Admin with this email already exists"));
    }
    var hashed := hash(form.password.value);
    var id := db.NewId();
    var admin := Admin(id, form.firstName.value, form.lastName.value, email, hashed, now, now);
    db.admins := db.admins + [admin];
    res := Reply(CREATED, AdminCreated(AdminProfile(id, admin.firstName, admin.lastName, email, now, now)));
  }

  /** The session token login issues: payload `{ id, role: 'admin' }`, admin secret, one day. */
  function AdminToken(admin: Admin, sign: Signer): string
  {
    sign(Claims(Some(admin.id), None, Some("admin")), AdminSecret, OneDay)
  }

  /**
   * `login`: an unknown email and a wrong password get the same 401 response;
   * success answers 200, sets cookie `admin_jwt` to the admin token and
   * returns id, names and email with the token.
   */
  function Login(admins: seq<Admin>, email: string, password: string, compare: Comparer, sign: Signer)
    : (r: Response)
    ensures r.status == OK <==>
      FindAdmin(admins, email).Some? && compare(password, FindAdmin(admins, email).value.password)
    ensures r.status != OK ==> r == Reply(UNAUTHORIZED, Error("Invalid credentials"))
    ensures r.status == OK ==>
      var admin := FindAdmin(admins, email).value;
      && admin in admins && admin.email == email
      && r.cookies == [SetCookie("admin_jwt", AdminToken(admin, sign))]
      && r.body == AdminLoggedIn(
           AdminSummary(admin.id, admin.firstName, admin.lastName, admin.email), AdminToken(admin, sign))
  {
    match FindAdmin(admins, email)
    case None => Reply(UNAUTHORIZED, Error("Invalid credentials"))
    case Some(admin) =>
      if !compare(password, admin.password) then Reply(UNAUTHORIZED, Error("Invalid credentials"))
      else
        var token := AdminToken(admin, sign);
        Response(OK, AdminLoggedIn(AdminSummary(admin.id, admin.firstName, admin.lastName, admin.email), token),
                 [SetCookie("admin_jwt", token)])
  }

  /** `logout`: 400 without an `admin_jwt` cookie; otherwise that cookie is cleared. */
  function Logout(cookies: map<string, string>): (r: Response)
    ensures r.status == OK <==> Present(Lookup(cookies, "admin_jwt"))
    ensures r.status == OK ==> r.cookies == [ClearCookie("admin_jwt")]
    ensures r.status != OK ==> r == Reply(BAD_REQUEST, Error("Not logged in"))
  {
    if !Present(Lookup(cookies, "admin_jwt")) then Reply(BAD_REQUEST, Error("Not logged in"))
    else Response(OK, Message("Logged out successfully"), [ClearCookie("admin_jwt")])
  }

  /** After logout the browser no longer holds `admin_jwt`. */
  lemma LogoutRemovesAdminCookie(jar: map<string, string>)
    requires Logout(jar).status == OK
    ensures "admin_jwt" !in ApplyCookies(jar, Logout(jar).cookies)
  {
  }
}
