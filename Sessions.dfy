/**
 * How the handlers fit together across requests: what login issues is what
 * the gates accept, the two principal classes never accept each other's
 * tokens, a signup is followed by a working login, and sequential purchases
 * of the same course leave one grant.
 */
module Sessions {
  import opened Records
  import opened Crypto
  import opened Http
  import opened Store
  import opened Validation
  import opened AdminMid
  import opened UserMid
  import opened CourseController
  import UserController
  import AdminController

  /** The cookie jar after one `res.cookie(name, value)`. */
  lemma SetOneCookie(jar: map<string, string>, name: string, value: string)
    ensures ApplyCookies(jar, [SetCookie(name, value)]) == jar[name := value]
  {
  }

  /**
   * A successful user login hands the browser a `jwt` cookie that the user
   * gate accepts as exactly `{ id }` of the user found, and `buyCourses`
   * then buys for that user.
   */
  lemma UserLoginOpensUserGate(users: seq<User>, email: string, password: string, compare: Comparer,
                               sign: Signer, verify: Verifier, jar: map<string, string>)
    requires Ideal(sign, verify)
    requires UserController.Login(users, email, password, compare, sign).status == CREATED
    ensures
      var user := FindUser(users, email).value;
      var jar' := ApplyCookies(jar, UserController.Login(users, email, password, compare, sign).cookies);
      && UserGate(jar', verify) == Admit(Claims(Some(user.id), None, None))
      && BuyerId(Some(Claims(Some(user.id), None, None))) == Some(user.id)
  {
    var user := FindUser(users, email).value;
    var token := UserController.UserToken(user, sign);
    SetOneCookie(jar, "jwt", token);
  }

  /**
   * User logout clears `user_jwt` while login set `jwt`: after a login and a
   * logout that answered 200 the user gate still accepts the browser.
   */
  lemma UserSessionSurvivesLogout(users: seq<User>, email: string, password: string, compare: Comparer,
                                  sign: Signer, verify: Verifier, jar: map<string, string>)
    requires Ideal(sign, verify)
    requires UserController.Login(users, email, password, compare, sign).status == CREATED
    ensures
      var loggedIn := ApplyCookies(jar, UserController.Login(users, email, password, compare, sign).cookies);
      var loggedOut := ApplyCookies(loggedIn, UserController.Logout(loggedIn).cookies);
      UserGate(loggedOut, verify) == Admit(Claims(Some(FindUser(users, email).value.id), None, None))
  {
    var loggedIn := ApplyCookies(jar, UserController.Login(users, email, password, compare, sign).cookies);
    var loggedOut := ApplyCookies(loggedIn, UserController.Logout(loggedIn).cookies);
    UserLoginOpensUserGate(users, email, password, compare, sign, verify, jar);
    UserController.LogoutKeepsLoginCookie(loggedIn);
    assert Lookup(loggedOut, SessionCookie) == Lookup(loggedIn, SessionCookie);
  }

  /**
   * A successful admin login returns a token that, sent as
   * "Authorization: Bearer <token>", passes the admin gate as that admin.
   */
  lemma AdminLoginOpensAdminGate(admins: seq<Admin>, email: string, password: string, compare: Comparer,
                                 sign: Signer, verify: Verifier)
    requires Ideal(sign, verify)
    requires AdminController.Login(admins, email, password, compare, sign).status == OK
    ensures
      var token := AdminController.Login(admins, email, password, compare, sign).body.token;
      AdminGate(Some(BearerPrefix + token), verify) == Admit(Some(FindAdmin(admins, email).value.id))
  {
    var admin := FindAdmin(admins, email).value;
    var token := AdminController.AdminToken(admin, sign);
    BearerRoundTrip(token);
  }

  /** A token signed with the user secret never passes the admin gate. */
  lemma UserTokenFailsAdminGate(claims: Claims, lifetime: nat, sign: Signer, verify: Verifier)
    requires Ideal(sign, verify)
    ensures AdminGate(Some(BearerPrefix + sign(claims, UserSecret, lifetime)), verify).Reject?
  {
    BearerRoundTrip(sign(claims, UserSecret, lifetime));
  }

  /** A token signed with the admin secret never passes the user gate. */
  lemma AdminTokenFailsUserGate(claims: Claims, lifetime: nat, sign: Signer, verify: Verifier,
                                jar: map<string, string>)
    requires Ideal(sign, verify)
    ensures UserGate(jar[SessionCookie := sign(claims, AdminSecret, lifetime)], verify).Reject?
  {
  }

  /**
   * A user stored by signup (the hash of the password, under an email not
   * registered before) can log in with that password.
   */
  lemma UserSignupThenLogin(users: seq<User>, user: User, password: string, hash: Hasher,
                            compare: Comparer, sign: Signer)
    requires Sound(hash, compare)
    requires FindUser(users, user.email).None?
    requires user.password == hash(password)
    ensures UserController.Login(users + [user], user.email, password, compare, sign).status == CREATED
    ensures FindUser(users + [user], user.email) == Some(user)
  {
    FindAppendedUser(users, user);
  }

  /** An admin stored by signup can log in with the password it signed up with. */
  lemma AdminSignupThenLogin(admins: seq<Admin>, admin: Admin, password: string, hash: Hasher,
                             compare: Comparer, sign: Signer)
    requires Sound(hash, compare)
    requires FindAdmin(admins, admin.email).None?
    requires admin.password == hash(password)
    ensures AdminController.Login(admins + [admin], admin.email, password, compare, sign).status == OK
    ensures FindAdmin(admins + [admin], admin.email) == Some(admin)
  {
    FindAppendedAdmin(admins, admin);
  }

  /**
   * Two sequential purchases of the same course by the same user: once the
   * first succeeds or finds the grant, the second reports it as already
   * purchased, and exactly one grant for the pair exists.
   */
  method BuyTwice(db: Database, user: Option<Claims>, courseId: Id) returns (first: Response, second: Response)
    requires db.Valid()
    modifies db
    ensures db.Valid()
    ensures first.status == OK || first.status == BAD_REQUEST ==>
      && second == Reply(BAD_REQUEST, Error("User has already purchased this course"))
      && BuyerId(user).Some?
      && CountPair(db.purchases, BuyerId(user).value, courseId) == 1
    ensures |db.purchases| <= |old(db.purchases)| + 1
  {
    first := BuyCourses(db, user, courseId);
    second := BuyCourses(db, user, courseId);
  }

  /** A second signup with a registered email is refused and stores nothing. */
  method SignupTwice(db: Database, form: SignupForm, other: SignupForm, isEmail: string -> bool, hash: Hasher)
    returns (first: Response, second: Response)
    requires db.Valid()
    requires Accepts(other, isEmail) && other.email == form.email
    modifies db
    ensures db.Valid()
    ensures first.status == CREATED ==>
      second == Reply(BAD_REQUEST, Error("User already exists")) && |db.users| == |old(db.users)| + 1
  {
    first := UserController.Signup(db, form, isEmail, hash);
    second := UserController.Signup(db, other, isEmail, hash);
  }

  /** Deleting a course right after its creator created it restores the catalog. */
  method CreateThenDelete(db: Database, adminId: Option<Id>, form: CourseForm, image: Upload, upload: Image)
    returns (created: Response, deleted: Response)
    requires db.Valid()
    modifies db
    ensures db.Valid()
    ensures created.status == CREATED ==> deleted.status == OK && db.courses == old(db.courses)
  {
    created := CreateCourse(db, adminId, Some(form), Some(image), Some(upload));
    if created.status == CREATED {
      deleted := DeleteCourse(db, adminId, created.body.courseId);
    } else {
      deleted := Reply(NOT_FOUND, Error("Course not found"));
    }
  }

  /**
   * Looking a course up right after creating it: the id `createCourse`
   * answered with shows exactly the stored course, and when creation failed
   * the id it would have used shows nothing.
   */
  method CreateThenDetails(db: Database, adminId: Option<Id>, body: Option<CourseForm>,
                           image: Option<Upload>, upload: Option<Image>)
    returns (created: Response, details: Response)
    requires db.Valid()
    modifies db
    ensures db.Valid()
    ensures details.status == OK <==> created.status == CREATED
    ensures created.status == CREATED ==>
      created.body.CourseBody? && details == Reply(OK, created.body)
    ensures created.status != CREATED ==> details == Reply(NOT_FOUND, Error("Course not found"))
  {
    var id := db.nextId;
    created := CreateCourse(db, adminId, body, image, upload);
    details := CourseDetails(db.courses, id);
  }

  /** After a successful update, the details show the revised course. */
  method UpdateThenDetails(db: Database, adminId: Option<Id>, courseId: Id, form: CourseForm,
                           image: Option<Upload>, upload: Option<Image>)
    returns (updated: Response, details: Response)
    requires db.Valid()
    modifies db
    ensures db.Valid()
    ensures updated.status == OK ==>
      && courseId in old(db.courses)
      && old(db.courses[courseId]).creatorId == adminId
      && details == Reply(OK, CourseBody(courseId,
           Revised(old(db.courses[courseId]), form, if image.Some? then upload else None)))
    ensures updated.status != OK ==> details == CourseDetails(old(db.courses), courseId)
  {
    updated := UpdateCourse(db, adminId, courseId, form, image, upload);
    details := CourseDetails(db.courses, courseId);
  }

  /** After a successful delete the course is gone from the details; otherwise nothing changed. */
  method DeleteThenDetails(db: Database, adminId: Option<Id>, courseId: Id)
    returns (deleted: Response, details: Response)
    requires db.Valid()
    modifies db
    ensures db.Valid()
    ensures deleted.status == OK ==>
      old(CourseDetails(db.courses, courseId)).status == OK
      && details == Reply(NOT_FOUND, Error("Course not found"))
    ensures deleted.status != OK ==> details == CourseDetails(old(db.courses), courseId)
  {
    deleted := DeleteCourse(db, adminId, courseId);
    details := CourseDetails(db.courses, courseId);
  }

  /** An owner resubmitting a course's current values, with no new image, is told 404. */
  method OwnerNoOpUpdate(db: Database, courseId: Id) returns (res: Response)
    requires db.Valid()
    requires courseId in db.courses
    modifies db
    ensures res == Reply(NOT_FOUND, Error("Course not found or no changes made")) && unchanged(db)
  {
    var current := db.courses[courseId];
    res := UpdateCourse(db, current.creatorId, courseId,
                        CourseForm(current.title, current.description, current.price), None, None);
  }
}
