/**
 * The end-user handlers: signup, login (cookie `jwt`), logout, and the
 * listing of a user's purchases joined with their courses.
 */
module UserController {
  import opened Records
  import opened Crypto
  import opened Http
  import opened Store
  import opened Validation

  /** Signup's answer when a parsed field is still falsy. */
  const AllFieldsRequired := "All fields (firstName, lastName, email, password) are required"

  /** Node's message for `user.password` when `findOne` returned null. */
  const NullUserMessage := "Error logging in: Cannot read properties of null (reading 'password')"

  /**
   * `signup`: a form the schema rejects gets 400 with every issue and no
   * user; an accepted form with a falsy field (only an empty email the
   * email check let through can be one) gets 400 and no user; an email
   * already registered gets 400 and no user; otherwise one user is appended
   * holding the hash of the password, and the response carries the user
   * without the password.
   */
  method Signup(db: Database, form: SignupForm, isEmail: string -> bool, hash: Hasher)
    returns (res: Response)
    requires db.Valid()
    modifies db
    ensures db.Valid()
    ensures !Accepts(form, isEmail) ==>
      res == Reply(BAD_REQUEST, Errors(Issues(form, UserMessages, isEmail))) && unchanged(db)
    ensures Accepts(form, isEmail) && !Present(form.email) ==>
      res == Reply(BAD_REQUEST, Error(AllFieldsRequired)) && unchanged(db)
    ensures Accepts(form, isEmail) && Present(form.email) && FindUser(old(db.users), form.email.value).Some? ==>
      res == Reply(BAD_REQUEST, Error("User already exists")) && unchanged(db)
    ensures Accepts(form, isEmail) && Present(form.email) && FindUser(old(db.users), form.email.value).None? ==>
      var user := User(old(db.nextId), form.firstName.value, form.lastName.value,
                       form.email.value, hash(form.password.value));
      && db.users == old(db.users) + [user]
      && res == Reply(CREATED, UserCreated(UserView(user.id, user.firstName, user.lastName, user.email)))
      && db.nextId == old(db.nextId) + 1
      && unchanged(db`admins, db`courses, db`purchases)
  {
    var issues := Issues(form, UserMessages, isEmail);
    if issues != [] {
      return Reply(BAD_REQUEST, Errors(issues));
    }
    if !Present(form.firstName) || !Present(form.lastName) || !Present(form.email) || !Present(form.password) {
      return Reply(BAD_REQUEST, Error(AllFieldsRequired));
    }
    var email := form.email.value;
    var existing := FindUser(db.users, email);
    if existing.Some? {
      return Reply(BAD_REQUEST, Error("User already exists"));
    }
    var hashed := hash(form.password.value);
    var id := db.NewId();
    var user := User(id, form.firstName.value, form.lastName.value, email, hashed);
    db.users := db.users + [user];
    res := Reply(CREATED, UserCreated(UserView(id, user.firstName, user.lastName, email)));
  }

  /** The session token login issues: payload `{ id }` only, user secret, one day. */
  function UserToken(user: User, sign: Signer): string
  {
    sign(Claims(Some(user.id), None, None), UserSecret, OneDay)
  }

  /**
   * `login`: an unknown email dereferences null before the check and ends in
   * 500; a known email with a wrong password gets 401; success answers 201,
   * sets cookie `jwt` to the user token and returns the whole user document
   * with the token.
   */
  function Login(users: seq<User>, email: string, password: string, compare: Comparer, sign: Signer)
    : (r: Response)
    ensures FindUser(users, email).None? ==> r == Reply(SERVER_ERROR, Error(NullUserMessage))
    ensures r.status == UNAUTHORIZED <==>
      FindUser(users, email).Some? && !compare(password, FindUser(users, email).value.password)
    ensures r.status == CREATED <==>
      FindUser(users, email).Some? && compare(password, FindUser(users, email).value.password)
    ensures r.status != CREATED ==> r.cookies == []
    ensures r.status == CREATED ==>
      var user := FindUser(users, email).value;
      && user in users && user.email == email
      && r.cookies == [SetCookie("jwt", UserToken(user, sign))]
      && r.body == UserLoggedIn(user, UserToken(user, sign))
  {
    match FindUser(users, email)
    case None => Reply(SERVER_ERROR, Error(NullUserMessage))
    case Some(user) =>
      if !compare(password, user.password) then Reply(UNAUTHORIZED, Error("Invalid credentials"))
      else
        var token := UserToken(user, sign);
        Response(CREATED, UserLoggedIn(user, token), [SetCookie("jwt", token)])
  }

  /**
   * `logout`: requires the `admin_jwt` cookie to be present, and then clears
   * `user_jwt`, a cookie login never sets.
   */
  function Logout(cookies: map<string, string>): (r: Response)
    ensures r.status == OK <==> Present(Lookup(cookies, "admin_jwt"))
    ensures r.status == OK ==> r.cookies == [ClearCookie("user_jwt")]
    ensures r.status != OK ==> r == Reply(BAD_REQUEST, Error("Not logged in"))
  {
    if !Present(Lookup(cookies, "admin_jwt")) then Reply(BAD_REQUEST, Error("Not logged in"))
    else Response(OK, Message("Logged out successfully"), [ClearCookie("user_jwt")])
  }

  /** Logout never touches the `jwt` cookie that login sets. */
  lemma LogoutKeepsLoginCookie(jar: map<string, string>)
    ensures Lookup(ApplyCookies(jar, Logout(jar).cookies), "jwt") == Lookup(jar, "jwt")
  {
    var ops := Logout(jar).cookies;
    if ops != [] {
      assert ops == [ClearCookie("user_jwt")];
      assert ApplyCookies(jar, ops) == ApplyCookies(jar - {"user_jwt"}, []);
    }
  }

  /** The loop in `purchases`: the course ids of the grants, in the same order. */
  method CollectCourseIds(purchased: seq<Purchase>) returns (ids: seq<Id>)
    ensures |ids| == |purchased|
    ensures forall k :: 0 <= k < |ids| ==> ids[k] == purchased[k].courseId
  {
    ids := [];
    for i := 0 to |purchased|
      invariant |ids| == i
      invariant forall k :: 0 <= k < i ==> ids[k] == purchased[k].courseId
    {
      ids := ids + [purchased[i].courseId];
    }
  }

  /**
   * `purchases`: 401 unless the user payload has an `id`; otherwise the
   * user's grants in insertion order and the stored courses those grants
   * point to. It reads the store and changes nothing.
   */
  method Purchases(purchases: seq<Purchase>, courses: map<Id, Course>, user: Option<Claims>)
    returns (res: Response)
    ensures user.None? || user.value.id.None? ==>
      res == Reply(UNAUTHORIZED, Error("Authentication required: No user found"))
    ensures user.Some? && user.value.id.Some? ==>
      && res.status == OK && res.cookies == [] && res.body.PurchasesBody?
      && res.body.purchased == PurchasesOf(purchases, user.value.id.value)
      && (forall id :: id in res.body.courseData <==>
            id in courses && exists p :: p in res.body.purchased && p.courseId == id)
      && (forall id :: id in res.body.courseData ==> res.body.courseData[id] == courses[id])
  {
    if user.None? || user.value.id.None? {
      return Reply(UNAUTHORIZED, Error("Authentication required: No user found"));
    }
    var userId := user.value.id.value;
    var purchased := PurchasesOf(purchases, userId);
    var purchasedCourseId := CollectCourseIds(purchased);
    var courseData := map id | id in courses && id in purchasedCourseId :: courses[id];
    forall id | id in courses
      ensures id in courseData <==> exists p :: p in purchased && p.courseId == id
    {
      if id in purchasedCourseId {
        var k :| 0 <= k < |purchasedCourseId| && purchasedCourseId[k] == id;
        assert purchased[k] in purchased;
      }
    }
    res := Reply(OK, PurchasesBody(purchased, courseData));
  }
}
