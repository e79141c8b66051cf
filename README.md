# Course marketplace backend: a Dafny model of its decision logic

The system is an Express/MongoDB backend for selling courses. Administrators
sign up, log in and manage the courses they created. Users sign up, log in,
buy courses and list what they bought. This project models the sequential
decision logic of its handlers and of its two session gates. It also proves
what each handler promises about the stores.

- **Stores** (`Store.dfy`). The collections are fields of one `Database`
  class: users, admins, courses (a map from id to course), the purchase
  ledger (a sequence of grants in insertion order), and an ObjectId counter.
  `Database.Valid()` holds the invariants that every mutating handler
  preserves: user emails are unique, admin emails are unique, no
  (userId, courseId) pair is granted twice, and every stored id (course,
  grant, user, admin) is below the ObjectId counter, so each new document
  gets an id no stored document has. The mongoose queries the
  handlers issue (`findOne`, `find`) are functions over these collections.
- **Foreign libraries** (`Crypto.dfy`). jsonwebtoken and bcrypt are function
  parameters. The Cloudinary upload outcome and the clock are parameters
  too, and so is zod's email pattern. Properties that need the libraries to
  behave say so through `Ideal(sign, verify)` or `Sound(hash, compare)`.
  `Ideal` means a token verifies only under the secret that signed it and
  is never empty or spaced. `Sound` means a password matches its own hash.
- **Session gates** (`AdminMid.dfy`, `UserMid.dfy`). Each gate is a pure
  decision (`AdminGate`, `UserGate`) plus a method that applies the decision
  to the mutable `Request`. The method either answers 401 or sets
  `req.adminId` / `req.user` and calls `next`, never both. The admin gate
  reads `Authorization: Bearer <token>` (section 2.1 of RFC 6750) and takes
  the second field of `split(' ')`. The user gate reads the `jwt` cookie.
- **Handlers** (`CourseController.dfy`, `UserController.dfy`,
  `AdminController.dfy`). Handlers that write to the store are methods with
  `modifies db`. Their postconditions list every outcome in the source's
  check order, and for each one give the response and the complete new
  state. Read-only handlers are functions, or, for `purchases` with its
  for-loop, a method that changes nothing.
- **Routes and sessions** (`Routes.dfy`, `Sessions.dfy`). These compose gates
  with handlers, as the route files do, and state what holds across
  requests:
  - A login issues a token that the gate accepts.
  - A token of one principal class is rejected by the other class's gate.
  - A signup is followed by a working login.
  - Two sequential purchases leave exactly one grant.

Quirks of the source that the model keeps as written:

- When an owner updates a course with its current values, the response is
  404: "no changes made" and "not found" share one answer.
- A user login with an unknown email reads `user.password` on null. The
  result is 500, not 401.
- User logout requires the `admin_jwt` cookie and then clears `user_jwt`.
  Login sets `jwt`, so after a user logs out the user gate still admits that
  user (`Sessions.UserSessionSurvivesLogout`).
- The user signup schema's password message asks for 8 characters, but the
  rule accepts 6 (`Validation.UserPasswordMessageOverstatesRule`).
- A successful user login returns the whole user document, hash included.
- `buyCourses` accepts `id` or `_id` from the token, but `purchases` accepts
  only `id`.
- `/user/buy/:courseId` mounts `buyCourses` with no gate, so that route
  always answers 401 (`Routes.UserRouterBuy`).
- `updateCourse` checks the image format before it checks ownership. A
  non-owner who sends a bad image therefore gets 400, while a missing course
  gets 404. When the image is absent or accepted, a non-owner also gets 404,
  but the message differs: "Course not found or no changes made" instead of
  "Course not found". The response body therefore reveals that the course
  exists.
- User signup checks again that every field is truthy after the schema has
  accepted the form. Only an empty email can still fail that check, and only
  if the email check accepts the empty string.

## Model

| member | source | states |
|---|---|---|
| `Records.Lookup` | backend/controllers/user.controller.js:90 | reading `req.cookies.<name>` yields a value exactly when the cookie is present, and that value is the stored one |
| `Sessions.SetOneCookie` | backend/controllers/user.controller.js:79 | one `res.cookie(name, value)` sets that cookie and leaves every other cookie as it was |
| `Text.Split` | backend/middleware/admin.mid.js:11 | `split` on a one-character separator yields at least one field, and no field contains the separator |
| `Text.JoinSplit` | backend/middleware/admin.mid.js:11 | joining the fields of a split with the separator gives back the original header |
| `Text.FirstFieldIsLongestPrefix` | backend/middleware/admin.mid.js:11 | the first field is the longest prefix of the string that contains no separator |
| `Text.SplitAfterWord` | backend/middleware/admin.mid.js:11 | a separator-free word followed by a separator is split off as the first field |
| `Text.SplitWithoutSeparator` | backend/middleware/admin.mid.js:11 | a string without the separator is one field |
| `Store.FindUser` | backend/controllers/user.controller.js:36 | `findOne({email})` returns a stored user with that email, and returns nothing exactly when no stored user has it |
| `Store.FindAdmin` | backend/controllers/admin.controller.js:20 | the same lookup for admins; nothing exactly when no admin has the email |
| `Store.FindPurchase` | backend/controllers/course.controller.js:182 | `findOne({userId, courseId})` returns a stored grant for that pair, and returns nothing exactly when there is none |
| `Store.PurchasesOf` | backend/controllers/user.controller.js:117 | `find({userId})` returns exactly the stored grants of that user, each as many times as it is stored, and no more grants than are stored |
| `Store.AtMostOneGrant` | backend/controllers/course.controller.js:182-188 | in a duplicate-free ledger a pair has at most one grant; `findOne` finds it exactly when there is one |
| `Store.AppendFreshPair` | backend/controllers/course.controller.js:182-188 | appending a grant for a pair that `findOne` did not find keeps the ledger duplicate-free |
| `Store.FindAppendedUser` | backend/controllers/user.controller.js:36-46 | after a user is appended under an email no one had, a lookup by that email finds that user |
| `Store.FindAppendedAdmin` | backend/controllers/admin.controller.js:20-36 | after an admin is appended under an email no one had, a lookup by that email finds that admin |
| `Store.Database.NewId` | backend/controllers/course.controller.js:187 | each new document gets an id that no stored course, grant, user or admin has |
| `Validation.JsLength` | backend/controllers/user.controller.js:17-20 | a string's length as zod's `.min(n)` measures it (UTF-16 code units): between the number of characters and twice that, zero only for the empty string, and equal to the number of characters exactly when no character lies outside the Basic Multilingual Plane |
| `Validation.AstralCharCountsTwice` | backend/controllers/user.controller.js:17-18 | a two-character name whose first character is astral reaches the 3-character minimum, whatever the second character is (an emoji followed by a letter, or two emoji) |
| `Validation.Issues` | backend/controllers/user.controller.js:16-27 | the schema's issue list is empty exactly when every field is present, the names have at least 3 UTF-16 code units, the email passes the email check and the password has at least 6 UTF-16 code units. There are at most four issues, each one "Required" or one of the schema's messages, and a short password always reports the password message. The admin schema at admin.controller.js:8-16 uses the same rules with different messages |
| `Validation.AcceptedFieldsArePresent` | backend/controllers/user.controller.js:31-33 | once the schema accepts a form, the names and the password are truthy. The email is truthy too whenever the email check rejects the empty string, so the later "All fields are required" check cannot fire then |
| `Validation.UserPasswordMessageOverstatesRule` | backend/controllers/user.controller.js:20 | no password of 6 or more characters gets a password issue, 6 and 7 included, although the message says 8 |
| `AdminMid.BearerToken` | backend/middleware/admin.mid.js:7-11 | there is no token exactly when the header is missing or does not start with "Bearer ". Otherwise the token is the longest space-free prefix of what follows "Bearer " |
| `AdminMid.AdminIdOf` | backend/middleware/admin.mid.js:15 | the admin id is the payload's `_id` when present, otherwise its `id` |
| `AdminMid.AdminGate` | backend/middleware/admin.mid.js:4-20 | the gate rejects with 401 exactly when there is no bearer token or the token fails verification under the admin secret. Otherwise it admits with the token's admin id |
| `AdminMid.AdminMiddleware` | backend/middleware/admin.mid.js:4-20 | the middleware either responds 401 and leaves `req.adminId` alone, or sets `req.adminId` to the gate's identity and calls `next` once |
| `AdminMid.DoubleSpaceGivesEmptyToken` | backend/middleware/admin.mid.js:11 | the header "Bearer  x" yields the empty token |
| `AdminMid.BearerRoundTrip` | backend/middleware/admin.mid.js:7-11 | a space-free token sent as "Bearer <token>" reaches verify unchanged |
| `AdminMid.AdminGateUsesOnlyAdminSecret` | backend/middleware/admin.mid.js:14 | two verifiers that agree under the admin secret give the same gate decision |
| `UserMid.UserGate` | backend/middleware/user.mid.js:4-20 | the gate rejects with 401 exactly when the `jwt` cookie is missing or empty, or fails verification under the user secret. Otherwise it admits with the whole decoded payload |
| `UserMid.UserMiddleware` | backend/middleware/user.mid.js:4-20 | the middleware either responds 401 and leaves `req.user` alone, or sets `req.user` to the payload and calls `next` once |
| `UserMid.UserGateUsesOnlyUserSecret` | backend/middleware/user.mid.js:14 | two verifiers that agree under the user secret give the same gate decision |
| `CourseController.CreateCourse` | backend/controllers/course.controller.js:5-58 | the checks run in the order body, fields, image, format (PNG/JPEG), upload, and each failure leaves the store unchanged. A 201 happens exactly when all pass: one course is stored under a fresh id with `creatorId` equal to the admin id, and nothing else changes |
| `CourseController.Revised` | backend/controllers/course.controller.js:72-106 | the written document keeps the creator, and keeps the existing image unless a new one was uploaded |
| `CourseController.UpdateCourse` | backend/controllers/course.controller.js:62-120 | a missing course gets 404 before any image work. A bad format gets 400 and a failed upload gets 500. The course is written only when the requester is its creator and the document changes; otherwise the answer is 404 and the store is unchanged. Any change implies a 200 for the owner |
| `CourseController.DeleteCourse` | backend/controllers/course.controller.js:122-142 | the course is removed only when its id and creator both match. Any other case (missing or not owned) gets the same 404 with the store unchanged |
| `CourseController.CourseDetails` | backend/controllers/course.controller.js:154-166 | the answer is 200 with the course exactly when the id is stored, and 404 otherwise |
| `CourseController.BuyerId` | backend/controllers/course.controller.js:169 | the buyer is the payload's `id`, falling back to `_id`, and is absent exactly when neither is present |
| `CourseController.BuyCourses` | backend/controllers/course.controller.js:168-195 | the checks run in the order 401 no user, 404 no course, 400 already purchased, and each failure leaves the store unchanged. Success appends exactly one grant `(userId, courseId)` and nothing else changes. The ledger stays duplicate-free, and after a 200 or 400 the user holds exactly one grant for the course |
| `UserController.Signup` | backend/controllers/user.controller.js:13-55 | a rejected form gets 400 with the issue list. An accepted form whose email is still falsy gets 400 "All fields (firstName, lastName, email, password) are required". A registered email gets 400 "User already exists". All three leave the store unchanged. Otherwise one user holding `hash(password)` is appended, and the response omits the password |
| `UserController.Login` | backend/controllers/user.controller.js:57-86 | an unknown email gets 500 and a wrong password gets 401, both without a cookie. The answer is 201 exactly when the stored hash matches; it sets cookie `jwt` to a token of `{id}` signed with the user secret for one day |
| `UserController.Logout` | backend/controllers/user.controller.js:88-109 | the answer is 200 exactly when an `admin_jwt` cookie is present, and it then clears `user_jwt`. Otherwise it is 400 "Not logged in" |
| `UserController.LogoutKeepsLoginCookie` | backend/controllers/user.controller.js:88-100 | logout never changes the `jwt` cookie that login sets |
| `UserController.CollectCourseIds` | backend/controllers/user.controller.js:119-122 | the loop yields the grants' course ids, in the same order and of the same length |
| `UserController.Purchases` | backend/controllers/user.controller.js:111-132 | a payload without `id` gets 401. Otherwise `purchased` is exactly the user's grants, and `courseData` holds exactly the stored courses that those grants name, with their stored values. Nothing is written |
| `AdminController.Signup` | backend/controllers/admin.controller.js:7-67 | a rejected form gets 400 with the issue list and a registered email gets 400, both with the store unchanged. Otherwise one admin holding `hash(password)` is appended, and the response carries id, names, email and timestamps only |
| `AdminController.Login` | backend/controllers/admin.controller.js:69-131 | an unknown email and a wrong password get the identical 401 "Invalid credentials". The answer is 200 exactly when the hash matches; it sets cookie `admin_jwt` to a token of `{id, role:'admin'}` signed with the admin secret for one day, and the response has no password |
| `AdminController.Logout` | backend/controllers/admin.controller.js:133-154 | the answer is 200 exactly when an `admin_jwt` cookie is present, and it then clears that cookie. Otherwise it is 400 |
| `AdminController.LogoutRemovesAdminCookie` | backend/controllers/admin.controller.js:142 | after a successful admin logout the browser no longer holds `admin_jwt` |
| `Routes.CreateRoute` | backend/routes/course.route.js:8 | without a verified admin token the answer is the gate's 401 and nothing is stored. A created course's creator is the id carried by the token |
| `Routes.UpdateRoute` | backend/routes/course.route.js:11 | the course store changes only for a verified admin who is the course's creator |
| `Routes.DeleteRoute` | backend/routes/course.route.js:12 | a course is removed only by a verified admin who is its creator |
| `Routes.BuyRoute` | backend/routes/course.route.js:15 | a gate rejection is the gate's 401, and every answer other than 200 leaves the store unchanged. A 200 appends exactly one grant, for the user named by the verified `jwt` cookie, so grants are recorded only for that user |
| `Routes.UserRouterBuy` | backend/routes/user.route.js:13 | the ungated route always answers 401 and writes nothing |
| `Routes.PurchasesRoute` | backend/routes/user.route.js:14 | a 200 lists the grants of the user named by the verified cookie |
| `Sessions.UserLoginOpensUserGate` | backend/controllers/user.controller.js:67-81 | with an ideal JWT library, the cookie set by a successful user login passes the user gate as exactly `{id}` of that user, and a later purchase is made for that user |
| `Sessions.UserSessionSurvivesLogout` | backend/controllers/user.controller.js:79-97 | after a user login and then a logout, the user gate still admits that user |
| `Sessions.AdminLoginOpensAdminGate` | backend/controllers/admin.controller.js:92-122 | the token returned by a successful admin login, sent as a bearer header, passes the admin gate as that admin |
| `Sessions.UserTokenFailsAdminGate` | backend/middleware/admin.mid.js:14 | a token signed with the user secret is always rejected by the admin gate |
| `Sessions.AdminTokenFailsUserGate` | backend/middleware/user.mid.js:14 | a token signed with the admin secret is always rejected by the user gate |
| `Sessions.UserSignupThenLogin` | backend/controllers/user.controller.js:42-63 | a user stored by signup can log in with the password used at signup |
| `Sessions.AdminSignupThenLogin` | backend/controllers/admin.controller.js:26-89 | an admin stored by signup can log in with the password used at signup |
| `Sessions.BuyTwice` | backend/controllers/course.controller.js:182-190 | once a purchase succeeds or is found, a repeated identical purchase gets 400. Exactly one grant for the pair exists, and at most one grant is added |
| `Sessions.SignupTwice` | backend/controllers/user.controller.js:36-46 | a second signup with an email just registered gets "User already exists", and only one user is added |
| `Sessions.CreateThenDetails` | backend/controllers/course.controller.js:47-161 | the details for the id that creation used show a course exactly when creation answered 201, and then show the stored course; otherwise they answer 404 |
| `Sessions.UpdateThenDetails` | backend/controllers/course.controller.js:95-161 | after a 200 update by the course's creator, the details show the revised course. After any other answer they are what they were before |
| `Sessions.DeleteThenDetails` | backend/controllers/course.controller.js:126-161 | after a 200 delete, the course that was visible now answers 404. After any other answer the details are what they were before |
| `Sessions.CreateThenDelete` | backend/controllers/course.controller.js:36-133 | when a course's creator deletes it right after creating it, the catalog returns to its previous state |
| `Sessions.OwnerNoOpUpdate` | backend/controllers/course.controller.js:95-110 | when an owner resubmits a course's current values with no new image, the answer is 404 and nothing changes |

## Left out

- Store.FindUser: the contract says the result is a user with the email, not that it is the first one in insertion order. `Database.Valid` keeps emails unique, so at most one user can match.
- Store.FindAdmin: the same weakening as `FindUser`; admin emails are unique.
- Store.FindPurchase: the same weakening; the ledger has no duplicate pairs.
- Store.PurchasesOf: the contract gives each grant's multiplicity and a length bound. That the result keeps insertion order follows from the definition and is not stated separately.
- `getCourses` (course.controller.js:144-152) is not modelled. It is an unconditional read of the whole collection with no decision in it (it answers 201).
- Store failures and every other catch-all 500 path are not modelled. This covers a connection loss, a mongoose schema validator rejecting a document on save, and a malformed ObjectId in a URL (a CastError). Ids in the model are always well formed.
- The `findOne`-then-`save` sequence in `buyCourses` is not atomic, and the purchase collection has no unique index on the pair. The model is sequential, so it makes no claim about concurrent purchases.
- jsonwebtoken, bcrypt, zod's email pattern, Cloudinary and the clock are parameters. Token expiry, issued-at claims, bcrypt salting and upload side effects are not modelled. In particular, an image uploaded during an update that then answers 404 still exists on Cloudinary.
- `Number(price)` is not modelled: prices are kept as the submitted strings. The cookie options (`httpOnly`, `secure`, `sameSite`, the expiry date) are not modelled either.
- Body fields are either strings or missing. Other JSON types, such as a number where zod expects a string, are not modelled. Login's email and password are taken as present.
- `updateCourse` is modelled with Mongoose 5 semantics: the result has `nModified`, and a field missing from the update is written as null. Under Mongoose 6 and later, `nModified` is undefined and the 404 branch could never fire. The package manifest is not part of this model, so the version cannot be checked.
- `courseData` in `purchases` is modelled as a map from id to course. The order of the array that `Course.find` returns is not modelled.
- user.model.js and course.model.js are not part of this model. Whether users carry timestamps is unknown, so the user record is modelled without them. Whether `creatorId` is required is also unknown, so it is kept optional.
- backend/index.js (Express wiring, CORS, the database connection, server start), backend/config.js (the secrets are two distinct constants) and the React front end are I/O plumbing.
