/**
 * The Express request/response surface the handlers touch: status codes,
 * JSON bodies, cookie operations and the mutable request object that the
 * session gates annotate.
 */
module Http {
  import opened Records
  import opened Crypto

  const OK: nat := 200
  const CREATED: nat := 201
  const BAD_REQUEST: nat := 400
  const UNAUTHORIZED: nat := 401
  const NOT_FOUND: nat := 404
  const SERVER_ERROR: nat := 500

  /** `res.cookie(name, value, options)` and `res.clearCookie(name)`. */
  datatype CookieOp = SetCookie(name: string, value: string) | ClearCookie(name: string)

  /** A user as returned by signup: the document without its password. */
  datatype UserView = UserView(id: Id, firstName: string, lastName: string, email: string)

  /** An admin as returned by signup. */
  datatype AdminProfile = AdminProfile(
    id: Id, firstName: string, lastName: string, email: string, createdAt: nat, updatedAt: nat)

  /** An admin as returned by login. */
  datatype AdminSummary = AdminSummary(id: Id, firstName: string, lastName: string, email: string)

  /** The JSON bodies the handlers send. */
  datatype Body =
    | Error(error: string)
    | Errors(errors: seq<string>)
    | Message(message: string)
    | CourseBody(courseId: Id, course: Course)
    | Updated(modified: nat)
    | PurchaseBody(purchase: Purchase)
    | PurchasesBody(purchased: seq<Purchase>, courseData: map<Id, Course>)
    | UserCreated(user: UserView)
    | UserLoggedIn(account: User, token: string)
    | AdminCreated(admin: AdminProfile)
    | AdminLoggedIn(summary: AdminSummary, token: string)

  /** One response: status, JSON body, and the cookie operations applied before sending. */
  datatype Response = Response(status: nat, body: Body, cookies: seq<CookieOp>)

  /** `res.status(status).json(body)` with no cookie operation. */
  function Reply(status: nat, body: Body): Response
  {
    Response(status, body, [])
  }

  /** What a browser's cookie jar holds after it receives the cookie operations of a response. */
  function ApplyCookies(jar: map<string, string>, ops: seq<CookieOp>): map<string, string>
    decreases |ops|
  {
    if ops == [] then jar
    else
      var next := match ops[0]
        case SetCookie(name, value) => jar[name := value]
        case ClearCookie(name) => jar - {name};
      ApplyCookies(next, ops[1..])
  }

  /** `req.files.image`: an uploaded file and the type the client declared for it. */
  datatype Upload = Upload(mimetype: string)

  /** The outcome of a session gate: reject with a response, or let the request through carrying an identity. */
  datatype Gate<T> = Reject(res: Response) | Admit(identity: T)

  /** What a middleware does with a request: answer it, or call `next()`. */
  datatype Outcome = Responded(res: Response) | Next

  /**
   * An Express request. The transport fields are fixed; `adminId` and `user`
   * start undefined and are set by the admin and user gates.
   */
  class Request {
    const authorization: Option<string>
    const cookies: map<string, string>
    var adminId: Option<Id>
    var user: Option<Claims>

    constructor (authorization: Option<string>, cookies: map<string, string>)
      ensures this.authorization == authorization && this.cookies == cookies
      ensures adminId.None? && user.None?
    {
      this.authorization := authorization;
      this.cookies := cookies;
      adminId := None;
      user := None;
    }
  }
}
