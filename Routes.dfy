/**
 * The route tables that put a session gate in front of a handler. Each route
 * runs the gate; a rejection is the response, otherwise the handler runs
 * with the identity the gate attached to the request.
 */
module Routes {
  import opened Records
  import opened Crypto
  import opened Http
  import opened Store
  import opened AdminMid
  import opened UserMid
  import opened CourseController
  import UserController

  /**
   * POST /course/create: the admin gate, then `createCourse`. Without a
   * verified admin token nothing is stored; a created course's creator is
   * the admin id carried by the token.
   */
  method CreateRoute(db: Database, req: Request, verify: Verifier, body: Option<CourseForm>,
                     image: Option<Upload>, upload: Option<Image>) returns (res: Response)
    requires db.Valid()
    modifies db, req`adminId
    ensures db.Valid()
    ensures AdminGate(req.authorization, verify).Reject? ==>
      res == AdminGate(req.authorization, verify).res && unchanged(db)
    ensures res.status == CREATED ==>
      && AdminGate(req.authorization, verify).Admit?
      && old(db.nextId) in db.courses
      && db.courses[old(db.nextId)].creatorId == AdminGate(req.authorization, verify).identity
  {
    var out := AdminMiddleware(req, verify);
    if out.Responded? {
      return out.res;
    }
    res := CreateCourse(db, req.adminId, body, image, upload);
  }

  /**
   * PUT /course/update/:courseId: the admin gate, then `updateCourse`. Only
   * the admin recorded as creator can change a course.
   */
  method UpdateRoute(db: Database, req: Request, verify: Verifier, courseId: Id, form: CourseForm,
                     image: Option<Upload>, upload: Option<Image>) returns (res: Response)
    requires db.Valid()
    modifies db, req`adminId
    ensures db.Valid()
    ensures AdminGate(req.authorization, verify).Reject? ==>
      res == AdminGate(req.authorization, verify).res && unchanged(db)
    ensures db.courses != old(db.courses) ==>
      && AdminGate(req.authorization, verify).Admit?
      && OwnedBy(old(db.courses), courseId, AdminGate(req.authorization, verify).identity)
  {
    var out := AdminMiddleware(req, verify);
    if out.Responded? {
      return out.res;
    }
    res := UpdateCourse(db, req.adminId, courseId, form, image, upload);
  }

  /**
   * DELETE /course/delete/:courseId: the admin gate, then `deleteCourse`.
   * Only the admin recorded as creator can remove a course.
   */
  method DeleteRoute(db: Database, req: Request, verify: Verifier, courseId: Id) returns (res: Response)
    requires db.Valid()
    modifies db, req`adminId
    ensures db.Valid()
    ensures AdminGate(req.authorization, verify).Reject? ==>
      res == AdminGate(req.authorization, verify).res && unchanged(db)
    ensures db.courses != old(db.courses) ==>
      && AdminGate(req.authorization, verify).Admit?
      && OwnedBy(old(db.courses), courseId, AdminGate(req.authorization, verify).identity)
      && db.courses == old(db.courses) - {courseId}
  {
    var out := AdminMiddleware(req, verify);
    if out.Responded? {
      return out.res;
    }
    res := DeleteCourse(db, req.adminId, courseId);
  }

  /**
   * POST /course/buy/:courseId: the user gate, then `buyCourses`. A grant is
   * only ever recorded for the user named by a verified session cookie.
   */
  method BuyRoute(db: Database, req: Request, verify: Verifier, courseId: Id) returns (res: Response)
    requires db.Valid()
    modifies db, req`user
    ensures db.Valid()
    ensures UserGate(req.cookies, verify).Reject? ==>
      res == UserGate(req.cookies, verify).res && unchanged(db)
    ensures res.status != OK ==> unchanged(db)
    ensures res.status == OK ==>
      && UserGate(req.cookies, verify).Admit?
      && BuyerId(Some(UserGate(req.cookies, verify).identity)).Some?
      && db.purchases == old(db.purchases)
           + [Purchase(old(db.nextId), BuyerId(Some(UserGate(req.cookies, verify).identity)).value, courseId)]
  {
    var out := UserMiddleware(req, verify);
    if out.Responded? {
      return out.res;
    }
    res := BuyCourses(db, req.user, courseId);
  }

  /**
   * POST /user/buy/:courseId mounts `buyCourses` with no gate, so a request
   * arriving there has no user and always gets 401.
   */
  method UserRouterBuy(db: Database, req: Request, courseId: Id) returns (res: Response)
    requires db.Valid()
    requires req.user.None?
    modifies db
    ensures db.Valid()
    ensures res == Reply(UNAUTHORIZED, Error("User ID is missing. Please authenticate.")) && unchanged(db)
  {
    res := BuyCourses(db, req.user, courseId);
  }

  /** GET /user/purchases: the user gate, then `purchases`. */
  method PurchasesRoute(db: Database, req: Request, verify: Verifier) returns (res: Response)
    modifies req`user
    ensures UserGate(req.cookies, verify).Reject? ==> res == UserGate(req.cookies, verify).res
    ensures res.status == OK ==>
      && UserGate(req.cookies, verify).Admit?
      && UserGate(req.cookies, verify).identity.id.Some?
      && res.body.PurchasesBody?
      && res.body.purchased == PurchasesOf(db.purchases, UserGate(req.cookies, verify).identity.id.value)
  {
    var out := UserMiddleware(req, verify);
    if out.Responded? {
      return out.res;
    }
    res := UserController.Purchases(db.purchases, db.courses, req.user);
  }
}
