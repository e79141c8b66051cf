/**
 * The course handlers: creation with an image upload, owner-guarded update
 * and delete, detail lookup, and the purchase ledger's `buyCourses`.
 * Cloudinary's upload is not modelled: its outcome is a parameter, None
 * when the upload fails.
 */
module CourseController {
  import opened Records
  import opened Crypto
  import opened Http
  import opened Store

  const AllowedFormats: seq<string> := ["image/png", "image/jpeg"]

  /** `title`, `description` and `price` of the request body. */
  datatype CourseForm = CourseForm(title: Option<string>, description: Option<string>, price: Option<string>)

  predicate Complete(form: CourseForm)
  {
    Present(form.title) && Present(form.description) && Present(form.price)
  }

  /** The image check shared by create and update: PNG or JPEG only. */
  predicate AcceptedFormat(image: Upload)
  {
    image.mimetype in AllowedFormats
  }

  /**
   * `createCourse`: the checks run in the order body, fields, image, format,
   * upload; only when all pass is one course stored, under a fresh id and
   * stamped with the requesting admin as creator.
   */
  method CreateCourse(db: Database, adminId: Option<Id>, body: Option<CourseForm>,
                      image: Option<Upload>, upload: Option<Image>) returns (res: Response)
    requires db.Valid()
    modifies db
    ensures db.Valid()
    ensures body.None? ==> res == Reply(BAD_REQUEST, Error("Request body is missing"))
    ensures body.Some? && !Complete(body.value) ==>
      res == Reply(BAD_REQUEST, Error("All fields (title, description, price) are required"))
    ensures body.Some? && Complete(body.value) && image.None? ==>
      res == Reply(BAD_REQUEST, Error("No image file uploaded"))
    ensures body.Some? && Complete(body.value) && image.Some? && !AcceptedFormat(image.value) ==>
      res == Reply(BAD_REQUEST, Error("Invalid file format. Only PNG and JPG are allowed"))
    ensures body.Some? && Complete(body.value) && image.Some? && AcceptedFormat(image.value) && upload.None? ==>
      res == Reply(SERVER_ERROR, Error("Error uploading file to Cloudinary"))
    ensures res.status != CREATED ==> unchanged(db)
    ensures res.status == CREATED <==>
      body.Some? && Complete(body.value) && image.Some? && AcceptedFormat(image.value) && upload.Some?
    ensures res.status == CREATED ==>
      var id := old(db.nextId);
      var course := Course(body.value.title, body.value.description, body.value.price, upload.value, adminId);
      && id !in old(db.courses)
      && db.courses == old(db.courses)[id := course]
      && course.creatorId == adminId
      && res == Reply(CREATED, CourseBody(id, course))
      && db.nextId == old(db.nextId) + 1
      && unchanged(db`users, db`admins, db`purchases)
  {
    if body.None? {
      return Reply(BAD_REQUEST, Error("Request body is missing"));
    }
    var form := body.value;
    if !Present(form.title) || !Present(form.description) || !Present(form.price) {
      return Reply(BAD_REQUEST, Error("All fields (title, description, price) are required"));
    }
    if image.None? {
      return Reply(BAD_REQUEST, Error("No image file uploaded"));
    }
    if !AcceptedFormat(image.value) {
      return Reply(BAD_REQUEST, Error("Invalid file format. Only PNG and JPG are allowed"));
    }
    if upload.None? {
      return Reply(SERVER_ERROR, Error("Error uploading file to Cloudinary"));
    }
    var course := Course(form.title, form.description, form.price, upload.value, adminId);
    var id := db.NewId();
    db.courses := db.courses[id := course];
    res := Reply(CREATED, CourseBody(id, course));
  }

  /**
   * The document `updateCourse` asks `updateOne` to write: the submitted
   * fields (a missing one is written as null), the new image or else the
   * existing one, and the unchanged creator.
   */
  function Revised(existing: Course, form: CourseForm, newImage: Option<Image>): (c: Course)
    ensures c.creatorId == existing.creatorId
    ensures newImage.None? ==> c.image == existing.image
    ensures newImage.Some? ==> c.image == newImage.value
  {
    Course(form.title, form.description, form.price,
           if newImage.Some? then newImage.value else existing.image, existing.creatorId)
  }

  /** The `updateOne` filter: the id matches and the requester is the recorded creator. */
  predicate OwnedBy(courses: map<Id, Course>, courseId: Id, adminId: Option<Id>)
  {
    courseId in courses && courses[courseId].creatorId == adminId
  }

  /**
   * `updateCourse`: 404 for a missing course before any image work; then the
   * optional image is checked and uploaded; then the write happens only if
   * the requester owns the course and the document actually changes, and
   * every other case (non-owner, identical resubmission) is a 404.
   */
  method UpdateCourse(db: Database, adminId: Option<Id>, courseId: Id, form: CourseForm,
                      image: Option<Upload>, upload: Option<Image>) returns (res: Response)
    requires db.Valid()
    modifies db
    ensures db.Valid()
    ensures unchanged(db`users, db`admins, db`purchases, db`nextId)
    ensures courseId !in old(db.courses) ==>
      res == Reply(NOT_FOUND, Error("Course not found")) && unchanged(db)
    ensures courseId in old(db.courses) && image.Some? && !AcceptedFormat(image.value) ==>
      res == Reply(BAD_REQUEST, Error("Invalid file format. Only PNG and JPG are allowed")) && unchanged(db)
    ensures courseId in old(db.courses) && image.Some? && AcceptedFormat(image.value) && upload.None? ==>
      res == Reply(SERVER_ERROR, Error("Error uploading file to Cloudinary")) && unchanged(db)
    ensures courseId in old(db.courses) && (image.None? || (AcceptedFormat(image.value) && upload.Some?)) ==>
      var existing := old(db.courses[courseId]);
      var revised := Revised(existing, form, if image.Some? then upload else None);
      if OwnedBy(old(db.courses), courseId, adminId) && revised != existing then
        res == Reply(OK, Updated(1)) && db.courses == old(db.courses)[courseId := revised]
      else
        res == Reply(NOT_FOUND, Error("Course not found or no changes made")) && unchanged(db)
    ensures db.courses != old(db.courses) ==> res.status == OK
    ensures res.status == OK ==> OwnedBy(old(db.courses), courseId, adminId)
  {
    if courseId !in db.courses {
      return Reply(NOT_FOUND, Error("Course not found"));
    }
    var existing := db.courses[courseId];
    var imageData := existing.image;
    if image.Some? {
      if !AcceptedFormat(image.value) {
        return Reply(BAD_REQUEST, Error("Invalid file format. Only PNG and JPG are allowed"));
      }
      if upload.None? {
        return Reply(SERVER_ERROR, Error("Error uploading file to Cloudinary"));
      }
      imageData := upload.value;
    }
    var revised := Course(form.title, form.description, form.price, imageData, existing.creatorId);
    var modified := 0;
    if existing.creatorId == adminId && revised != existing {
      db.courses := db.courses[courseId := revised];
      modified := 1;
    }
    if modified == 0 {
      return Reply(NOT_FOUND, Error("Course not found or no changes made"));
    }
    res := Reply(OK, Updated(modified));
  }

  /**
   * `deleteCourse`: removes the course only when both its id and its creator
   * match; a missing course and someone else's course both get the same 404
   * and leave the store as it was.
   */
  method DeleteCourse(db: Database, adminId: Option<Id>, courseId: Id) returns (res: Response)
    requires db.Valid()
    modifies db
    ensures db.Valid()
    ensures OwnedBy(old(db.courses), courseId, adminId) ==>
      && res == Reply(OK, Message("Course deleted successfully"))
      && db.courses == old(db.courses) - {courseId}
      && unchanged(db`users, db`admins, db`purchases, db`nextId)
    ensures !OwnedBy(old(db.courses), courseId, adminId) ==>
      res == Reply(NOT_FOUND, Error("Course not found")) && unchanged(db)
  {
    var deletedCount := 0;
    if courseId in db.courses && db.courses[courseId].creatorId == adminId {
      db.courses := db.courses - {courseId};
      deletedCount := 1;
    }
    if deletedCount == 0 {
      return Reply(NOT_FOUND, Error("Course not found"));
    }
    res := Reply(OK, Message("Course deleted successfully"));
  }

  /** `courseDetails`: the course under that id, or 404. */
  function CourseDetails(courses: map<Id, Course>, courseId: Id): (r: Response)
    ensures r.status == OK <==> courseId in courses
    ensures r.status == OK ==> r.body == CourseBody(courseId, courses[courseId])
    ensures r.status != OK ==> r == Reply(NOT_FOUND, Error("Course not found"))
  {
    if courseId !in courses then Reply(NOT_FOUND, Error("Course not found"))
    else Reply(OK, CourseBody(courseId, courses[courseId]))
  }

  /** `req.user?.id || req.user?._id`. */
  function BuyerId(user: Option<Claims>): (r: Option<Id>)
    ensures r.Some? ==> user.Some? && (r == user.value.id || (user.value.id.None? && r == user.value.objectId))
    ensures r.None? <==> user.None? || (user.value.id.None? && user.value.objectId.None?)
  {
    if user.None? then None
    else if user.value.id.Some? then user.value.id
    else user.value.objectId
  }

  /**
   * `buyCourses`: the checks run in the order authenticated, course exists,
   * not yet purchased; each failure leaves the store unchanged, and success
   * appends exactly one grant for the pair. Afterwards a buyer answered 200
   * or 400 holds exactly one grant for the course.
   */
  method BuyCourses(db: Database, user: Option<Claims>, courseId: Id) returns (res: Response)
    requires db.Valid()
    modifies db
    ensures db.Valid()
    ensures BuyerId(user).None? ==>
      res == Reply(UNAUTHORIZED, Error("User ID is missing. Please authenticate.")) && unchanged(db)
    ensures BuyerId(user).Some? && courseId !in old(db.courses) ==>
      res == Reply(NOT_FOUND, Error("Course not found")) && unchanged(db)
    ensures BuyerId(user).Some? && courseId in old(db.courses)
            && FindPurchase(old(db.purchases), BuyerId(user).value, courseId).Some? ==>
      res == Reply(BAD_REQUEST, Error("User has already purchased this course")) && unchanged(db)
    ensures BuyerId(user).Some? && courseId in old(db.courses)
            && FindPurchase(old(db.purchases), BuyerId(user).value, courseId).None? ==>
      var grant := Purchase(old(db.nextId), BuyerId(user).value, courseId);
      && res == Reply(OK, PurchaseBody(grant))
      && db.purchases == old(db.purchases) + [grant]
      && db.nextId == old(db.nextId) + 1
      && unchanged(db`users, db`admins, db`courses)
    ensures res.status == OK || res.status == BAD_REQUEST ==>
      CountPair(db.purchases, BuyerId(user).value, courseId) == 1
  {
    var userId := BuyerId(user);
    if userId.None? {
      return Reply(UNAUTHORIZED, Error("User ID is missing. Please authenticate."));
    }
    if courseId !in db.courses {
      return Reply(NOT_FOUND, Error("Course not found"));
    }
    var existing := FindPurchase(db.purchases, userId.value, courseId);
    if existing.Some? {
      AtMostOneGrant(db.purchases, userId.value, courseId);
      return Reply(BAD_REQUEST, Error("User has already purchased this course"));
    }
    var id := db.NewId();
    var grant := Purchase(id, userId.value, courseId);
    AppendFreshPair(db.purchases, grant);
    db.purchases := db.purchases + [grant];
    AtMostOneGrant(db.purchases, userId.value, courseId);
    assert grant in db.purchases;
    res := Reply(OK, PurchaseBody(grant));
  }
}
