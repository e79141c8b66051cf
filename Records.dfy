/**
 * The persisted records of the course marketplace (the mongoose models) and
 * the little JavaScript value semantics the handlers rely on.
 */
module Records {

  datatype Option<T> = None | Some(value: T)

  /** A MongoDB ObjectId. Ids are opaque; the store hands out fresh ones. */
  type Id = nat

  /** A user document. `password` holds the bcrypt hash, never the plain text. */
  datatype User = User(id: Id, firstName: string, lastName: string, email: string, password: string)

  /** An admin document; mongoose adds the two timestamps (`timestamps: true`). */
  datatype Admin = Admin(
    id: Id, firstName: string, lastName: string, email: string, password: string,
    createdAt: nat, updatedAt: nat)

  /** The Cloudinary reference stored with a course. */
  datatype Image = Image(publicId: string, url: string)

  /**
   * A course document. Text fields are `None` when the stored value is null
   * (an update that omits a field writes null). `creatorId` is whatever
   * `req.adminId` was when the course was created, possibly undefined.
   */
  datatype Course = Course(
    title: Option<string>, description: Option<string>, price: Option<string>,
    image: Image, creatorId: Option<Id>)

  /** A purchase grant: one user's entitlement to one course. */
  datatype Purchase = Purchase(id: Id, userId: Id, courseId: Id)

  /** JavaScript truthiness of an optional string: present and not empty. */
  predicate Present(v: Option<string>)
  {
    v.Some? && v.value != ""
  }

  /** A cookie or body field looked up in a map, undefined when absent. */
  function Lookup(m: map<string, string>, key: string): (r: Option<string>)
    ensures r.Some? <==> key in m
    ensures r.Some? ==> r.value == m[key]
  {
    if key in m then Some(m[key]) else None
  }
}
