/**
 * The MongoDB collections as an in-memory store, and the mongoose queries
 * the handlers issue against them. Collections keep insertion order, so
 * `findOne` answers the first matching document.
 */
module Store {
  import opened Records

  /** `User.findOne({ email })`. */
  function FindUser(users: seq<User>, email: string): (r: Option<User>)
    ensures r.Some? ==> r.value in users && r.value.email == email
    ensures r.None? <==> forall u :: u in users ==> u.email != email
  {
    if users == [] then None
    else if users[0].email == email then Some(users[0])
    else FindUser(users[1..], email)
  }

  /** `Admin.findOne({ email })`. */
  function FindAdmin(admins: seq<Admin>, email: string): (r: Option<Admin>)
    ensures r.Some? ==> r.value in admins && r.value.email == email
    ensures r.None? <==> forall a :: a in admins ==> a.email != email
  {
    if admins == [] then None
    else if admins[0].email == email then Some(admins[0])
    else FindAdmin(admins[1..], email)
  }

  /** `Purchase.findOne({ userId, courseId })`. */
  function FindPurchase(purchases: seq<Purchase>, userId: Id, courseId: Id): (r: Option<Purchase>)
    ensures r.Some? ==> r.value in purchases && r.value.userId == userId && r.value.courseId == courseId
    ensures r.None? <==> forall p :: p in purchases ==> !(p.userId == userId && p.courseId == courseId)
  {
    if purchases == [] then None
    else if purchases[0].userId == userId && purchases[0].courseId == courseId then Some(purchases[0])
    else FindPurchase(purchases[1..], userId, courseId)
  }

  /** `Purchase.find({ userId })`: the user's grants, in insertion order. */
  function PurchasesOf(purchases: seq<Purchase>, userId: Id): (r: seq<Purchase>)
    ensures |r| <= |purchases|
    ensures forall p :: p in r <==> p in purchases && p.userId == userId
    ensures forall p :: multiset(r)[p] == if p.userId == userId then multiset(purchases)[p] else 0
  {
    if purchases == [] then []
    else
      assert purchases == [purchases[0]] + purchases[1..];
      if purchases[0].userId == userId then [purchases[0]] + PurchasesOf(purchases[1..], userId)
      else PurchasesOf(purchases[1..], userId)
  }

  /** How many grants link `userId` to `courseId`. */
  function CountPair(purchases: seq<Purchase>, userId: Id, courseId: Id): nat
  {
    if purchases == [] then 0
    else
      var here := if SamePairAs(purchases[0], userId, courseId) then 1 else 0;
      here + CountPair(purchases[1..], userId, courseId)
  }

  predicate SamePairAs(p: Purchase, userId: Id, courseId: Id)
  {
    p.userId == userId && p.courseId == courseId
  }

  predicate SamePair(p: Purchase, q: Purchase)
  {
    p.userId == q.userId && p.courseId == q.courseId
  }

  /** The ledger's invariant: no (userId, courseId) pair is granted twice. */
  predicate NoDuplicatePairs(purchases: seq<Purchase>)
  {
    forall i, j :: 0 <= i < j < |purchases| ==> !SamePair(purchases[i], purchases[j])
  }

  predicate UniqueUserEmails(users: seq<User>)
  {
    forall i, j :: 0 <= i < j < |users| ==> users[i].email != users[j].email
  }

  predicate UniqueAdminEmails(admins: seq<Admin>)
  {
    forall i, j :: 0 <= i < j < |admins| ==> admins[i].email != admins[j].email
  }

  /** In a duplicate-free ledger a pair is granted at most once. */
  lemma {:induction false} AtMostOneGrant(purchases: seq<Purchase>, userId: Id, courseId: Id)
    requires NoDuplicatePairs(purchases)
    ensures CountPair(purchases, userId, courseId) <= 1
    ensures FindPurchase(purchases, userId, courseId).Some? <==> CountPair(purchases, userId, courseId) == 1
  {
    if purchases != [] {
      var tail := purchases[1..];
      assert NoDuplicatePairs(tail) by {
        forall i, j | 0 <= i < j < |tail| ensures !SamePair(tail[i], tail[j]) {
          assert tail[i] == purchases[i + 1] && tail[j] == purchases[j + 1];
        }
      }
      AtMostOneGrant(tail, userId, courseId);
    }
  }

  /** Appending a grant for a pair not yet granted keeps the ledger duplicate-free. */
  lemma AppendFreshPair(purchases: seq<Purchase>, p: Purchase)
    requires NoDuplicatePairs(purchases)
    requires FindPurchase(purchases, p.userId, p.courseId).None?
    ensures NoDuplicatePairs(purchases + [p])
  {
  }

  /**
   * An account appended under an email no stored account has is what a
   * lookup by that email then finds: it is the only match.
   */
  lemma FindAppendedUser(users: seq<User>, u: User)
    requires FindUser(users, u.email).None?
    ensures FindUser(users + [u], u.email) == Some(u)
  {
  }

  lemma FindAppendedAdmin(admins: seq<Admin>, a: Admin)
    requires FindAdmin(admins, a.email).None?
    ensures FindAdmin(admins + [a], a.email) == Some(a)
  {
  }

  /**
   * The database: the four collections plus the ObjectId generator. Every
   * id handed out so far is below `nextId`.
   */
  class Database {
    var users: seq<User>
    var admins: seq<Admin>
    var courses: map<Id, Course>
    var purchases: seq<Purchase>
    var nextId: Id

    ghost predicate Valid()
      reads this
    {
      && UniqueUserEmails(users)
      && UniqueAdminEmails(admins)
      && NoDuplicatePairs(purchases)
      && (forall id :: id in courses ==> id < nextId)
      && (forall p :: p in purchases ==> p.id < nextId)
      && (forall u :: u in users ==> u.id < nextId)
      && (forall a :: a in admins ==> a.id < nextId)
    }

    constructor ()
      ensures Valid()
      ensures users == [] && admins == [] && courses == map[] && purchases == []
    {
      users, admins, courses, purchases := [], [], map[], [];
      nextId := 0;
    }

    /** A fresh ObjectId, different from every id already stored. */
    method NewId() returns (id: Id)
      requires Valid()
      modifies this`nextId
      ensures Valid()
      ensures id == old(nextId) && nextId == id + 1
      ensures id !in courses && forall p :: p in purchases ==> p.id != id
      ensures (forall u :: u in users ==> u.id != id) && (forall a :: a in admins ==> a.id != id)
    {
      id := nextId;
      nextId := nextId + 1;
    }
  }
}
