/**
 * Users: the `User` document with its role-hygiene pre-save hook
 * (models/User.ts) and `POST /api/users` (app/api/users/route.ts), which
 * creates a user and links a new student to its parent.
 *
 * The users collection is a map from `_id` to the stored document. Password
 * hashing is an opaque function supplied by the caller.
 */
module Users {
  import opened Common
  import Strings

  /** A stored user. An absent optional field is `None` (`undefined`). */
  datatype UserData = UserData(
    id: Id,
    name: string,
    email: string,
    password: string,
    role: Role,
    schoolId: string,
    phone: Option<string>,
    classId: Option<Id>,
    parentId: Option<Id>,
    subjects: Option<seq<string>>,
    childrenIds: Option<seq<Id>>)

  /** What the pre-save hook leaves of a document: only the fields of its own role. */
  function RoleCleaned(u: UserData): (c: UserData)
    ensures u.role != STUDENT ==> c.classId.None? && c.parentId.None?
    ensures u.role != TEACHER ==> c.subjects.None?
    ensures u.role != PARENT ==> c.childrenIds.None?
    ensures u.role == STUDENT ==> c.classId == u.classId && c.parentId == u.parentId
    ensures u.role == TEACHER ==> c.subjects == u.subjects
    ensures u.role == PARENT ==> c.childrenIds == u.childrenIds
    ensures c.(classId := u.classId, parentId := u.parentId, subjects := u.subjects, childrenIds := u.childrenIds) == u
  {
    u.(classId := if u.role == STUDENT then u.classId else None,
       parentId := if u.role == STUDENT then u.parentId else None,
       subjects := if u.role == TEACHER then u.subjects else None,
       childrenIds := if u.role == PARENT then u.childrenIds else None)
  }

  /** Running the hook twice is running it once. */
  lemma RoleCleanedIdempotent(u: UserData)
    ensures RoleCleaned(RoleCleaned(u)) == RoleCleaned(u)
  {
  }

  /** A document the hook would not change. */
  predicate RoleClean(u: UserData)
  {
    RoleCleaned(u) == u
  }

  /** The hook's output is clean, and a clean document holds no field of another role. */
  lemma RoleCleanMeansOwnFieldsOnly(u: UserData)
    ensures RoleClean(RoleCleaned(u))
    ensures RoleClean(u) <==>
      && (u.role != STUDENT ==> u.classId.None? && u.parentId.None?)
      && (u.role != TEACHER ==> u.subjects.None?)
      && (u.role != PARENT ==> u.childrenIds.None?)
  {
  }

  /** A user document being saved; the hook assigns its fields in place. */
  class UserDocument {
    var id: Id
    var name: string
    var email: string
    var password: string
    var role: Role
    var schoolId: string
    var phone: Option<string>
    var classId: Option<Id>
    var parentId: Option<Id>
    var subjects: Option<seq<string>>
    var childrenIds: Option<seq<Id>>

    function Value(): UserData
      reads this
    {
      UserData(id, name, email, password, role, schoolId, phone, classId, parentId, subjects, childrenIds)
    }

    /** `new User({...})`: the array field starts empty, the other optional fields absent. */
    constructor (id: Id, name: string, email: string, password: string, role: Role, schoolId: string, phone: Option<string>)
      ensures Value() == UserData(id, name, email, password, role, schoolId, phone, None, None, None, Some([]))
    {
      this.id := id;
      this.name := name;
      this.email := email;
      this.password := password;
      this.role := role;
      this.schoolId := schoolId;
      this.phone := phone;
      classId := None;
      parentId := None;
      subjects := None;
      childrenIds := Some([]);
    }

    /** The `pre("save")` hook. */
    method PreSave()
      modifies this
      ensures Value() == RoleCleaned(old(Value()))
    {
      if role != STUDENT {
        classId := None;
        parentId := None;
      }
      if role != TEACHER {
        subjects := None;
      }
      if role != PARENT {
        childrenIds := None;
      }
    }
  }

  predicate IsHexDigit(c: char)
  {
    '0' <= c <= '9' || 'a' <= c <= 'f' || 'A' <= c <= 'F'
  }

  /** `mongoose.Types.ObjectId.isValid` on a 24-character hexadecimal string. */
  predicate IsValidObjectId(s: string)
  {
    |s| == 24 && forall i :: 0 <= i < |s| ==> IsHexDigit(s[i])
  }

  /** No sequence holds the same id twice. */
  predicate NoDuplicates(ids: seq<Id>)
  {
    forall i, j :: 0 <= i < j < |ids| ==> ids[i] != ids[j]
  }

  /** `childrenIds.includes(child) || push(child)` on `childrenIds || []`. */
  function LinkChild(children: Option<seq<Id>>, child: Id): (r: seq<Id>)
    ensures child in r
    ensures children.Some? ==> |children.value| <= |r| && r[..|children.value|] == children.value
    ensures children.Some? && child in children.value ==> r == children.value
    ensures children.Some? && child !in children.value ==> r == children.value + [child]
    ensures children.None? ==> r == [child]
    ensures (children.None? || NoDuplicates(children.value)) ==> NoDuplicates(r)
  {
    var existing := if children.Some? then children.value else [];
    if child in existing then existing else existing + [child]
  }

  /** Linking twice is linking once. */
  lemma LinkChildIdempotent(children: Option<seq<Id>>, child: Id)
    ensures LinkChild(Some(LinkChild(children, child)), child) == LinkChild(children, child)
  {
  }

  /** The JSON body of a POST; `role` is the raw string. */
  datatype UserBody = UserBody(
    name: Option<string>,
    email: Option<string>,
    phone: Option<string>,
    password: Option<string>,
    role: Option<string>,
    schoolId: Option<string>,
    classId: Option<string>,
    parentId: Option<string>,
    subjects: Option<seq<string>>)

  datatype UserOutcome =
    | MissingFields       // 400 "Missing required fields"
    | ServerError         // 500: a failed save (role outside the enum, taken email or id) or a failed parent lookup
    | Created(user: UserData)  // 201
  {
    function Status(): int
    {
      match this
      case MissingFields => 400
      case ServerError => 500
      case Created(_) => 201
    }
  }

  /** The five fields the POST requires are all truthy. */
  predicate Complete(body: UserBody)
  {
    Present(body.name) && Present(body.email) && Present(body.password) && Present(body.role) && Present(body.schoolId)
  }

  /**
   * The save succeeds: the role is in the enum, and neither the lower-cased
   * email nor the id is taken.
   */
  predicate Saves(users: map<Id, UserData>, body: UserBody, newId: Id)
  {
    && Complete(body)
    && ParseRole(body.role.value).Some?
    && !EmailTaken(users, Strings.Lower(body.email.value))
    && newId !in users
  }

  /** A student's truthy parent id that is not an ObjectId: the parent lookup throws. */
  predicate ParentLookupFails(body: UserBody)
  {
    && Complete(body)
    && ParseRole(body.role.value) == Some(STUDENT)
    && Present(body.parentId)
    && !IsValidObjectId(body.parentId.value)
  }

  /**
   * The document the POST saves for a well-formed body, once the hook has
   * run: the submitted fields, the hashed password, the lower-cased email,
   * and the role-specific fields only for their role.
   */
  ghost predicate BuiltFrom(u: UserData, body: UserBody, newId: Id, hash: string -> string)
  {
    && Present(body.name) && Present(body.email) && Present(body.password) && Present(body.role) && Present(body.schoolId)
    && u.id == newId
    && u.name == body.name.value
    && u.email == Strings.Lower(body.email.value)
    && u.password == hash(body.password.value)
    && Some(u.role) == ParseRole(body.role.value)
    && u.schoolId == body.schoolId.value
    && u.phone == body.phone
    && (if u.role == STUDENT && Present(body.classId) then u.classId == body.classId else u.classId.None?)
    && (if u.role == STUDENT && Present(body.parentId) && IsValidObjectId(body.parentId.value)
        then u.parentId == body.parentId else u.parentId.None?)
    && (if u.role == TEACHER && body.subjects.Some? then u.subjects == body.subjects else u.subjects.None?)
    && (if u.role == PARENT then u.childrenIds == Some([]) else u.childrenIds.None?)
  }

  /**
   * Builds the new document as the route does: construct it, set the
   * role-specific fields, and run the pre-save hook.
   */
  method NewDocument(body: UserBody, newId: Id, hash: string -> string, role: Role) returns (u: UserData)
    requires Present(body.name) && Present(body.email) && Present(body.password) && Present(body.role) && Present(body.schoolId)
    requires ParseRole(body.role.value) == Some(role)
    ensures BuiltFrom(u, body, newId, hash)
    ensures RoleClean(u)
    ensures Strings.Lower(u.email) == u.email
  {
    var doc := new UserDocument(newId, body.name.value, Strings.Lower(body.email.value), hash(body.password.value),
                                role, body.schoolId.value, body.phone);
    if role == STUDENT {
      if Present(body.classId) {
        doc.classId := body.classId;
      }
      if Present(body.parentId) && IsValidObjectId(body.parentId.value) {
        doc.parentId := body.parentId;
      }
    }
    if role == TEACHER && body.subjects.Some? {
      doc.subjects := body.subjects;
    }
    ghost var unsaved := doc.Value();
    doc.PreSave();
    u := doc.Value();
    RoleCleanedIdempotent(unsaved);
    Strings.LowerIdempotent(body.email.value);
  }

  /**
   * Every user is stored under its own id, has a lower-case email no other
   * user has, holds only the fields of its role, and lists no child twice.
   */
  ghost predicate ValidUsers(users: map<Id, UserData>)
  {
    && (forall id :: id in users ==> users[id].id == id)
    && (forall id :: id in users ==> Strings.Lower(users[id].email) == users[id].email)
    && (forall a, b :: a in users && b in users && a != b ==> users[a].email != users[b].email)
    && (forall id :: id in users ==> RoleClean(users[id]))
    && (forall id :: id in users && users[id].childrenIds.Some? ==> NoDuplicates(users[id].childrenIds.value))
  }

  predicate EmailTaken(users: map<Id, UserData>, email: string)
  {
    exists id :: id in users && users[id].email == email
  }

  /** Saving a clean document with a fresh id and a fresh lower-case email keeps the collection valid. */
  lemma AddUserKeepsValid(users: map<Id, UserData>, u: UserData)
    requires ValidUsers(users)
    requires u.id !in users && !EmailTaken(users, u.email)
    requires Strings.Lower(u.email) == u.email && RoleClean(u)
    requires u.childrenIds.Some? ==> NoDuplicates(u.childrenIds.value)
    ensures ValidUsers(users[u.id := u])
  {
  }

  /** The parent after the link, saved through the hook (which keeps a parent's children). */
  function Linked(parent: UserData, child: Id): (q: UserData)
    requires parent.role == PARENT
    ensures q.childrenIds == Some(LinkChild(parent.childrenIds, child))
    ensures q.childrenIds.Some? && child in q.childrenIds.value
    ensures parent.childrenIds.Some? && NoDuplicates(parent.childrenIds.value) ==> multiset(q.childrenIds.value)[child] == 1
    ensures q.(childrenIds := parent.childrenIds) == parent
  {
    var children := LinkChild(parent.childrenIds, child);
    assert parent.childrenIds.Some? && NoDuplicates(parent.childrenIds.value) ==> multiset(children)[child] == 1 by {
      if parent.childrenIds.Some? && NoDuplicates(parent.childrenIds.value) {
        NoDuplicatesCountsOnce(children, child);
      }
    }
    parent.(childrenIds := Some(children))
  }

  lemma LinkKeepsValid(users: map<Id, UserData>, p: Id, child: Id)
    requires ValidUsers(users) && p in users && users[p].role == PARENT
    ensures ValidUsers(users[p := Linked(users[p], child)])
  {
  }

  /** The users collection. */
  class UserDirectory {
    var users: map<Id, UserData>

    ghost predicate Valid()
      reads this
    {
      ValidUsers(users)
    }

    constructor ()
      ensures Valid() && users == map[]
    {
      users := map[];
    }

    /**
     * POST. `newId` is the `_id` the new document gets and `hash` the
     * password hash. A student's parent is linked when it exists and is a
     * parent; a parent id that is truthy but not an ObjectId makes the
     * lookup fail after the student was saved.
     */
    method Create(body: UserBody, newId: Id, hash: string -> string) returns (r: UserOutcome)
      requires Valid()
      modifies this
      ensures Valid()
      ensures r == MissingFields <==> !Complete(body)
      ensures r.Created? <==> Saves(old(users), body, newId) && !ParentLookupFails(body)
      ensures !Saves(old(users), body, newId) ==> users == old(users)
      ensures Saves(old(users), body, newId) && ParentLookupFails(body) ==>
        && r == ServerError
        && newId in users && BuiltFrom(users[newId], body, newId, hash)
        && users == old(users)[newId := users[newId]]
      ensures r.Created? ==> BuiltFrom(r.user, body, newId, hash)
      ensures r.Created? ==> newId !in old(users) && !EmailTaken(old(users), r.user.email)
      ensures r.Created? && r.user.role == STUDENT && Present(body.parentId)
              && body.parentId.value in old(users) && old(users)[body.parentId.value].role == PARENT ==>
        var p := body.parentId.value;
        users == old(users)[newId := r.user][p := Linked(old(users)[p], newId)]
      ensures r.Created? && !(r.user.role == STUDENT && Present(body.parentId)
              && body.parentId.value in old(users) && old(users)[body.parentId.value].role == PARENT) ==>
        users == old(users)[newId := r.user]
    {
      if !Present(body.name) || !Present(body.email) || !Present(body.password)
         || !Present(body.role) || !Present(body.schoolId) {
        return MissingFields;
      }
      var role := ParseRole(body.role.value);
      if role.None? {
        // the enum validator rejects the save
        return ServerError;
      }
      if EmailTaken(users, Strings.Lower(body.email.value)) || newId in users {
        // duplicate key on `email` or `_id`
        return ServerError;
      }
      var user := NewDocument(body, newId, hash, role.value);
      AddUserKeepsValid(users, user);
      users := users[newId := user];
      if role.value == STUDENT && Present(body.parentId) {
        var p := body.parentId.value;
        if !IsValidObjectId(p) {
          // `findById` cannot cast the id: the request fails after the user was saved
          return ServerError;
        }
        if p in users && users[p].role == PARENT {
          LinkKeepsValid(users, p, newId);
          users := users[p := Linked(users[p], newId)];
        }
      }
      r := Created(user);
    }
  }

  /** In a list without duplicates a member occurs exactly once. */
  lemma {:induction false} NoDuplicatesCountsOnce(ids: seq<Id>, x: Id)
    requires NoDuplicates(ids) && x in ids
    ensures multiset(ids)[x] == 1
  {
    assert ids == [ids[0]] + ids[1..];
    assert multiset(ids) == multiset{ids[0]} + multiset(ids[1..]);
    assert NoDuplicates(ids[1..]) by {
      forall i, j | 0 <= i < j < |ids[1..]| ensures ids[1..][i] != ids[1..][j] {
        assert ids[1..][i] == ids[i + 1] && ids[1..][j] == ids[j + 1];
      }
    }
    if ids[0] == x {
      assert x !in ids[1..] by {
        forall j | 0 <= j < |ids[1..]| ensures ids[1..][j] != x {
          assert ids[1..][j] == ids[j + 1];
        }
      }
    } else {
      NoDuplicatesCountsOnce(ids[1..], x);
    }
  }
}
