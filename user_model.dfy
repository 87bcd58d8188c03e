/** The users collection: account records, their schema, lookups and updates. */
module UserModel {
  import opened Common
  import opened Zod
  import opened Collection

  /** A stored account. `password` holds the credential hash, never the plaintext. */
  datatype User = User(
    id: string,
    email: string,
    password: string,
    name: Option<string>,
    role: string,
    isVerified: bool,
    createdAt: int,
    updatedAt: int)

  /** The body handed to `createUser`. */
  datatype UserInput = UserInput(email: string, password: string, name: Option<string>, role: string, isVerified: bool)

  /** The schema's minimum length for the stored password field. */
  const MinPasswordLength: nat := 6

  const EmailMessage := "Invalid email address"
  const PasswordMessage := "Password must be at least 6 characters long"
  const RoleMessage := "Role is required"

  /**
   * The issues the user schema reports, in schema order (email, password, role). Whether a
   * string is an e-mail address is decided by the validation library and is a parameter here.
   */
  function UserIssues(u: UserInput, isEmail: string -> bool): (issues: seq<Issue>)
    ensures issues == [] <==> isEmail(u.email) && |u.password| >= MinPasswordLength && u.role != ""
    ensures FieldIssue("email", EmailMessage) in issues <==> !isEmail(u.email)
    ensures FieldIssue("password", PasswordMessage) in issues <==> |u.password| < MinPasswordLength
    ensures FieldIssue("role", RoleMessage) in issues <==> u.role == ""
  {
    (if isEmail(u.email) then [] else [FieldIssue("email", EmailMessage)]) +
    (if |u.password| >= MinPasswordLength then [] else [FieldIssue("password", PasswordMessage)]) +
    (if u.role != "" then [] else [FieldIssue("role", RoleMessage)])
  }

  /** The record `createUser` inserts: the given fields, never verified, both timestamps `now`. */
  function NewUser(u: UserInput, id: string, now: int): User {
    User(id, u.email, u.password, u.name, u.role, false, now, now)
  }

  /** The filter `{ email }`. */
  function ByEmail(email: string): User -> bool {
    (u: User) => u.email == email
  }

  /** The filter `{ _id: id }`; an undefined id matches no stored record. */
  function ById(id: Option<string>): User -> bool {
    (u: User) => id.Some? && u.id == id.value
  }

  /** `getUserByEmail`: the first stored record with that email, or null. */
  function FindUserByEmail(docs: seq<User>, email: string): (r: Option<User>)
    ensures r.Some? ==> r.value in docs && r.value.email == email
    ensures r.None? <==> forall j :: 0 <= j < |docs| ==> docs[j].email != email
  {
    FindOne(docs, ByEmail(email))
  }

  /** `getUserById`: the first stored record with that id, or null (always null for an undefined id). */
  function FindUserById(docs: seq<User>, id: Option<string>): (r: Option<User>)
    ensures r.Some? ==> id.Some? && r.value in docs && r.value.id == id.value
    ensures r.None? <==> id.None? || forall j :: 0 <= j < |docs| ==> docs[j].id != id.value
  {
    FindOne(docs, ById(id))
  }

  /** No two stored records share an id (the store generates a fresh object id for each insert). */
  ghost predicate UniqueIds(docs: seq<User>) {
    forall i, j :: 0 <= i < j < |docs| ==> docs[i].id != docs[j].id
  }

  /**
   * A created record can be found by its id, and looking up its email finds it unless an
   * earlier record already has that email: `createUser` itself does not check uniqueness.
   */
  lemma CreatedUserLookups(docs: seq<User>, u: UserInput, id: string, now: int)
    requires forall j :: 0 <= j < |docs| ==> docs[j].id != id
    ensures FindUserById(docs + [NewUser(u, id, now)], Some(id)) == Some(NewUser(u, id, now))
    ensures FindUserByEmail(docs + [NewUser(u, id, now)], u.email) ==
      if FindUserByEmail(docs, u.email).Some? then FindUserByEmail(docs, u.email) else Some(NewUser(u, id, now))
    ensures FindUserById(docs + [NewUser(u, id, now)], Some(id)).value.isVerified == false
  {
    var r := docs + [NewUser(u, id, now)];
    var i := FirstMatch(r, ById(Some(id)));
    assert ById(Some(id))(r[|docs|]);
    assert i.Some? && i.value == |docs|;
    var e := FirstMatch(docs, ByEmail(u.email));
    if e.Some? {
      assert ByEmail(u.email)(r[e.value]);
      assert FirstMatch(r, ByEmail(u.email)) == e;
    } else {
      assert ByEmail(u.email)(r[|docs|]);
      assert FirstMatch(r, ByEmail(u.email)) == Some(|docs|);
    }
  }

  /** The fields an `updateUser` call may carry; each one absent (undefined) or given. */
  datatype UserPatch = UserPatch(
    email: Option<string>,
    password: Option<string>,
    name: Option<string>,
    role: Option<string>,
    isVerified: Option<bool>)

  /** The partial schema checks only the fields that are given. */
  function PatchIssues(p: UserPatch, isEmail: string -> bool): (issues: seq<Issue>)
    ensures issues == [] <==>
      (p.email.Some? ==> isEmail(p.email.value)) &&
      (p.password.Some? ==> |p.password.value| >= MinPasswordLength) &&
      (p.role.Some? ==> p.role.value != "")
  {
    (if p.email.None? || isEmail(p.email.value) then [] else [FieldIssue("email", EmailMessage)]) +
    (if p.password.None? || |p.password.value| >= MinPasswordLength then [] else [FieldIssue("password", PasswordMessage)]) +
    (if p.role.None? || p.role.value != "" then [] else [FieldIssue("role", RoleMessage)])
  }

  /** A value in a `$set` update document. `Null` is how the store records a property that was undefined. */
  datatype FieldValue = Null | Str(s: string) | Flag(b: bool) | Time(ms: int)

  function StrOrNull(v: Option<string>): FieldValue {
    if v.Some? then Str(v.value) else Null
  }

  function FlagOrNull(v: Option<bool>): FieldValue {
    if v.Some? then Flag(v.value) else Null
  }

  /** The fields of a patch. */
  const PatchFields: set<string> := {"email", "password", "name", "role", "isVerified"}

  /**
   * The `$set` document `updateUser` sends, as written: it names every schema field, so a
   * field the caller left undefined is sent as undefined, which the store driver (without
   * `ignoreUndefined`) writes as null.
   */
  function SetDocument(p: UserPatch, now: int): (d: map<string, FieldValue>)
    ensures d.Keys == PatchFields + {"updatedAt"}
  {
    map["email" := StrOrNull(p.email), "password" := StrOrNull(p.password), "name" := StrOrNull(p.name),
        "role" := StrOrNull(p.role), "isVerified" := FlagOrNull(p.isVerified), "updatedAt" := Time(now)]
  }

  /** The intended `$set` document: only the fields the caller gave, plus the refreshed `updatedAt`. */
  function PatchDocument(p: UserPatch, now: int): (d: map<string, FieldValue>)
    ensures "updatedAt" in d && d["updatedAt"] == Time(now)
    ensures forall f :: f in d ==> d[f] != Null
    ensures "email" in d <==> p.email.Some?
    ensures "password" in d <==> p.password.Some?
    ensures "name" in d <==> p.name.Some?
    ensures "role" in d <==> p.role.Some?
    ensures "isVerified" in d <==> p.isVerified.Some?
  {
    var d0 := map["updatedAt" := Time(now)];
    var d1 := if p.email.Some? then d0["email" := Str(p.email.value)] else d0;
    var d2 := if p.password.Some? then d1["password" := Str(p.password.value)] else d1;
    var d3 := if p.name.Some? then d2["name" := Str(p.name.value)] else d2;
    var d4 := if p.role.Some? then d3["role" := Str(p.role.value)] else d3;
    if p.isVerified.Some? then d4["isVerified" := Flag(p.isVerified.value)] else d4
  }

  /**
   * Where the code as written and the intended update part: every field the caller omitted
   * is nulled by the written `$set` and left alone by the intended one. A patch that only
   * changes the role is enough to erase the stored email.
   */
  lemma OmittedFieldsAreNulled(p: UserPatch, now: int)
    ensures p.email.None? ==> SetDocument(p, now)["email"] == Null && "email" !in PatchDocument(p, now)
    ensures p.password.None? ==> SetDocument(p, now)["password"] == Null && "password" !in PatchDocument(p, now)
    ensures p.name.None? ==> SetDocument(p, now)["name"] == Null && "name" !in PatchDocument(p, now)
    ensures p.isVerified.None? ==> SetDocument(p, now)["isVerified"] == Null && "isVerified" !in PatchDocument(p, now)
    ensures p == UserPatch(None, None, None, Some("admin"), None) ==> SetDocument(p, now) != PatchDocument(p, now)
  {
    if p == UserPatch(None, None, None, Some("admin"), None) {
      assert "email" in SetDocument(p, now) && "email" !in PatchDocument(p, now);
    }
  }

  /**
   * A user record as the store holds it, where any schema field may be null (absent here),
   * as the written `$set` can leave it.
   */
  datatype StoredUser = StoredUser(
    id: string,
    email: Option<string>,
    password: Option<string>,
    name: Option<string>,
    role: Option<string>,
    isVerified: Option<bool>,
    createdAt: int,
    updatedAt: int)

  /** A well-formed record as the store holds it. */
  function Stored(u: User): StoredUser {
    StoredUser(u.id, Some(u.email), Some(u.password), u.name, Some(u.role), Some(u.isVerified), u.createdAt, u.updatedAt)
  }

  /** The text a `$set` value gives a string field: null clears it. */
  function AssignText(v: FieldValue, current: Option<string>): Option<string> {
    match v
    case Null => None
    case Str(s) => Some(s)
    case _ => current
  }

  /** The value a `$set` value gives the verification flag: null clears it. */
  function AssignFlag(v: FieldValue, current: Option<bool>): Option<bool> {
    match v
    case Null => None
    case Flag(b) => Some(b)
    case _ => current
  }

  /**
   * `$set` on a stored record: each field the document names takes the given value, a null
   * included; fields it does not name keep theirs.
   */
  function ApplySet(u: StoredUser, d: map<string, FieldValue>): (r: StoredUser)
    ensures r.id == u.id && r.createdAt == u.createdAt
    ensures "email" !in d ==> r.email == u.email
    ensures "password" !in d ==> r.password == u.password
    ensures "name" !in d ==> r.name == u.name
    ensures "role" !in d ==> r.role == u.role
    ensures "isVerified" !in d ==> r.isVerified == u.isVerified
    ensures "email" in d && d["email"].Str? ==> r.email == Some(d["email"].s)
    ensures "password" in d && d["password"].Str? ==> r.password == Some(d["password"].s)
    ensures "name" in d && d["name"].Str? ==> r.name == Some(d["name"].s)
    ensures "role" in d && d["role"].Str? ==> r.role == Some(d["role"].s)
    ensures "isVerified" in d && d["isVerified"].Flag? ==> r.isVerified == Some(d["isVerified"].b)
    ensures "role" in d && d["role"] == Null ==> r.role.None?
    ensures "updatedAt" in d && d["updatedAt"].Time? ==> r.updatedAt == d["updatedAt"].ms
    ensures !("updatedAt" in d && d["updatedAt"].Time?) ==> r.updatedAt == u.updatedAt
    ensures "email" in d && d["email"] == Null ==> r.email.None?
    ensures "name" in d && d["name"] == Null ==> r.name.None?
    ensures "password" in d && d["password"] == Null ==> r.password.None?
    ensures "isVerified" in d && d["isVerified"] == Null ==> r.isVerified.None?
  {
    u.(
      email := if "email" in d then AssignText(d["email"], u.email) else u.email,
      password := if "password" in d then AssignText(d["password"], u.password) else u.password,
      name := if "name" in d then AssignText(d["name"], u.name) else u.name,
      role := if "role" in d then AssignText(d["role"], u.role) else u.role,
      isVerified := if "isVerified" in d then AssignFlag(d["isVerified"], u.isVerified) else u.isVerified,
      updatedAt := if "updatedAt" in d && d["updatedAt"].Time? then d["updatedAt"].ms else u.updatedAt)
  }

  /** The record after an intended partial update: the given fields replaced, `updatedAt` refreshed. */
  function PatchUser(u: User, p: UserPatch, now: int): User {
    u.(
      email := if p.email.Some? then p.email.value else u.email,
      password := if p.password.Some? then p.password.value else u.password,
      name := if p.name.Some? then p.name else u.name,
      role := if p.role.Some? then p.role.value else u.role,
      isVerified := if p.isVerified.Some? then p.isVerified.value else u.isVerified,
      updatedAt := now)
  }

  /**
   * The intended update document, applied by the store, gives exactly the patched record:
   * the given fields change, `updatedAt` is refreshed, and the id, the creation time and
   * every omitted field keep their values.
   */
  lemma PatchUserFields(u: User, p: UserPatch, now: int)
    ensures ApplySet(Stored(u), PatchDocument(p, now)) == Stored(PatchUser(u, p, now))
    ensures var r := PatchUser(u, p, now);
      && r.id == u.id && r.createdAt == u.createdAt && r.updatedAt == now
      && (p.email.None? ==> r.email == u.email)
      && (p.password.None? ==> r.password == u.password)
      && (p.name.None? ==> r.name == u.name)
      && (p.role.None? ==> r.role == u.role)
      && (p.isVerified.None? ==> r.isVerified == u.isVerified)
  {
  }

  /**
   * The update as written, applied by the store, erases every omitted field of the record;
   * a role-only update leaves a record without email, password, name or verification flag,
   * which the intended update would have kept.
   */
  lemma WrittenUpdateErasesFields(u: User, p: UserPatch, now: int)
    ensures var r := ApplySet(Stored(u), SetDocument(p, now));
      && (p.email.None? ==> r.email.None?)
      && (p.password.None? ==> r.password.None?)
      && (p.name.None? ==> r.name.None?)
      && (p.isVerified.None? ==> r.isVerified.None?)
    ensures p == UserPatch(None, None, None, Some("admin"), None) ==>
      ApplySet(Stored(u), SetDocument(p, now)) == StoredUser(u.id, None, None, None, Some("admin"), None, u.createdAt, now) &&
      ApplySet(Stored(u), SetDocument(p, now)) != Stored(PatchUser(u, p, now))
  {
    OmittedFieldsAreNulled(p, now);
  }

  /** The update applied to the matched record. */
  function Patcher(p: UserPatch, now: int): User -> User {
    (u: User) => PatchUser(u, p, now)
  }

  /** Deleting by id removes at most one record and keeps every record with another id, in order. */
  lemma DeleteKeepsOthers(docs: seq<User>, id: string)
    ensures var r := DeleteOne(docs, ById(Some(id)));
      |docs| - 1 <= |r| <= |docs| &&
      forall u :: u in docs && u.id != id ==> u in r
  {
    var r := DeleteOne(docs, ById(Some(id)));
    var m := FirstMatch(docs, ById(Some(id)));
    if m.Some? {
      forall u | u in docs && u.id != id ensures u in r {
        var k :| 0 <= k < |docs| && docs[k] == u;
        if k < m.value {
          assert r[k] == u;
        } else {
          assert k != m.value;
          assert r[k - 1] == u;
        }
      }
    }
  }

  /** With unique ids, a deleted id can no longer be found. */
  lemma DeletedIdIsGone(docs: seq<User>, id: string)
    requires UniqueIds(docs)
    ensures FindUserById(DeleteOne(docs, ById(Some(id))), Some(id)).None?
  {
    var r := DeleteOne(docs, ById(Some(id)));
    var m := FirstMatch(docs, ById(Some(id)));
    if m.Some? {
      forall j | 0 <= j < |r| ensures r[j].id != id {
        if j < m.value {
          assert r[j] == docs[j];
        } else {
          assert r[j] == docs[j + 1];
          assert docs[m.value].id == id;
        }
      }
    }
  }

  /** The users collection, changed in place by insert, update and delete. */
  class UserCollection {
    var docs: seq<User>

    constructor ()
      ensures docs == []
    {
      docs := [];
    }

    /**
     * `createUser`: validate the body, then insert a new record with a fresh id and return it.
     * An invalid body raises the validation error and writes nothing.
     */
    method CreateUser(input: UserInput, isEmail: string -> bool, freshId: string, now: int) returns (r: Parsed<User>)
      modifies this
      ensures UserIssues(input, isEmail) != [] ==> r == Invalid(UserIssues(input, isEmail)) && docs == old(docs)
      ensures UserIssues(input, isEmail) == [] ==>
        r == Done(NewUser(input, freshId, now)) && docs == old(docs) + [NewUser(input, freshId, now)]
    {
      var issues := UserIssues(input, isEmail);
      if issues != [] {
        return Invalid(issues);
      }
      var user := NewUser(input, freshId, now);
      docs := docs + [user];
      r := Done(user);
    }

    /**
     * `updateUser`: validate the given fields, then apply them to the record with that id,
     * refreshing `updatedAt`. This applies the intended partial update (see `SetDocument`
     * for what the code as written sends).
     */
    method UpdateUser(id: string, patch: UserPatch, isEmail: string -> bool, now: int) returns (issues: seq<Issue>)
      modifies this
      ensures issues == PatchIssues(patch, isEmail)
      ensures issues != [] ==> docs == old(docs)
      ensures issues == [] ==> docs == UpdateOne(old(docs), ById(Some(id)), Patcher(patch, now))
    {
      issues := PatchIssues(patch, isEmail);
      if issues == [] {
        docs := UpdateOne(docs, ById(Some(id)), Patcher(patch, now));
      }
    }

    /** `deleteUser`: remove the record with that id. */
    method DeleteUser(id: string)
      modifies this
      ensures docs == DeleteOne(old(docs), ById(Some(id)))
    {
      docs := DeleteOne(docs, ById(Some(id)));
    }
  }
}
