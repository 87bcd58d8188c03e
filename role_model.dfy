/**
 * The roles collection: each role names the frontend pages and backend access keys it may
 * use. Roles are created singly, seeded once with the two defaults, deleted by id, and
 * looked up by name for the route guard.
 */
module RoleModel {
  import opened Common
  import opened Zod
  import opened Collection

  /**
   * A role's `_id`. `createRole` generates an ObjectId and stores its hex text as a string;
   * a record inserted without an `_id` (each seeded role) gets an ObjectId from the store
   * driver, here given by its hex text. A string never equals an ObjectId in a filter.
   */
  datatype RoleId = HexString(s: string) | ObjectId(oid: string)

  /** A stored role. The route lists are optional because a record need not carry them. */
  datatype Role = Role(
    id: RoleId,
    name: string,
    frontendRoutes: Option<seq<string>>,
    backendRoutes: Option<seq<string>>,
    createdAt: int,
    updatedAt: int)

  /** The body handed to `createRole`. */
  datatype RoleInput = RoleInput(name: string, frontendRoutes: seq<string>, backendRoutes: seq<string>)

  /** What `fetchRoleByName` returns for a known role. */
  datatype RouteLists = RouteLists(frontendRoutes: seq<string>, backendRoutes: seq<string>)

  /** The role schema's issues, in schema order (name, frontend routes, backend routes). */
  function RoleIssues(r: RoleInput): (issues: seq<Issue>)
    ensures issues == [] <==> r.name != "" && |r.frontendRoutes| > 0 && |r.backendRoutes| > 0
    ensures FieldIssue("name", "Name is required") in issues <==> r.name == ""
    ensures FieldIssue("frontendRoutes", "At least one accessible frontend route is required") in issues <==>
      |r.frontendRoutes| == 0
    ensures FieldIssue("backendRoutes", "At least one accessible backend route is required") in issues <==>
      |r.backendRoutes| == 0
  {
    (if r.name != "" then [] else [FieldIssue("name", "Name is required")]) +
    (if |r.frontendRoutes| > 0 then [] else [FieldIssue("frontendRoutes", "At least one accessible frontend route is required")]) +
    (if |r.backendRoutes| > 0 then [] else [FieldIssue("backendRoutes", "At least one accessible backend route is required")])
  }

  /** The record `createRole` inserts. */
  function NewRole(r: RoleInput, id: string, now: int): Role {
    Role(HexString(id), r.name, Some(r.frontendRoutes), Some(r.backendRoutes), now, now)
  }

  /** The filter `{ name }`. */
  function ByName(name: string): Role -> bool {
    (r: Role) => r.name == name
  }

  /** The filter `{ _id: id }` with the string taken from the request path: it matches only string ids. */
  function ByRoleId(id: string): Role -> bool {
    (r: Role) => r.id == HexString(id)
  }

  /**
   * `fetchRoleByName`: null for an unknown name; otherwise the first such role's two route
   * lists, a missing list reading as empty.
   */
  function FetchRoleByName(docs: seq<Role>, name: string): (r: Option<RouteLists>)
    ensures r.None? <==> forall j :: 0 <= j < |docs| ==> docs[j].name != name
    ensures r.Some? ==>
      var role := docs[FirstMatch(docs, ByName(name)).value];
      && r.value.frontendRoutes == (if role.frontendRoutes.Some? then role.frontendRoutes.value else [])
      && r.value.backendRoutes == (if role.backendRoutes.Some? then role.backendRoutes.value else [])
  {
    match FirstMatch(docs, ByName(name))
    case None => None
    case Some(i) => Some(ListsOf(docs[i]))
  }

  /** The role name that every role check lets through. */
  const AdminRole := "admin"

  /**
   * The two roles the service seeds, with their creation times. They are inserted without an
   * `_id`, so their ids are the ObjectIds the driver assigns (`adminOid` and `customerOid`).
   */
  function DefaultRoles(adminOid: string, customerOid: string, now: int): (ds: seq<Role>)
    ensures |ds| == 2 && ds[0].name == "admin" && ds[1].name == "customer"
    ensures forall k :: 0 <= k < |ds| ==> ds[k].id.ObjectId?
  {
    [ Role(ObjectId(adminOid), "admin", Some(["*"]), Some(["*"]), now, now),
      Role(ObjectId(customerOid), "customer", Some(["/home", "/profile", "/orders"]),
           Some(["GetUserOrders", "GetProductDetails"]), now, now) ]
  }

  /** One seeding step: insert the role unless a role of that name already exists. */
  function SeedOne(docs: seq<Role>, d: Role): seq<Role> {
    if FirstMatch(docs, ByName(d.name)).Some? then docs else docs + [d]
  }

  /** The collection after seeding the given roles one after the other. */
  function Seed(docs: seq<Role>, defaults: seq<Role>): seq<Role>
    decreases |defaults|
  {
    if |defaults| == 0 then docs
    else SeedOne(Seed(docs, defaults[..|defaults| - 1]), defaults[|defaults| - 1])
  }

  /** Seeding only appends: every existing role stays where it was, unchanged. */
  lemma {:induction false} SeedKeepsExisting(docs: seq<Role>, defaults: seq<Role>)
    ensures |docs| <= |Seed(docs, defaults)| <= |docs| + |defaults|
    ensures Seed(docs, defaults)[..|docs|] == docs
    decreases |defaults|
  {
    if |defaults| > 0 {
      var prefix := defaults[..|defaults| - 1];
      SeedKeepsExisting(docs, prefix);
      var mid := Seed(docs, prefix);
      assert (mid + [defaults[|defaults| - 1]])[..|docs|] == mid[..|docs|];
    }
  }

  /** After seeding, every default's name is present. */
  lemma {:induction false} SeedProvidesNames(docs: seq<Role>, defaults: seq<Role>)
    ensures forall k :: 0 <= k < |defaults| ==> FirstMatch(Seed(docs, defaults), ByName(defaults[k].name)).Some?
    decreases |defaults|
  {
    if |defaults| > 0 {
      var n := |defaults| - 1;
      var prefix := defaults[..n];
      SeedProvidesNames(docs, prefix);
      var mid := Seed(docs, prefix);
      var after := Seed(docs, defaults);
      forall k | 0 <= k < |defaults| ensures FirstMatch(after, ByName(defaults[k].name)).Some? {
        if k < n {
          assert defaults[k] == prefix[k];
          var i := FirstMatch(mid, ByName(defaults[k].name)).value;
          SeedKeepsExisting(mid, [defaults[n]]);
          assert after == SeedOne(mid, defaults[n]);
          assert after[i] == mid[i];
          assert ByName(defaults[k].name)(after[i]);
        } else {
          if FirstMatch(mid, ByName(defaults[n].name)).None? {
            assert ByName(defaults[n].name)(after[|mid|]);
          }
        }
      }
    }
  }

  /** Seeding roles whose names are all present changes nothing. */
  lemma {:induction false} SeedPresentIsNoop(docs: seq<Role>, defaults: seq<Role>)
    requires forall k :: 0 <= k < |defaults| ==> FirstMatch(docs, ByName(defaults[k].name)).Some?
    ensures Seed(docs, defaults) == docs
    decreases |defaults|
  {
    if |defaults| > 0 {
      var prefix := defaults[..|defaults| - 1];
      assert forall k :: 0 <= k < |prefix| ==> prefix[k] == defaults[k];
      SeedPresentIsNoop(docs, prefix);
    }
  }

  /** Seeding twice with the same roles is the same as seeding once. */
  lemma SeedIdempotent(docs: seq<Role>, defaults: seq<Role>)
    ensures Seed(Seed(docs, defaults), defaults) == Seed(docs, defaults)
  {
    SeedProvidesNames(docs, defaults);
    SeedPresentIsNoop(Seed(docs, defaults), defaults);
  }

  /** The route lists `fetchRoleByName` reads from one role. */
  function ListsOf(role: Role): RouteLists {
    RouteLists(
      if role.frontendRoutes.Some? then role.frontendRoutes.value else [],
      if role.backendRoutes.Some? then role.backendRoutes.value else [])
  }

  /** One seeding step keeps a name's lookup when the name is present, and otherwise adds the seeded role's lists under its own name. */
  lemma SeedOneFetch(docs: seq<Role>, d: Role, name: string)
    ensures FetchRoleByName(docs, name).Some? ==> FetchRoleByName(SeedOne(docs, d), name) == FetchRoleByName(docs, name)
    ensures FetchRoleByName(docs, name).None? && d.name == name ==> FetchRoleByName(SeedOne(docs, d), name) == Some(ListsOf(d))
    ensures FetchRoleByName(docs, name).None? && d.name != name ==> FetchRoleByName(SeedOne(docs, d), name).None?
  {
    FirstMatchAppend(docs, [d], ByName(name));
    if FirstMatch(docs, ByName(d.name)).None? {
      assert [d][0] == d;
    }
  }

  /**
   * The seeded routes: a fresh store seeded with the defaults answers "admin" with ["*"] on
   * both sides and "customer" with its three pages and two backend keys; a role that already
   * existed under one of those names is kept instead.
   */
  lemma SeededRoutes(docs: seq<Role>, adminOid: string, customerOid: string, now: int)
    ensures var after := Seed(docs, DefaultRoles(adminOid, customerOid, now));
      && (FetchRoleByName(docs, "admin").None? ==>
            FetchRoleByName(after, "admin") == Some(RouteLists(["*"], ["*"])))
      && (FetchRoleByName(docs, "customer").None? ==>
            FetchRoleByName(after, "customer") ==
              Some(RouteLists(["/home", "/profile", "/orders"], ["GetUserOrders", "GetProductDetails"])))
      && (FetchRoleByName(docs, "admin").Some? ==> FetchRoleByName(after, "admin") == FetchRoleByName(docs, "admin"))
      && (FetchRoleByName(docs, "customer").Some? ==> FetchRoleByName(after, "customer") == FetchRoleByName(docs, "customer"))
  {
    var ds := DefaultRoles(adminOid, customerOid, now);
    var mid := SeedOne(docs, ds[0]);
    var after := SeedOne(mid, ds[1]);
    assert ds[..1] == [ds[0]] && ds[..2] == ds;
    assert Seed(docs, [ds[0]]) == mid by {
      assert [ds[0]][..0] == [];
    }
    assert Seed(docs, ds) == after;
    SeedOneFetch(docs, ds[0], "admin");
    SeedOneFetch(docs, ds[0], "customer");
    SeedOneFetch(mid, ds[1], "admin");
    SeedOneFetch(mid, ds[1], "customer");
  }

  /**
   * Deleting by a string id never removes a role whose id is a driver-assigned ObjectId; in a
   * collection holding only such roles, it removes nothing at all.
   */
  lemma DeleteSparesObjectIds(docs: seq<Role>, id: string)
    ensures forall j :: 0 <= j < |docs| && docs[j].id.ObjectId? ==> docs[j] in DeleteOne(docs, ByRoleId(id))
    ensures (forall j :: 0 <= j < |docs| ==> docs[j].id.ObjectId?) ==> DeleteOne(docs, ByRoleId(id)) == docs
  {
    var r := DeleteOne(docs, ByRoleId(id));
    var m := FirstMatch(docs, ByRoleId(id));
    if m.Some? {
      forall j | 0 <= j < |docs| && docs[j].id.ObjectId? ensures docs[j] in r {
        assert j != m.value;
        if j < m.value {
          assert r[j] == docs[j];
        } else {
          assert r[j - 1] == docs[j];
        }
      }
    }
  }

  /** Seeding an empty collection with the two defaults stores exactly the two defaults. */
  lemma SeedDefaultsIntoEmpty(adminOid: string, customerOid: string, now: int)
    ensures Seed([], DefaultRoles(adminOid, customerOid, now)) == DefaultRoles(adminOid, customerOid, now)
  {
    var ds := DefaultRoles(adminOid, customerOid, now);
    var first := Seed([], ds[..1]);
    assert ds[..1][0] == ds[0] && ds[..1][..|ds[..1]| - 1] == [];
    assert first == SeedOne(Seed([], []), ds[0]);
    assert first == [ds[0]];
    assert !ByName("customer")(first[0]);
    assert FirstMatch(first, ByName("customer")).None?;
    assert ds[..2] == ds;
    assert Seed([], ds) == SeedOne(first, ds[1]) == [ds[0], ds[1]] == ds;
  }

  /**
   * The seeded roles cannot be deleted through `deleteRole`: after seeding an empty
   * collection, deleting by any string id, the ObjectIds' own hex text included, leaves the
   * collection as it was.
   */
  lemma SeededRolesSurviveDelete(adminOid: string, customerOid: string, now: int, id: string)
    ensures var seeded := Seed([], DefaultRoles(adminOid, customerOid, now));
      |seeded| == 2 && DeleteOne(seeded, ByRoleId(id)) == seeded
  {
    SeedDefaultsIntoEmpty(adminOid, customerOid, now);
    DeleteSparesObjectIds(Seed([], DefaultRoles(adminOid, customerOid, now)), id);
  }

  /** The roles collection and the `appConfig` flag that records that seeding has run. */
  class RoleStore {
    var docs: seq<Role>
    var defaultRolesInitialized: bool

    constructor ()
      ensures docs == [] && !defaultRolesInitialized
    {
      docs := [];
      defaultRolesInitialized := false;
    }

    /** `createRole`: validate, then insert one record. Names are not checked for uniqueness. */
    method CreateRole(input: RoleInput, freshId: string, now: int) returns (issues: seq<Issue>)
      modifies this
      ensures issues == RoleIssues(input)
      ensures issues != [] ==> docs == old(docs)
      ensures issues == [] ==> docs == old(docs) + [NewRole(input, freshId, now)]
      ensures defaultRolesInitialized == old(defaultRolesInitialized)
    {
      issues := RoleIssues(input);
      if issues == [] {
        docs := docs + [NewRole(input, freshId, now)];
      }
    }

    /**
     * `createDefaultRoles`: unless the flag is already set, insert each default role whose
     * name is not yet taken, then set the flag.
     */
    method CreateDefaultRoles(adminOid: string, customerOid: string, now: int)
      modifies this
      ensures old(defaultRolesInitialized) ==> docs == old(docs)
      ensures !old(defaultRolesInitialized) ==> docs == Seed(old(docs), DefaultRoles(adminOid, customerOid, now))
      ensures defaultRolesInitialized
    {
      if defaultRolesInitialized {
        return;
      }
      var defaults := DefaultRoles(adminOid, customerOid, now);
      for i := 0 to |defaults|
        invariant docs == Seed(old(docs), defaults[..i])
      {
        assert defaults[..i + 1][..i] == defaults[..i];
        var existing := FindOne(docs, ByName(defaults[i].name));
        if existing.None? {
          docs := docs + [defaults[i]];
        }
      }
      assert defaults[..|defaults|] == defaults;
      defaultRolesInitialized := true;
    }

    /** `deleteRole`: remove the record with that id. */
    method DeleteRole(id: string)
      modifies this
      ensures docs == DeleteOne(old(docs), ByRoleId(id))
      ensures defaultRolesInitialized == old(defaultRolesInitialized)
    {
      docs := DeleteOne(docs, ByRoleId(id));
    }
  }
}
