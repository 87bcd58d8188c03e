/**
 * The role endpoints: check the request fields, then require the requesting user to exist
 * and to hold the "admin" role, then create or delete one role.
 */
module RoleController {
  import opened Common
  import opened Zod
  import opened UserModel
  import opened Collection
  import opened RoleModel
  import opened Http

  /** The body of a create-role request; each field may be missing. */
  datatype RoleBody = RoleBody(name: Option<string>, backendRoutes: Option<seq<string>>, frontendRoutes: Option<seq<string>>)

  /** The outcome of the admin check. */
  datatype Gate = Allowed | Denied(reply: Reply)

  /** An unknown requesting user gets 404, a non-admin 403; only an admin passes. */
  function AdminGate(users: seq<User>, userId: Option<string>): (g: Gate)
    ensures g == Allowed <==> FindUserById(users, userId).Some? && FindUserById(users, userId).value.role == AdminRole
    ensures FindUserById(users, userId).None? ==> g == Denied(Refusal(404, "User not found."))
    ensures FindUserById(users, userId).Some? && FindUserById(users, userId).value.role != AdminRole ==>
      g == Denied(Refusal(403, "Unauthorized access."))
  {
    match FindUserById(users, userId)
    case None => Denied(Refusal(404, "User not found."))
    case Some(user) => if user.role != AdminRole then Denied(Refusal(403, "Unauthorized access.")) else Allowed
  }

  /** A present array is truthy even when empty, so only a missing field fails the presence check. */
  predicate AllFieldsPresent(body: RoleBody) {
    Truthy(body.name) && body.backendRoutes.Some? && body.frontendRoutes.Some?
  }

  /** The role a complete body asks for. */
  function RequestedRole(body: RoleBody): RoleInput
    requires AllFieldsPresent(body)
  {
    RoleInput(body.name.value, body.frontendRoutes.value, body.backendRoutes.value)
  }

  /**
   * The reply of `createRole`. It is 201 exactly when all fields are present, the requester
   * is an admin and the role schema accepts the body; empty route lists pass the presence
   * check and are rejected by the schema, which the error handler turns into 400.
   */
  function CreateRoleReply(users: seq<User>, userId: Option<string>, body: RoleBody): (r: Reply)
    ensures r == Sent(201, true, "Role created successfully.", NoData) <==>
      AllFieldsPresent(body) && AdminGate(users, userId) == Allowed && RoleIssues(RequestedRole(body)) == []
    ensures !AllFieldsPresent(body) ==> r == Refusal(400, "All fields are required.")
    ensures AllFieldsPresent(body) && AdminGate(users, userId).Denied? ==> r == AdminGate(users, userId).reply
    ensures AllFieldsPresent(body) && AdminGate(users, userId) == Allowed && RoleIssues(RequestedRole(body)) != [] ==>
      r == Failed(ValidationError(RoleIssues(RequestedRole(body))))
  {
    if !AllFieldsPresent(body) then Refusal(400, "All fields are required.")
    else match AdminGate(users, userId)
      case Denied(reply) => reply
      case Allowed =>
        var issues := RoleIssues(RequestedRole(body));
        if issues != [] then Failed(ValidationError(issues))
        else Sent(201, true, "Role created successfully.", NoData)
  }

  /** The reply of `deleteRole`: 400 without a role id, then the admin gate, then 200. */
  function DeleteRoleReply(users: seq<User>, userId: Option<string>, roleId: Option<string>): (r: Reply)
    ensures r == Sent(200, true, "Role deleted successfully.", NoData) <==>
      Truthy(roleId) && AdminGate(users, userId) == Allowed
    ensures !Truthy(roleId) ==> r == Refusal(400, "Role ID is required.")
    ensures Truthy(roleId) && AdminGate(users, userId).Denied? ==> r == AdminGate(users, userId).reply
  {
    if !Truthy(roleId) then Refusal(400, "Role ID is required.")
    else match AdminGate(users, userId)
      case Denied(reply) => reply
      case Allowed => Sent(200, true, "Role deleted successfully.", NoData)
  }

  /**
   * Deleting a seeded role reports success and deletes nothing: for an admin, a request
   * naming the seeded "customer" role by its ObjectId's hex text is answered 200, and the
   * seeded collection is left as it was, since the string filter cannot match an ObjectId.
   */
  lemma SeededRoleDeleteIsNoop(users: seq<User>, userId: Option<string>, adminOid: string, customerOid: string, now: int)
    requires AdminGate(users, userId) == Allowed && customerOid != ""
    ensures DeleteRoleReply(users, userId, Some(customerOid)) == Sent(200, true, "Role deleted successfully.", NoData)
    ensures var seeded := Seed([], DefaultRoles(adminOid, customerOid, now));
      DeleteOne(seeded, ByRoleId(customerOid)) == seeded
  {
    SeededRolesSurviveDelete(adminOid, customerOid, now, customerOid);
  }

  /** The role endpoints, reading the users collection and changing the roles collection. */
  class RoleEndpoints {
    const users: UserCollection
    const roles: RoleStore

    constructor (users: UserCollection, roles: RoleStore)
      ensures this.users == users && this.roles == roles
    {
      this.users := users;
      this.roles := roles;
    }

    /** `createRole`: the role store changes, by exactly the new role, only on a 201. */
    method CreateRole(userId: Option<string>, body: RoleBody, freshId: string, now: int) returns (reply: Reply)
      modifies roles
      ensures reply == CreateRoleReply(users.docs, userId, body)
      ensures reply.Sent? && reply.status == 201 ==> roles.docs == old(roles.docs) + [NewRole(RequestedRole(body), freshId, now)]
      ensures !(reply.Sent? && reply.status == 201) ==> roles.docs == old(roles.docs)
      ensures roles.defaultRolesInitialized == old(roles.defaultRolesInitialized)
    {
      if !AllFieldsPresent(body) {
        return Refusal(400, "All fields are required.");
      }
      var user := FindUserById(users.docs, userId);
      if user.None? {
        return Refusal(404, "User not found.");
      }
      if user.value.role != AdminRole {
        return Refusal(403, "Unauthorized access.");
      }
      var issues := roles.CreateRole(RequestedRole(body), freshId, now);
      if issues != [] {
        return Failed(ValidationError(issues));
      }
      reply := Sent(201, true, "Role created successfully.", NoData);
    }

    /** `deleteRole`: the record with that id is removed only on a 200. */
    method DeleteRole(userId: Option<string>, roleId: Option<string>) returns (reply: Reply)
      modifies roles
      ensures reply == DeleteRoleReply(users.docs, userId, roleId)
      ensures reply.Sent? && reply.status == 200 ==> roles.docs == DeleteOne(old(roles.docs), ByRoleId(roleId.value))
      ensures !(reply.Sent? && reply.status == 200) ==> roles.docs == old(roles.docs)
      ensures roles.defaultRolesInitialized == old(roles.defaultRolesInitialized)
    {
      if !Truthy(roleId) {
        return Refusal(400, "Role ID is required.");
      }
      var user := FindUserById(users.docs, userId);
      if user.None? {
        return Refusal(404, "User not found.");
      }
      if user.value.role != AdminRole {
        return Refusal(403, "Unauthorized access.");
      }
      roles.DeleteRole(roleId.value);
      reply := Sent(200, true, "Role deleted successfully.", NoData);
    }
  }
}
