/**
 * The route guard `checkRouteAccess(routeKey)`: admins pass; any other role passes exactly
 * when `routeKey` is in the cached set `{role}-backendRoutes`, which is filled from the role
 * store the first time it is missing and never refreshed while it exists.
 */
module ProtectRoute {
  import opened Common
  import opened Redis
  import opened RoleModel

  /** What the guard does with the request: pass it on, answer with a refusal, or answer 500. */
  datatype Verdict = Pass | Refuse(status: int, message: string) | InternalError

  /** The verdict and the cache the guard leaves behind. */
  datatype GuardResult = GuardResult(verdict: Verdict, cache: Keyspace)

  const NoRoleMessage := "Role is required to access this route."
  const RoleNotFoundMessage := "Role not found."
  const NoRoutesMessage := "No routes assigned to this role."
  const NotPermittedMessage := "Not permitted to access this route."

  /** The cache key of a role's backend access keys. */
  function RoutesKey(role: string): string {
    role + "-backendRoutes"
  }

  /** The final membership test on the cached set. */
  function Membership(cache: Keyspace, key: string, routeKey: string, now: int): (r: GuardResult)
    ensures r.cache == cache
    ensures r.verdict == Pass <==> SIsMember(cache, key, routeKey, now) == Ok(true)
    ensures SIsMember(cache, key, routeKey, now) == Ok(false) ==> r.verdict == Refuse(403, NotPermittedMessage)
  {
    match SIsMember(cache, key, routeKey, now)
    case WrongType => GuardResult(InternalError, cache)
    case Ok(member) => GuardResult(if member then Pass else Refuse(403, NotPermittedMessage), cache)
  }

  /**
   * One run of the guard for `routeKey` on a request carrying `role`, against the cache and
   * the role store at `now`. A key of the wrong type is deleted, but the same run has
   * already decided it is not missing, so it goes straight to the membership test.
   */
  function RouteAccess(cache: Keyspace, roles: seq<Role>, role: Option<string>, routeKey: string, now: int): (r: GuardResult)
    ensures !Truthy(role) ==> r == GuardResult(Refuse(400, NoRoleMessage), cache)
    ensures role == Some(AdminRole) ==> r == GuardResult(Pass, cache)
    ensures r.verdict == Pass <==>
      Truthy(role) && (role.value == AdminRole || SIsMember(r.cache, RoutesKey(role.value), routeKey, now) == Ok(true))
    ensures r.verdict != InternalError
  {
    if !Truthy(role) then GuardResult(Refuse(400, NoRoleMessage), cache)
    else if role.value == AdminRole then GuardResult(Pass, cache)
    else
      var key := RoutesKey(role.value);
      var keyType := TypeName(cache, key, now);
      var cleared := if keyType != "set" && keyType != "none" then Del(cache, key) else cache;
      if keyType == "none" then
        match FetchRoleByName(roles, role.value)
        case None => GuardResult(Refuse(403, RoleNotFoundMessage), cleared)
        case Some(info) =>
          if |info.backendRoutes| == 0 then GuardResult(Refuse(403, NoRoutesMessage), cleared)
          else
            match SAdd(cleared, key, info.backendRoutes, now)
            case WrongType => GuardResult(InternalError, cleared)
            case Ok(filled) => Membership(filled, key, routeKey, now)
      else
        Membership(cleared, key, routeKey, now)
  }

  /**
   * On a miss the role store decides: an unknown role and a role without backend keys are
   * refused with the cache untouched; otherwise the set is created, without expiry, holding
   * exactly the role's backend keys, and the request passes iff `routeKey` is one of them.
   */
  lemma PopulateOnMiss(cache: Keyspace, roles: seq<Role>, role: string, routeKey: string, now: int)
    requires role != "" && role != AdminRole
    requires Lookup(cache, RoutesKey(role), now).None?
    ensures var r := RouteAccess(cache, roles, Some(role), routeKey, now);
      && (FetchRoleByName(roles, role).None? ==> r == GuardResult(Refuse(403, RoleNotFoundMessage), cache))
      && (FetchRoleByName(roles, role).Some? && |FetchRoleByName(roles, role).value.backendRoutes| == 0 ==>
            r == GuardResult(Refuse(403, NoRoutesMessage), cache))
      && (FetchRoleByName(roles, role).Some? && |FetchRoleByName(roles, role).value.backendRoutes| > 0 ==>
            var routes := FetchRoleByName(roles, role).value.backendRoutes;
            && r.cache == cache[RoutesKey(role) := Entry(Members(Elements(routes)), None)]
            && (r.verdict == Pass <==> routeKey in routes))
  {
  }

  /**
   * A key of the wrong type is deleted and that request is refused with 403; the next
   * request, finding the key missing, fills it from the role store.
   */
  lemma WrongTypeDeniesThenHeals(cache: Keyspace, roles: seq<Role>, role: string, routeKey: string, now: int, later: int)
    requires role != "" && role != AdminRole
    requires Lookup(cache, RoutesKey(role), now).Some? && !Lookup(cache, RoutesKey(role), now).value.Members?
    requires FetchRoleByName(roles, role).Some? && |FetchRoleByName(roles, role).value.backendRoutes| > 0
    ensures var first := RouteAccess(cache, roles, Some(role), routeKey, now);
      && first == GuardResult(Refuse(403, NotPermittedMessage), Del(cache, RoutesKey(role)))
      && var second := RouteAccess(first.cache, roles, Some(role), routeKey, later);
         (second.verdict == Pass <==> routeKey in FetchRoleByName(roles, role).value.backendRoutes)
  {
    var first := RouteAccess(cache, roles, Some(role), routeKey, now);
    assert first.cache == Del(cache, RoutesKey(role));
    DelThenLookup(cache, RoutesKey(role), later);
    PopulateOnMiss(first.cache, roles, role, routeKey, later);
  }

  /**
   * A live cached set is used as it is: the role store is not read, the cache is not
   * changed, and the verdict is membership in the cached set, however the role's routes
   * have since been edited.
   */
  lemma CachedSetIsNotReread(cache: Keyspace, roles: seq<Role>, edited: seq<Role>, role: string, routeKey: string, now: int)
    requires role != "" && role != AdminRole
    requires Lookup(cache, RoutesKey(role), now).Some? && Lookup(cache, RoutesKey(role), now).value.Members?
    ensures RouteAccess(cache, roles, Some(role), routeKey, now) == RouteAccess(cache, edited, Some(role), routeKey, now)
    ensures RouteAccess(cache, roles, Some(role), routeKey, now).cache == cache
    ensures RouteAccess(cache, roles, Some(role), routeKey, now).verdict == Pass <==>
      routeKey in Lookup(cache, RoutesKey(role), now).value.items
  {
  }

  /** With the seeded roles and an empty cache, a customer may reach "GetUserOrders" but not "AddUser". */
  lemma SeededCustomerAccess(adminOid: string, customerOid: string, created: int, now: int)
    ensures var roles := Seed([], DefaultRoles(adminOid, customerOid, created));
      && RouteAccess(map[], roles, Some("customer"), "GetUserOrders", now).verdict == Pass
      && RouteAccess(map[], roles, Some("customer"), "AddUser", now).verdict == Refuse(403, NotPermittedMessage)
  {
    var roles := Seed([], DefaultRoles(adminOid, customerOid, created));
    SeededRoutes([], adminOid, customerOid, created);
    var routes := ["GetUserOrders", "GetProductDetails"];
    assert FetchRoleByName(roles, "customer") == Some(RouteLists(["/home", "/profile", "/orders"], routes));
    PopulateOnMiss(map[], roles, "customer", "GetUserOrders", now);
    PopulateOnMiss(map[], roles, "customer", "AddUser", now);
    assert "AddUser" !in routes;
  }

  /**
   * The guard as a step-by-step sequence of cache commands against the client: `TYPE`, a
   * `DEL` for a key of the wrong type, on a miss the role lookup and `SADD`, then `SISMEMBER`.
   */
  method CheckRouteAccess(redis: Client, roles: seq<Role>, role: Option<string>, routeKey: string, now: int)
    returns (verdict: Verdict)
    modifies redis
    ensures verdict == RouteAccess(old(redis.data), roles, role, routeKey, now).verdict
    ensures redis.data == RouteAccess(old(redis.data), roles, role, routeKey, now).cache
  {
    if !Truthy(role) {
      return Refuse(400, NoRoleMessage);
    }
    if role.value == AdminRole {
      return Pass;
    }
    var key := RoutesKey(role.value);
    var keyType := TypeName(redis.data, key, now);
    if keyType != "set" && keyType != "none" {
      redis.Delete(key);
    }
    if keyType == "none" {
      var roleInfo := FetchRoleByName(roles, role.value);
      if roleInfo.None? {
        return Refuse(403, RoleNotFoundMessage);
      }
      if |roleInfo.value.backendRoutes| > 0 {
        var ok := redis.AddMembers(key, roleInfo.value.backendRoutes, now);
        if !ok {
          return InternalError;
        }
      } else {
        return Refuse(403, NoRoutesMessage);
      }
    }
    var hasAccess := SIsMember(redis.data, key, routeKey, now);
    if hasAccess.WrongType? {
      return InternalError;
    }
    if !hasAccess.value {
      return Refuse(403, NotPermittedMessage);
    }
    verdict := Pass;
  }
}
