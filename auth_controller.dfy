/**
 * The account and session endpoints. Each handler is a short sequence of reads and writes
 * against the users and bans collections and the cache, ending in one reply. Every handler
 * is given first as a function from the stores before the request to the reply, the stores
 * after it and the writes it issued, in order; the class at the end runs the same steps
 * one command at a time against the stores and is proved to agree with those functions.
 *
 * Password hashing and comparison, access-token signing, e-mail syntax and the random
 * refresh token are parameters. The clock is the millisecond instant `now`.
 */
module AuthController {
  import opened Common
  import opened Strings
  import opened Zod
  import opened Errors
  import opened ErrorHandler
  import opened Collection
  import opened Redis
  import opened UserModel
  import opened BanModel
  import opened Http

  /** The two durable collections and the cache, as one request sees them. */
  datatype Stores = Stores(users: seq<User>, bans: seq<Ban>, cache: Keyspace)

  /** A write a handler issues, in the order it issues them. */
  datatype Write =
    | UserInsert(id: string)
    | BanRecordWrite(userId: string)
    | CacheSet(key: string)
    | CacheDelete(key: string)

  /** What a handler does: its reply, the stores afterwards, and its writes in order. */
  datatype Outcome = Outcome(reply: Reply, after: Stores, writes: seq<Write>)

  /** The payload of an access token: user id, role and expiry in seconds since the epoch. */
  datatype AccessClaims = AccessClaims(id: Option<string>, role: Option<string>, exp: int)

  /** The operations the handlers delegate to libraries. */
  datatype Externals = Externals(
    isEmail: string -> bool,
    hash: string -> string,
    compare: (string, string) -> bool,
    sign: AccessClaims -> string)

  /** Refresh tokens live for 30 days in the cache. */
  const RefreshTtl: nat := 30 * 24 * 60 * 60

  /** Access tokens expire 24 hours after issue; the expiry is in whole seconds. */
  function AccessExpiry(now: int): int {
    now / 1000 + 24 * 60 * 60
  }

  const DefaultRole := "customer"
  const BannedMarker := "true"

  /** The error the cache raises for a string command on a key of another type. */
  const WrongTypeError := Error(Plain, "WRONGTYPE Operation against a key holding the wrong kind of value", None)

  function RefreshKey(userId: string): string {
    userId + "-refresh"
  }

  function BannedKey(userId: string): string {
    userId + "-banned"
  }

  /** A reply that leaves every store as it was. */
  function Unchanged(s: Stores, reply: Reply): (o: Outcome)
    ensures o.after == s && o.writes == [] && o.reply == reply
  {
    Outcome(reply, s, [])
  }

  predicate SentWith(r: Reply, status: int) {
    r.Sent? && r.status == status
  }

  /** The access token issued for a user at `now`. */
  function AccessToken(x: Externals, userId: Option<string>, role: Option<string>, now: int): string {
    x.sign(AccessClaims(userId, role, AccessExpiry(now)))
  }

  // ---------------------------------------------------------------------------------------
  // Registration and adding users

  /**
   * Creating an account after the presence and uniqueness checks: hash the password, let the
   * user schema check the record, insert it, and (for self-registration) store a fresh
   * refresh token for 30 days.
   */
  function CreateAccount(email: string, password: string, name: string, role: string,
                         x: Externals, freshId: string, now: int): Parsed<User>
  {
    var input := UserInput(email, x.hash(password), Some(name), role, false);
    var issues := UserIssues(input, x.isEmail);
    if issues != [] then Invalid(issues) else Done(NewUser(input, freshId, now))
  }

  /** `Register`: a new "customer" account, signed in at once. */
  function RegisterStep(s: Stores, email: Option<string>, password: Option<string>, name: Option<string>,
                        x: Externals, freshId: string, refreshToken: string, now: int): (o: Outcome)
  {
    if !Truthy(email) || !Truthy(password) || !Truthy(name) then
      Unchanged(s, Refusal(400, "All fields are required."))
    else if FindUserByEmail(s.users, email.value).Some? then
      Unchanged(s, Refusal(400, "Email is already taken."))
    else
      match CreateAccount(email.value, password.value, name.value, DefaultRole, x, freshId, now)
      case Invalid(issues) => Unchanged(s, Failed(ValidationError(issues)))
      case Done(user) =>
        var key := RefreshKey(user.id);
        Outcome(
          Sent(201, true, "Registration successful", Session(AccessToken(x, Some(user.id), Some(user.role), now), user)),
          s.(users := s.users + [user], cache := SetText(s.cache, key, refreshToken, Some(RefreshTtl), now)),
          [UserInsert(user.id), CacheSet(key)])
  }

  /** `AddUser`: a new account with the given role, "customer" when none is given; no session. */
  function AddUserStep(s: Stores, email: Option<string>, password: Option<string>, name: Option<string>,
                       role: Option<string>, x: Externals, freshId: string, now: int): (o: Outcome)
  {
    if !Truthy(email) || !Truthy(password) || !Truthy(name) then
      Unchanged(s, Refusal(400, "Email, password, and name are required."))
    else if FindUserByEmail(s.users, email.value).Some? then
      Unchanged(s, Refusal(400, "Email is already taken."))
    else
      match CreateAccount(email.value, password.value, name.value, if Truthy(role) then role.value else DefaultRole, x, freshId, now)
      case Invalid(issues) => Unchanged(s, Failed(ValidationError(issues)))
      case Done(user) =>
        Outcome(Sent(201, true, "User added successfully.", UserData(user)), s.(users := s.users + [user]), [UserInsert(user.id)])
  }

  /**
   * Registration and adding a user never create a second account for an e-mail address that
   * is already stored: that request writes nothing. A successful registration stores an
   * unverified "customer" whose id is the fresh one, and its refresh token under
   * `{id}-refresh` with a 30-day time to live; adding a user stores the requested role, or
   * "customer" when none is given, and touches no cache key.
   */
  lemma AccountCreation(s: Stores, email: Option<string>, password: Option<string>, name: Option<string>,
                        role: Option<string>, x: Externals, freshId: string, refreshToken: string, now: int)
    ensures var reg := RegisterStep(s, email, password, name, x, freshId, refreshToken, now);
      && (Truthy(email) && FindUserByEmail(s.users, email.value).Some? ==>
            reg == Unchanged(s, Refusal(400, "Email is already taken.")) || reg == Unchanged(s, Refusal(400, "All fields are required.")))
      && (SentWith(reg.reply, 201) <==>
            && Truthy(email) && Truthy(password) && Truthy(name) && FindUserByEmail(s.users, email.value).None?
            && UserIssues(UserInput(email.value, x.hash(password.value), name, DefaultRole, false), x.isEmail) == [])
      && (SentWith(reg.reply, 201) ==>
            && reg.reply.data.user.role == DefaultRole && !reg.reply.data.user.isVerified
            && reg.reply.data.user.password == x.hash(password.value) && reg.reply.data.user.name == name
            && reg.reply.data.user.id == freshId && reg.reply.data.user.email == email.value
            && reg.after.users == s.users + [reg.reply.data.user]
            && reg.after.cache == SetText(s.cache, RefreshKey(freshId), refreshToken, Some(RefreshTtl), now)
            && reg.after.bans == s.bans
            && reg.writes == [UserInsert(freshId), CacheSet(RefreshKey(freshId))])
      && (!SentWith(reg.reply, 201) ==> reg.after == s && reg.writes == [])
    ensures var add := AddUserStep(s, email, password, name, role, x, freshId, now);
      && (Truthy(email) && FindUserByEmail(s.users, email.value).Some? ==>
            add.after == s && add.writes == [])
      && (SentWith(add.reply, 201) ==>
            && add.reply.data.user.role == (if Truthy(role) then role.value else DefaultRole)
            && add.reply.data.user.id == freshId && add.reply.data.user.password == x.hash(password.value)
            && !add.reply.data.user.isVerified
            && add.after == s.(users := s.users + [add.reply.data.user])
            && add.writes == [UserInsert(freshId)])
      && (!SentWith(add.reply, 201) ==> add.after == s && add.writes == [])
  {
  }

  // ---------------------------------------------------------------------------------------
  // Signing in, refreshing, signing out, validating

  /** `Login`: presence, then the user, then the ban marker, then the password. */
  function LoginStep(s: Stores, email: Option<string>, password: Option<string>,
                     x: Externals, refreshToken: string, now: int): (o: Outcome)
  {
    if !Truthy(email) || !Truthy(password) then
      Unchanged(s, Refusal(400, "Email and password are required."))
    else
      match FindUserByEmail(s.users, email.value)
      case None => Unchanged(s, Sent(400, false, "Invalid Email", TypeHint("email")))
      case Some(user) =>
        match Get(s.cache, BannedKey(user.id), now)
        case WrongType => Unchanged(s, Failed(WrongTypeError))
        case Ok(marker) =>
          if Truthy(marker) then Unchanged(s, Refusal(403, "Your account is banned."))
          else if !x.compare(password.value, user.password) then
            Unchanged(s, Sent(400, false, "Invalid Password.", TypeHint("password")))
          else
            var key := RefreshKey(user.id);
            Outcome(
              Sent(200, true, "Login successful", Session(AccessToken(x, Some(user.id), Some(user.role), now), user)),
              s.(cache := SetText(s.cache, key, refreshToken, Some(RefreshTtl), now)),
              [CacheSet(key)])
  }

  /** The ban marker of a user is set (a non-empty string) at `now`. */
  predicate MarkerSet(cache: Keyspace, userId: string, now: int) {
    Get(cache, BannedKey(userId), now).Ok? && Truthy(Get(cache, BannedKey(userId), now).value)
  }

  /**
   * The order of the login checks: an unknown e-mail is refused with type "email"; a user
   * with a ban marker is refused with 403 whatever the password, since the password is
   * compared only afterwards; a wrong password is refused with type "password"; success
   * overwrites `{id}-refresh` with the new token for 30 days and changes nothing else.
   */
  lemma LoginOrder(s: Stores, email: string, password: string, x: Externals, refreshToken: string, now: int,
                   otherCompare: (string, string) -> bool)
    requires email != "" && password != ""
    ensures var o := LoginStep(s, Some(email), Some(password), x, refreshToken, now);
      && (FindUserByEmail(s.users, email).None? ==> o == Unchanged(s, Sent(400, false, "Invalid Email", TypeHint("email"))))
      && (FindUserByEmail(s.users, email).Some? ==>
            var user := FindUserByEmail(s.users, email).value;
            && (MarkerSet(s.cache, user.id, now) ==>
                  o == Unchanged(s, Refusal(403, "Your account is banned.")) &&
                  o == LoginStep(s, Some(email), Some(password), x.(compare := otherCompare), refreshToken, now))
            && (Get(s.cache, BannedKey(user.id), now) == Ok(None) && !x.compare(password, user.password) ==>
                  o == Unchanged(s, Sent(400, false, "Invalid Password.", TypeHint("password"))))
            && (SentWith(o.reply, 200) <==>
                  Get(s.cache, BannedKey(user.id), now).Ok? && !MarkerSet(s.cache, user.id, now) && x.compare(password, user.password))
            && (SentWith(o.reply, 200) ==>
                  && o.after == s.(cache := SetText(s.cache, RefreshKey(user.id), refreshToken, Some(RefreshTtl), now))
                  && o.writes == [CacheSet(RefreshKey(user.id))]
                  && o.reply.data == Session(AccessToken(x, Some(user.id), Some(user.role), now), user)))
  {
  }

  /** `regenerateAccessToken`: a new access token only for the exact stored refresh token. */
  function RegenerateStep(s: Stores, userId: Option<string>, role: Option<string>, refreshToken: Option<string>,
                          x: Externals, now: int): (o: Outcome)
    ensures o.after == s && o.writes == []
    ensures SentWith(o.reply, 200) <==>
      Truthy(refreshToken) && Get(s.cache, RefreshKey(Interpolate(userId)), now) == Ok(Some(refreshToken.value))
    ensures Truthy(refreshToken) && Get(s.cache, RefreshKey(Interpolate(userId)), now).Ok? &&
            Get(s.cache, RefreshKey(Interpolate(userId)), now) != Ok(Some(refreshToken.value)) ==>
              o.reply == Refusal(403, "Invalid refresh token.")
  {
    if !Truthy(refreshToken) then Unchanged(s, Refusal(400, "Refresh token is required."))
    else
      match Get(s.cache, RefreshKey(Interpolate(userId)), now)
      case WrongType => Unchanged(s, Failed(WrongTypeError))
      case Ok(stored) =>
        if stored != Some(refreshToken.value) then Unchanged(s, Refusal(403, "Invalid refresh token."))
        else Unchanged(s, Sent(200, true, "Access token regenerated.", TokenData(AccessToken(x, userId, role, now))))
  }

  /** `Logout`: delete the refresh token of the request's user, whether or not one exists. */
  function LogoutStep(s: Stores, userId: Option<string>): (o: Outcome)
    ensures o.reply == Sent(200, true, "Logged out successfully.", NoData)
    ensures o.after == s.(cache := Del(s.cache, RefreshKey(Interpolate(userId))))
    ensures o.writes == [CacheDelete(RefreshKey(Interpolate(userId)))]
  {
    var key := RefreshKey(Interpolate(userId));
    Outcome(Sent(200, true, "Logged out successfully.", NoData), s.(cache := Del(s.cache, key)), [CacheDelete(key)])
  }

  /**
   * The refresh-token session: a refresh token issued by a successful login is accepted
   * until 30 days have passed, and any other token is refused meanwhile; once the user logs
   * out, every refresh attempt is refused.
   */
  lemma LoginThenRefresh(s: Stores, email: string, password: string, x: Externals, refreshToken: string,
                         now: int, t: int, presented: string, role: Option<string>)
    requires email != "" && password != "" && refreshToken != "" && presented != ""
    requires SentWith(LoginStep(s, Some(email), Some(password), x, refreshToken, now).reply, 200)
    requires now <= t
    ensures var user := FindUserByEmail(s.users, email).value;
      var after := LoginStep(s, Some(email), Some(password), x, refreshToken, now).after;
      && (t <= now + RefreshTtl * 1000 ==>
            (SentWith(RegenerateStep(after, Some(user.id), role, Some(presented), x, t).reply, 200) <==> presented == refreshToken))
      && !SentWith(RegenerateStep(LogoutStep(after, Some(user.id)).after, Some(user.id), role, Some(presented), x, t).reply, 200)
  {
    var user := FindUserByEmail(s.users, email).value;
    var after := LoginStep(s, Some(email), Some(password), x, refreshToken, now).after;
    SetThenGet(s.cache, RefreshKey(user.id), refreshToken, Some(RefreshTtl), now, t);
    DelThenLookup(after.cache, RefreshKey(user.id), t);
  }

  /**
   * Without an authenticated user id the key is "undefined-refresh": signing out deletes no
   * user's token, and a refresh can succeed only if that literal key holds the token.
   */
  lemma MissingUserId(s: Stores, refreshToken: string, x: Externals, now: int, id: string)
    requires refreshToken != "" && id != "undefined"
    ensures Lookup(LogoutStep(s, None).after.cache, RefreshKey(id), now) == Lookup(s.cache, RefreshKey(id), now)
    ensures SentWith(RegenerateStep(s, None, None, Some(refreshToken), x, now).reply, 200) ==>
      Get(s.cache, "undefined-refresh", now) == Ok(Some(refreshToken))
  {
    assert RefreshKey(Interpolate(None)) == "undefined-refresh";
    if |id| == 9 {
      assert RefreshKey(id)[..9] == id;
      assert "undefined-refresh"[..9] == "undefined";
    }
  }

  /** `Validate`: the token's user must not be banned and must exist. */
  function ValidateStep(s: Stores, userId: Option<string>, data: Option<string>, now: int): (o: Outcome)
    ensures o.after == s && o.writes == []
    ensures SentWith(o.reply, 200) <==>
      Truthy(userId) && Get(s.cache, BannedKey(userId.value), now).Ok? && !MarkerSet(s.cache, userId.value, now) &&
      FindUserById(s.users, userId).Some?
    ensures Truthy(userId) && MarkerSet(s.cache, userId.value, now) ==>
      o.reply == Sent(401, false, "User is blacklisted and cannot access the system.", LogoutHint)
    ensures SentWith(o.reply, 200) ==>
      o.reply.data == if Truthy(data) then UserData(FindUserById(s.users, userId).value)
                      else RoleData(FindUserById(s.users, userId).value.role)
  {
    if !Truthy(userId) then Unchanged(s, Refusal(400, "User ID is missing from the token."))
    else
      match Get(s.cache, BannedKey(userId.value), now)
      case WrongType => Unchanged(s, Failed(WrongTypeError))
      case Ok(marker) =>
        if Truthy(marker) then Unchanged(s, Sent(401, false, "User is blacklisted and cannot access the system.", LogoutHint))
        else
          match FindUserById(s.users, userId)
          case None => Unchanged(s, Sent(404, false, "User not found.", LogoutHint))
          case Some(user) =>
            Unchanged(s, Sent(200, true, "Token validated", if Truthy(data) then UserData(user) else RoleData(user.role)))
  }

  // ---------------------------------------------------------------------------------------
  // Banning

  /** The value a duration code looks up: seconds, infinity, or undefined for an unknown code. */
  datatype Span = Seconds(n: nat) | Forever | NotANumber | Undefined

  /** The duration table. */
  const ExpirationMap: map<string, Span> := map[
    "30s" := Seconds(30),
    "1h" := Seconds(1 * 60 * 60),
    "6h" := Seconds(6 * 60 * 60),
    "7d" := Seconds(7 * 24 * 60 * 60),
    "2w" := Seconds(14 * 24 * 60 * 60),
    "1m" := Seconds(30 * 24 * 60 * 60),
    "3m" := Seconds(90 * 24 * 60 * 60),
    "6m" := Seconds(180 * 24 * 60 * 60),
    "forever" := Forever]

  /**
   * The names every plain object inherits. Looking one up in the duration table finds a
   * function or an object rather than undefined, and arithmetic on it gives NaN.
   */
  const InheritedNames: set<string> := {
    "constructor", "hasOwnProperty", "isPrototypeOf", "propertyIsEnumerable", "toLocaleString",
    "toString", "valueOf", "__proto__", "__defineGetter__", "__defineSetter__",
    "__lookupGetter__", "__lookupSetter__"}

  /** `expirationMap[duration]`. */
  function Duration(code: string): (d: Span)
    ensures d.Seconds? ==> d.n > 0
  {
    if code in ExpirationMap then ExpirationMap[code]
    else if code in InheritedNames then NotANumber
    else Undefined
  }

  /**
   * The duration table accepts exactly the nine codes, with their lengths in seconds and
   * "forever" as no expiry; every other code but the inherited names is undefined.
   */
  lemma DurationTable(code: string)
    ensures Duration(code).Seconds? || Duration(code).Forever? <==>
      code in {"30s", "1h", "6h", "7d", "2w", "1m", "3m", "6m", "forever"}
    ensures Duration("30s") == Seconds(30) && Duration("1h") == Seconds(3600) && Duration("6h") == Seconds(21600)
    ensures Duration("7d") == Seconds(604800) && Duration("2w") == Seconds(1209600)
    ensures Duration("1m") == Seconds(2592000) && Duration("3m") == Seconds(7776000)
    ensures Duration("6m") == Seconds(15552000) && Duration("forever") == Forever
    ensures Duration(code) == Undefined <==> code !in ExpirationMap && code !in InheritedNames
  {
  }

  /** The event's end: `now` plus the duration, none for "forever", the invalid date for NaN. */
  function EventExpiry(span: Span, now: int): Option<Date>
    requires !span.Undefined?
  {
    match span
    case Seconds(n) => Some(At(now + n * 1000))
    case Forever => None
    case NotANumber => Some(InvalidDate)
  }

  /** The body `BanUser` hands to the ban model: one event, whose end is also the record's. */
  function BanRequest(userId: string, reason: string, span: Span, now: int): BanInput
    requires !span.Undefined?
  {
    BanInput(userId, [BanEvent(At(now), EventExpiry(span, now), reason)], EventExpiry(span, now))
  }

  /** The marker's time to live: the duration in seconds, none for "forever". */
  function MarkerTtl(span: Span): (ttl: Option<nat>)
    ensures ttl.Some? ==> ttl.value > 0
  {
    if span.Seconds? && span.n > 0 then Some(span.n) else None
  }

  /** `BanUser`: record the ban durably, then set the cache marker with the same lifetime. */
  function BanUserStep(s: Stores, userId: Option<string>, reason: Option<string>, duration: Option<string>,
                       freshId: string, now: int): (o: Outcome)
  {
    if !Truthy(userId) || !Truthy(reason) || !Truthy(duration) then
      Unchanged(s, Refusal(400, "User ID, reason, and duration are required."))
    else
      var span := Duration(duration.value);
      if span.Undefined? then Unchanged(s, Refusal(400, "Invalid ban duration."))
      else
        var input := BanRequest(userId.value, reason.value, span, now);
        var issues := BanIssues(input);
        if issues != [] then Unchanged(s, Failed(ValidationError(issues)))
        else
          var key := BannedKey(userId.value);
          Outcome(
            Sent(200, true, "User banned for " + duration.value + ".", NoData),
            s.(bans := ApplyBan(s.bans, input, freshId, now), cache := SetText(s.cache, key, BannedMarker, MarkerTtl(span), now)),
            [BanRecordWrite(userId.value), CacheSet(key)])
  }

  /**
   * A ban request missing a field, or naming a code outside the table, is refused with 400
   * and writes nothing. A valid code bans: exactly one event, ending `now` plus the duration
   * (no end for "forever"), is merged into the user's record, and only then is the marker
   * `{userId}-banned` set to "true" with that same duration as its time to live (none for
   * "forever").
   */
  lemma BanUserEffect(s: Stores, userId: Option<string>, reason: Option<string>, duration: Option<string>,
                      freshId: string, now: int)
    ensures var o := BanUserStep(s, userId, reason, duration, freshId, now);
      && (!Truthy(userId) || !Truthy(reason) || !Truthy(duration) ==>
            o == Unchanged(s, Refusal(400, "User ID, reason, and duration are required.")))
      && (Truthy(userId) && Truthy(reason) && Truthy(duration) && Duration(duration.value) == Undefined ==>
            o == Unchanged(s, Refusal(400, "Invalid ban duration.")))
      && (Truthy(userId) && Truthy(reason) && Truthy(duration) &&
          (Duration(duration.value).Seconds? || Duration(duration.value).Forever?) ==>
            var span := Duration(duration.value);
            var expiry := if span.Seconds? then Some(At(now + span.n * 1000)) else None;
            var event := BanEvent(At(now), expiry, reason.value);
            && o.reply == Sent(200, true, "User banned for " + duration.value + ".", NoData)
            && o.after.users == s.users
            && o.after.bans == ApplyBan(s.bans, BanInput(userId.value, [event], expiry), freshId, now)
            && o.after.cache == SetText(s.cache, BannedKey(userId.value), BannedMarker,
                                        if span.Seconds? then Some(span.n) else None, now)
            && o.writes == [BanRecordWrite(userId.value), CacheSet(BannedKey(userId.value))])
  {
    if Truthy(userId) && Truthy(reason) && Truthy(duration) {
      var span := Duration(duration.value);
      if span.Seconds? || span.Forever? {
        assert ValidBan(BanRequest(userId.value, reason.value, span, now));
      }
    }
  }

  /**
   * A code that names an inherited property gives an invalid date: the ban schema rejects
   * both the record's and the event's end, the error handler answers 400 "Validation Error"
   * naming the fields "expiresAt" and "history.0.expiresAt", and nothing is written.
   */
  lemma InheritedNameIsRejected(s: Stores, userId: string, reason: string, code: string, freshId: string, now: int,
                                nodeEnv: Option<string>)
    requires userId != "" && reason != "" && code in InheritedNames
    ensures var o := BanUserStep(s, Some(userId), Some(reason), Some(code), freshId, now);
      && o.after == s && o.writes == []
      && o.reply == Failed(ValidationError(InvalidEndIssues))
      && FinalStatus(o.reply, nodeEnv) == 400
      && HandleDetails(o.reply) == ["expiresAt", "history.0.expiresAt"]
  {
    assert code !in ExpirationMap;
    assert Duration(code) == NotANumber;
    InvalidEndIssuesOf(userId, reason, now);
    InvalidEndFieldNames();
  }

  /** The two issues of an invalid end date: on the record's end and on the first event's end. */
  const InvalidEndIssues: seq<Issue> := [
    FieldIssue("expiresAt", InvalidDateMessage),
    Issue([Key("history"), Index(0), Key("expiresAt")], InvalidDateMessage)]

  lemma InvalidEndIssuesOf(userId: string, reason: string, now: int)
    requires userId != "" && reason != ""
    ensures BanIssues(BanRequest(userId, reason, NotANumber, now)) == InvalidEndIssues
  {
    var input := BanRequest(userId, reason, NotANumber, now);
    assert input.history[1..] == [];
    assert EventIssues(input.history[0], 0) == [InvalidEndIssues[1]];
    assert HistoryIssues(input.history, 0) == [InvalidEndIssues[1]];
    assert BanIssues(input) == [] + [InvalidEndIssues[0]] + [InvalidEndIssues[1]];
  }

  lemma InvalidEndFieldNames()
    ensures FieldName(InvalidEndIssues[0].path) == "expiresAt"
    ensures FieldName(InvalidEndIssues[1].path) == "history.0.expiresAt"
  {
    assert NatToString(0) == "0";
    assert PathTexts(InvalidEndIssues[1].path) == ["history", "0", "expiresAt"];
  }

  /** The field names of the details the error handler reports for a validation failure. */
  function HandleDetails(r: Reply): (fields: seq<string>)
    ensures r.Failed? && r.err.kind.ZodFailure? ==> |fields| == |r.err.kind.issues|
    ensures r.Failed? && r.err.kind.ZodFailure? ==>
      forall i :: 0 <= i < |fields| ==> fields[i] == FieldName(r.err.kind.issues[i].path)
  {
    if r.Failed? && r.err.kind.ZodFailure? then
      var ds := Details(r.err.kind.issues);
      seq(|ds|, i requires 0 <= i < |ds| => ds[i].field)
    else []
  }

  /**
   * The record and the marker of a finite ban end together: the marker blocks logins up to
   * and including the end instant and is gone after it, and exactly from that instant the
   * sweep deactivates the record (both hold at the end millisecond itself). A "forever" ban's marker never expires and its record is never
   * swept.
   */
  lemma BanEndsTogether(s: Stores, userId: string, reason: string, code: string, freshId: string, now: int, t: int)
    requires userId != "" && reason != "" && code != ""
    requires Duration(code).Seconds? || Duration(code).Forever?
    requires now <= t
    ensures var o := BanUserStep(s, Some(userId), Some(reason), Some(code), freshId, now);
      var record := FindBan(o.after.bans, userId).value;
      && FindBan(o.after.bans, userId).Some? && record.active
      && (Duration(code).Seconds? ==>
            var end := now + Duration(code).n * 1000;
            && record.expiresAt == Some(At(end))
            && (MarkerSet(o.after.cache, userId, t) <==> t <= end)
            && (Expired(record, t) <==> t >= end))
      && (Duration(code).Forever? ==>
            record.expiresAt.None? && MarkerSet(o.after.cache, userId, t) && !Expired(record, t))
  {
    BanUserEffect(s, Some(userId), Some(reason), Some(code), freshId, now);
    var span := Duration(code);
    SetThenGet(s.cache, BannedKey(userId), BannedMarker, if span.Seconds? then Some(span.n) else None, now, t);
  }

  /**
   * A ban blocks the user's logins while its marker lives, whatever password is given, and
   * makes token validation answer 401 with a logout hint.
   */
  lemma BanBlocksLogin(s: Stores, userId: string, reason: string, code: string, freshId: string, now: int, t: int,
                       email: string, password: string, x: Externals, refreshToken: string)
    requires userId != "" && reason != "" && code != "" && email != "" && password != ""
    requires Duration(code).Seconds? || Duration(code).Forever?
    requires now <= t && (Duration(code).Seconds? ==> t <= now + Duration(code).n * 1000)
    requires var after := BanUserStep(s, Some(userId), Some(reason), Some(code), freshId, now).after;
      FindUserByEmail(after.users, email).Some? && FindUserByEmail(after.users, email).value.id == userId
    ensures var after := BanUserStep(s, Some(userId), Some(reason), Some(code), freshId, now).after;
      && LoginStep(after, Some(email), Some(password), x, refreshToken, t) == Unchanged(after, Refusal(403, "Your account is banned."))
      && ValidateStep(after, Some(userId), None, t).reply == Sent(401, false, "User is blacklisted and cannot access the system.", LogoutHint)
  {
    BanEndsTogether(s, userId, reason, code, freshId, now, t);
  }

  /** `UnbanUser`: deactivate the durable ban, then delete the marker, whether or not a ban was active. */
  function UnbanUserStep(s: Stores, userId: Option<string>, now: int): (o: Outcome)
    ensures !Truthy(userId) ==> o == Unchanged(s, Refusal(400, "User ID is required."))
    ensures Truthy(userId) ==>
      && o.reply == Sent(200, true, "User unbanned successfully.", NoData)
      && o.after == Stores(s.users, ApplyUnban(s.bans, userId.value, now), Del(s.cache, BannedKey(userId.value)))
      && o.writes == [BanRecordWrite(userId.value), CacheDelete(BannedKey(userId.value))]
  {
    if !Truthy(userId) then Unchanged(s, Refusal(400, "User ID is required."))
    else
      var key := BannedKey(userId.value);
      Outcome(Sent(200, true, "User unbanned successfully.", NoData),
              s.(bans := ApplyUnban(s.bans, userId.value, now), cache := Del(s.cache, key)),
              [BanRecordWrite(userId.value), CacheDelete(key)])
  }

  /**
   * After an unban the marker is gone at every later instant, so the ban no longer stops a
   * login; when each user has one ban record, that record is inactive, and its history and
   * count are kept.
   */
  lemma UnbanLiftsBan(s: Stores, userId: string, now: int, t: int)
    requires userId != ""
    ensures var after := UnbanUserStep(s, Some(userId), now).after;
      && Get(after.cache, BannedKey(userId), t) == Ok(None)
      && !MarkerSet(after.cache, userId, t)
      && (OnePerUser(s.bans) ==> forall j :: 0 <= j < |after.bans| && after.bans[j].userId == userId ==> !after.bans[j].active)
      && |after.bans| == |s.bans|
      && (forall j :: 0 <= j < |s.bans| ==> after.bans[j].history == s.bans[j].history && after.bans[j].count == s.bans[j].count)
  {
    UnbanEffect(s.bans, userId, now);
    DelThenLookup(s.cache, BannedKey(userId), t);
  }

  // ---------------------------------------------------------------------------------------
  // The controller over the live stores

  /** The handlers, holding the users and bans collections and the cache client. */
  class Controller {
    const users: UserCollection
    const bans: BanCollection
    const redis: Client

    /** Every write issued so far, in order. */
    ghost var writes: seq<Write>

    constructor (users: UserCollection, bans: BanCollection, redis: Client)
      ensures this.users == users && this.bans == bans && this.redis == redis && writes == []
    {
      this.users := users;
      this.bans := bans;
      this.redis := redis;
      writes := [];
    }

    /** The stores as the next request sees them. */
    function State(): Stores
      reads this, users, bans, redis
    {
      Stores(users.docs, bans.docs, redis.data)
    }

    method Register(email: Option<string>, password: Option<string>, name: Option<string>,
                    x: Externals, freshId: string, refreshToken: string, now: int) returns (reply: Reply)
      modifies this, users, redis
      ensures var o := RegisterStep(old(State()), email, password, name, x, freshId, refreshToken, now);
        reply == o.reply && State() == o.after && writes == old(writes) + o.writes
    {
      if !Truthy(email) || !Truthy(password) || !Truthy(name) {
        return Refusal(400, "All fields are required.");
      }
      var existing := FindUserByEmail(users.docs, email.value);
      if existing.Some? {
        return Refusal(400, "Email is already taken.");
      }
      var hashed := x.hash(password.value);
      var created := users.CreateUser(UserInput(email.value, hashed, name, DefaultRole, false), x.isEmail, freshId, now);
      if created.Invalid? {
        return Failed(ValidationError(created.issues));
      }
      var user := created.value;
      writes := writes + [UserInsert(user.id)];
      var accessToken := AccessToken(x, Some(user.id), Some(user.role), now);
      var key := RefreshKey(user.id);
      redis.Set(key, refreshToken, Some(RefreshTtl), now);
      writes := writes + [CacheSet(key)];
      reply := Sent(201, true, "Registration successful", Session(accessToken, user));
    }

    method Login(email: Option<string>, password: Option<string>, x: Externals, refreshToken: string, now: int)
      returns (reply: Reply)
      modifies this, redis
      ensures var o := LoginStep(old(State()), email, password, x, refreshToken, now);
        reply == o.reply && State() == o.after && writes == old(writes) + o.writes
    {
      if !Truthy(email) || !Truthy(password) {
        return Refusal(400, "Email and password are required.");
      }
      var found := FindUserByEmail(users.docs, email.value);
      if found.None? {
        return Sent(400, false, "Invalid Email", TypeHint("email"));
      }
      var user := found.value;
      var bannedUser := Get(redis.data, BannedKey(user.id), now);
      if bannedUser.WrongType? {
        return Failed(WrongTypeError);
      }
      if Truthy(bannedUser.value) {
        return Refusal(403, "Your account is banned.");
      }
      var isPasswordValid := x.compare(password.value, user.password);
      if !isPasswordValid {
        return Sent(400, false, "Invalid Password.", TypeHint("password"));
      }
      var accessToken := AccessToken(x, Some(user.id), Some(user.role), now);
      var key := RefreshKey(user.id);
      redis.Set(key, refreshToken, Some(RefreshTtl), now);
      writes := writes + [CacheSet(key)];
      reply := Sent(200, true, "Login successful", Session(accessToken, user));
    }

    method Logout(userId: Option<string>) returns (reply: Reply)
      modifies this, redis
      ensures var o := LogoutStep(old(State()), userId);
        reply == o.reply && State() == o.after && writes == old(writes) + o.writes
    {
      var key := RefreshKey(Interpolate(userId));
      redis.Delete(key);
      writes := writes + [CacheDelete(key)];
      reply := Sent(200, true, "Logged out successfully.", NoData);
    }

    method Validate(userId: Option<string>, data: Option<string>, now: int) returns (reply: Reply)
      ensures var o := ValidateStep(State(), userId, data, now);
        reply == o.reply
    {
      if !Truthy(userId) {
        return Refusal(400, "User ID is missing from the token.");
      }
      var isBlacklisted := Get(redis.data, BannedKey(userId.value), now);
      if isBlacklisted.WrongType? {
        return Failed(WrongTypeError);
      }
      if Truthy(isBlacklisted.value) {
        return Sent(401, false, "User is blacklisted and cannot access the system.", LogoutHint);
      }
      var user := FindUserById(users.docs, userId);
      if user.None? {
        return Sent(404, false, "User not found.", LogoutHint);
      }
      var responseData := if Truthy(data) then UserData(user.value) else RoleData(user.value.role);
      reply := Sent(200, true, "Token validated", responseData);
    }

    method BanUser(userId: Option<string>, reason: Option<string>, duration: Option<string>, freshId: string, now: int)
      returns (reply: Reply)
      modifies this, bans, redis
      ensures var o := BanUserStep(old(State()), userId, reason, duration, freshId, now);
        reply == o.reply && State() == o.after && writes == old(writes) + o.writes
    {
      if !Truthy(userId) || !Truthy(reason) || !Truthy(duration) {
        return Refusal(400, "User ID, reason, and duration are required.");
      }
      var expiresIn := Duration(duration.value);
      if expiresIn.Undefined? {
        return Refusal(400, "Invalid ban duration.");
      }
      var input := BanRequest(userId.value, reason.value, expiresIn, now);
      var issues := bans.BanUser(input, freshId, now);
      if issues != [] {
        return Failed(ValidationError(issues));
      }
      writes := writes + [BanRecordWrite(userId.value)];
      var key := BannedKey(userId.value);
      redis.Set(key, BannedMarker, MarkerTtl(expiresIn), now);
      writes := writes + [CacheSet(key)];
      reply := Sent(200, true, "User banned for " + duration.value + ".", NoData);
    }

    method UnbanUser(userId: Option<string>, now: int) returns (reply: Reply)
      modifies this, bans, redis
      ensures var o := UnbanUserStep(old(State()), userId, now);
        reply == o.reply && State() == o.after && writes == old(writes) + o.writes
    {
      if !Truthy(userId) {
        return Refusal(400, "User ID is required.");
      }
      bans.UnbanUser(userId.value, now);
      writes := writes + [BanRecordWrite(userId.value)];
      var key := BannedKey(userId.value);
      redis.Delete(key);
      writes := writes + [CacheDelete(key)];
      reply := Sent(200, true, "User unbanned successfully.", NoData);
    }

    method RegenerateAccessToken(userId: Option<string>, role: Option<string>, refreshToken: Option<string>,
                                 x: Externals, now: int) returns (reply: Reply)
      ensures reply == RegenerateStep(State(), userId, role, refreshToken, x, now).reply
    {
      if !Truthy(refreshToken) {
        return Refusal(400, "Refresh token is required.");
      }
      var stored := Get(redis.data, RefreshKey(Interpolate(userId)), now);
      if stored.WrongType? {
        return Failed(WrongTypeError);
      }
      if stored.value != Some(refreshToken.value) {
        return Refusal(403, "Invalid refresh token.");
      }
      reply := Sent(200, true, "Access token regenerated.", TokenData(AccessToken(x, userId, role, now)));
    }

    method AddUser(email: Option<string>, password: Option<string>, name: Option<string>, role: Option<string>,
                   x: Externals, freshId: string, now: int) returns (reply: Reply)
      modifies this, users
      ensures var o := AddUserStep(old(State()), email, password, name, role, x, freshId, now);
        reply == o.reply && State() == o.after && writes == old(writes) + o.writes
    {
      if !Truthy(email) || !Truthy(password) || !Truthy(name) {
        return Refusal(400, "Email, password, and name are required.");
      }
      var existing := FindUserByEmail(users.docs, email.value);
      if existing.Some? {
        return Refusal(400, "Email is already taken.");
      }
      var hashed := x.hash(password.value);
      var newUser := users.CreateUser(UserInput(email.value, hashed, name, if Truthy(role) then role.value else DefaultRole, false),
                                      x.isEmail, freshId, now);
      if newUser.Invalid? {
        return Failed(ValidationError(newUser.issues));
      }
      writes := writes + [UserInsert(newUser.value.id)];
      reply := Sent(201, true, "User added successfully.", UserData(newUser.value));
    }
  }
}
