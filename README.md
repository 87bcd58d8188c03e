# Session and access-control state of the auth service

This project is a Dafny model of the part of the authentication service that keeps session and access-control state. That state is spread over two stores:

- a durable document store with the `users`, `bans` and `roles` collections and the `appConfig` seeding flag;
- a fast key-value cache whose entries may carry a time to live:
  - `{id}-refresh` holds a user's refresh token;
  - `{id}-banned` holds a ban marker;
  - `{role}-backendRoutes` holds the set of backend access keys of a role.

The model covers these pieces:

- the user, ban and role models with their schemas;
- the ban engine: the duration table, the insert-or-append ban, the unban and the expiry sweep, with the durable record written first and the cache marker mirrored second;
- the session handlers: register, add user, login, logout, validate and refresh;
- the route guard, which fills the cache on a miss and then tests membership;
- the bearer-header middleware;
- the admin gate of the role endpoints;
- the error handler and the custom error classes.

How the model is built:

- **Collections and cache.** A collection is a sequence in insertion order. `findOne`, `updateOne` and `deleteOne` act on the first match. The cache is a map from keys to values, each with an absolute expiry in milliseconds.
- **Time.** Time is an explicit instant `now`. A key reads as present up to and including its expiry instant and as absent once that instant has passed.
- **Handlers.** Each handler is written twice:
  - as a function from the stores before a request to its reply, the stores afterwards and the writes it issued, in order;
  - as a method on a class holding the live stores, proved to agree with that function.
- **Properties** are lemmas over the functions, for example:
  - a login refresh token is accepted until it expires;
  - a finite ban's record and marker end at the same instant;
  - seeding the default roles is idempotent;
  - the route guard's cache heals after it finds a key of the wrong type.

Three behaviours of the code are worth stating, because a reader might expect otherwise:

- **Wrong-type route key.** When `{role}-backendRoutes` holds a value of the wrong type, the guard deletes the key but then goes straight to the membership test. It does not treat the key as a miss, so that request is refused with 403, and only the next request fills the set (`ProtectRoute.WrongTypeDeniesThenHeals`).
- **No throttle or blacklist.** The code has no login-failure throttle, no access-token blacklist and no refresh-token rotation, so none is modelled.
- **Seeded roles cannot be deleted.** The two default roles are inserted without an `_id`, so the store driver gives them ObjectIds. `deleteRole` filters by the string from the request path, which never equals an ObjectId. Deleting a seeded role is therefore answered 200 and removes nothing (`RoleController.SeededRoleDeleteIsNoop`).

## Model

| member | source | states |
|---|---|---|
| Strings.Split | middleware/authenticate.ts:12 | `split` on a one-character separator yields at least one piece and no piece contains the separator |
| Strings.JoinSplit | middleware/authenticate.ts:12 | joining the pieces of a split with the separator gives the original string back |
| Strings.SplitJoin | middleware/errorHandler.ts:25 | splitting a join of separator-free pieces gives the pieces back |
| Strings.ParseNatToString | middleware/errorHandler.ts:25 | an array index printed in decimal parses back to the same number |
| Zod.PathTexts | middleware/errorHandler.ts:25 | each path step prints in order: keys as themselves, indices in decimal |
| Zod.FieldNameSplits | middleware/errorHandler.ts:24-27 | the dot-joined field name of a path without dotted keys splits back into the printed steps of the path |
| Errors.NewCustomError | utils/customError.ts:5-9 | a custom error keeps its message and its status, which defaults to 500 |
| Errors.NewNotFoundError | utils/customError.ts:12-16 | a not-found error is a custom error with status 404 and default message "Resource not found" |
| Errors.NewBadRequestError | utils/customError.ts:18-22 | a bad-request error is a custom error with status 400 and default message "Invalid request" |
| ErrorHandler.Details | middleware/errorHandler.ts:24-27 | one detail per validation issue, in order, whose field is the issue's path joined with "." |
| ErrorHandler.HandleError | middleware/errorHandler.ts:6-44 | a validation error gives 400 "Validation Error" with details; a custom error gives its own status and message; any other error gives 500 "Something went wrong"; `success` is always false; a stack appears only outside the validation branch and only in development |
| ErrorHandler.StackOnlyInDevelopment | middleware/errorHandler.ts:39-43 | the environment never changes the status or message, and for every environment other than development no stack is shown |
| ErrorHandler.SubclassStatuses | middleware/errorHandler.ts:33-36 | the handler answers not-found errors with 404, bad-request errors with 400 and their default messages, and any custom error without a status with 500 and its own message |
| Collection.FirstMatch | models/user.ts:60 | the position found is the first document the filter accepts; none exactly when no document is accepted |
| Collection.FindOne | models/user.ts:60 | `findOne` returns a stored document the filter accepts, or null exactly when none is accepted |
| Collection.UpdateOne | models/ban.ts:80-85 | `updateOne` replaces only the first matching document by its update and leaves every other document and the length unchanged |
| Collection.DeleteOne | models/user.ts:99 | `deleteOne` removes only the first matching document and keeps the others in order |
| Collection.FirstMatchAppend | models/role.ts:75-83 | inserting documents never moves an existing first match; without one, the match is found among the inserted documents |
| Redis.TypeName | middleware/protectRoute.ts:22 | `TYPE` reports "none" exactly for a missing or expired key, "set" exactly for a set and "string" exactly for a string |
| Redis.Get | controller/auth.ts:77 | `GET` gives nil for a missing key, the string for a string key, and a wrong-type error otherwise |
| Redis.SIsMember | middleware/protectRoute.ts:44 | `SISMEMBER` is false for a missing key and true exactly when the key holds a set containing the member |
| Redis.Elements | middleware/protectRoute.ts:38 | the set `SADD` stores holds exactly the listed items |
| Redis.SetThenGet | controller/auth.ts:211-213 | a string set with a time to live reads back up to the instant that many seconds have passed and is absent after it; without a time to live it reads back forever; no other key changes |
| Redis.DelThenLookup | controller/auth.ts:117 | after `DEL` the key is absent at every instant and no other key changes |
| Redis.SAddOnMissing | middleware/protectRoute.ts:38 | `SADD` on a missing key creates a set that answers membership exactly for the items |
| Redis.Client.Set | controller/auth.ts:47 | the client's keyspace becomes the keyspace after `SET` |
| Redis.Client.Delete | controller/auth.ts:117 | the client's keyspace becomes the keyspace after `DEL` |
| Redis.Client.AddMembers | middleware/protectRoute.ts:38 | `SADD` changes the keyspace only when it succeeds |
| UserModel.UserIssues | models/user.ts:8-16 | the user schema accepts exactly a valid email, a stored password of at least 6 characters and a non-empty role, and names each failed field with its message |
| UserModel.FindUserByEmail | models/user.ts:55-61 | `getUserByEmail` returns a stored record with that email, or null exactly when none has it |
| UserModel.FindUserById | models/user.ts:63-69 | `getUserById` returns a stored record with that id, or null exactly when none has it or the id is undefined |
| UserModel.CreatedUserLookups | models/user.ts:38-52 | a created record is found by its id and is unverified; a lookup by email finds it unless an earlier record has the same email, since creation does not check uniqueness |
| UserModel.PatchIssues | models/user.ts:71-72 | the partial schema rejects only the given fields that are invalid |
| UserModel.SetDocument | models/user.ts:80-90 | the update document as written names every field, so an omitted field is sent as undefined |
| UserModel.PatchDocument | models/user.ts:80-90 | the intended update document holds exactly the given fields and the new `updatedAt`, never a null |
| UserModel.OmittedFieldsAreNulled | models/user.ts:80-90 | an omitted email, password, name or verification flag is null in the update document as written and left out of the intended one; a role-only update already differs |
| UserModel.ApplySet | models/user.ts:80-90 | `$set` on a stored record writes each named string or flag field with its value, clears it on a null, takes a given update time, and keeps the unnamed fields, the id and the creation time |
| UserModel.WrittenUpdateErasesFields | models/user.ts:71-91 | the update as written leaves every omitted field of the stored record null; after a role-only update the record has no email, password, name or verification flag, unlike the intended update |
| UserModel.PatchUserFields | models/user.ts:71-91 | the intended update document, applied to the stored record, gives exactly the patched record: the given fields and `updatedAt` change; the id, the creation time and every omitted field keep their values |
| UserModel.DeleteKeepsOthers | models/user.ts:93-100 | `deleteUser` removes at most one record and keeps every record with another id |
| UserModel.DeletedIdIsGone | models/user.ts:93-100 | with unique ids, a deleted id can no longer be found |
| UserModel.UserCollection.CreateUser | models/user.ts:29-53 | an invalid body writes nothing and reports the issues; a valid one appends and returns the unverified record with the fresh id and both timestamps set to now |
| UserModel.UserCollection.UpdateUser | models/user.ts:71-91 | an invalid patch writes nothing; a valid one applies the intended update to the record with that id only |
| UserModel.UserCollection.DeleteUser | models/user.ts:93-100 | the collection becomes the collection without the first record that has that id |
| BanModel.HistoryIssuesEmpty | models/ban.ts:5-9 | a ban history has no issues exactly when every event has valid dates and a non-empty reason |
| BanModel.BanIssues | models/ban.ts:11-15 | the ban schema accepts exactly a non-empty user id, a valid end date and a non-empty history of valid events |
| BanModel.ApplyBan | models/ban.ts:43-71 | a first ban inserts an active record with count 1 and the given events; a repeated ban appends the events after the old ones, reactivates the record, takes the new end and counts one more; only the first case adds a record |
| BanModel.BanKeepsOthers | models/ban.ts:43-71 | a ban leaves every other user's record unchanged and never leaves a user with a second record |
| BanModel.BanTwice | models/ban.ts:45-57 | two bans of a user add both event lists in order and add 2 to the count, and the record is active with the second end |
| BanModel.BanKeepsOnePerUser | models/ban.ts:43-71 | a ban keeps at most one record per user |
| BanModel.UnbanEffect | models/ban.ts:75-86 | an unban changes at most one record, an active record of that user, and in it only `active` (now false) and `updatedAt`; id, history, count, end and creation time are kept; without an active record it changes nothing; with one record per user, none of that user's records stays active |
| BanModel.Swept | models/ban.ts:97-107 | the sweep replaces each record by its expired-or-unchanged form, keeping the length |
| BanModel.SweepEffect | models/ban.ts:97-107 | the sweep deactivates exactly the active records whose end has passed; permanent, inactive and not-yet-due records are untouched; only `active` and `updatedAt` change; no expired record remains |
| BanModel.SweepIdempotent | models/ban.ts:97-107 | a second sweep at the same instant changes nothing |
| BanModel.SweepAndUnbanKeepOnePerUser | models/ban.ts:75-107 | sweeps and unbans keep at most one record per user |
| BanModel.BanCollection.BanUser | models/ban.ts:35-72 | an invalid body writes nothing and reports the schema issues; a valid one performs the insert-or-append ban |
| BanModel.BanCollection.UnbanUser | models/ban.ts:75-86 | the collection becomes the collection after the unban |
| BanModel.BanCollection.UpdateExpiredBans | models/ban.ts:89-112 | the loop over the collection leaves exactly the swept collection |
| RoleModel.RoleIssues | models/role.ts:10-14 | the role schema accepts exactly a non-empty name and non-empty frontend and backend route lists, and names each failed field |
| RoleModel.FetchRoleByName | models/role.ts:103-118 | an unknown name gives null; otherwise the first such role's two route lists, a missing list reading as empty |
| RoleModel.DefaultRoles | models/role.ts:58-78 | the seeded roles are "admin" and then "customer", each with a driver-assigned ObjectId |
| RoleModel.SeedKeepsExisting | models/role.ts:75-83 | seeding only inserts at the end, at most one role per default, and every existing role keeps its place and value |
| RoleModel.SeedProvidesNames | models/role.ts:75-83 | after seeding, a role with every default's name exists |
| RoleModel.SeedPresentIsNoop | models/role.ts:76-81 | seeding roles whose names already exist inserts nothing |
| RoleModel.SeedOneFetch | models/role.ts:76-78 | one seeding step keeps the lookup of a present name, adds the seeded role's lists under its own absent name, and leaves other absent names absent |
| RoleModel.SeedIdempotent | models/role.ts:75-83 | seeding twice is the same as seeding once |
| RoleModel.SeededRoutes | models/role.ts:58-83 | after seeding, "admin" has ["*"] for both lists and "customer" has its three pages and ["GetUserOrders", "GetProductDetails"]; a role that already had one of those names is kept instead |
| RoleModel.RoleStore.CreateRole | models/role.ts:25-43 | an invalid body writes nothing; a valid one appends exactly one new role, without a uniqueness check |
| RoleModel.RoleStore.CreateDefaultRoles | models/role.ts:45-92 | with the flag set nothing changes; otherwise the defaults are seeded one by one; the flag is set afterwards |
| RoleModel.RoleStore.DeleteRole | models/role.ts:94-101 | the collection becomes the collection without the first role whose string id equals the given one |
| RoleModel.DeleteSparesObjectIds | models/role.ts:100 | deleting by a string id never removes a role whose id is an ObjectId; a collection holding only such roles is unchanged |
| RoleModel.SeededRolesSurviveDelete | models/role.ts:75-100 | after seeding an empty collection, deleting by any string id, the ObjectIds' hex text included, leaves both seeded roles |
| RoleModel.SeedDefaultsIntoEmpty | models/role.ts:75-100 | seeding an empty collection stores exactly the admin and customer defaults, in that order |
| ProtectRoute.Membership | middleware/protectRoute.ts:44-48 | the request passes exactly when the route key is in the cached set and is refused with 403 otherwise; the cache is unchanged |
| ProtectRoute.RouteAccess | middleware/protectRoute.ts:6-56 | no role gives 400 and no change; "admin" passes without touching the cache; any other role passes exactly when the route key is in the set cached afterwards; the error branch is never taken |
| ProtectRoute.PopulateOnMiss | middleware/protectRoute.ts:29-42 | on a miss, an unknown role gives 403 "Role not found." and a role without backend keys gives 403 "No routes assigned to this role.", both with the cache unchanged; otherwise the set is created without expiry holding exactly the role's keys, and the request passes exactly when the route key is among them |
| ProtectRoute.WrongTypeDeniesThenHeals | middleware/protectRoute.ts:22-47 | a key of the wrong type is deleted and that request is refused with 403; the next request passes exactly when the route key is among the role's backend keys |
| ProtectRoute.CachedSetIsNotReread | middleware/protectRoute.ts:29 | with a live cached set, the verdict does not depend on the role store, the cache is unchanged, and the verdict is membership in the cached set |
| ProtectRoute.SeededCustomerAccess | middleware/protectRoute.ts:29-50 | with the seeded roles and an empty cache, "customer" may reach "GetUserOrders" but not "AddUser" |
| ProtectRoute.CheckRouteAccess | middleware/protectRoute.ts:7-54 | the command-by-command guard gives the same verdict and leaves the same cache as the route-access function |
| Authenticate.ExtractToken | middleware/authenticate.ts:8-12 | a header is refused exactly when it is missing or does not start with "Bearer " (case-sensitive); the token taken is a field without spaces |
| Authenticate.SchemeSplits | middleware/authenticate.ts:12 | a header starting with "Bearer " splits into "Bearer" and the pieces after the space, so field 1 exists |
| Authenticate.BearerTokenRoundTrip | middleware/authenticate.ts:12 | "Bearer " followed by a space-free token, alone or followed by a space and anything, yields exactly that token |
| Authenticate.EmptyTokens | middleware/authenticate.ts:12-15 | "Bearer " and "Bearer " followed by another space carry an empty token |
| Authenticate.Authenticate | middleware/authenticate.ts:6-25 | a bad header or an empty token is refused with 401 and a logout hint; a token that does not verify gets 403; the request proceeds exactly for a verified non-empty token, with its claims |
| Authenticate.Request.AuthenticateToken | middleware/authenticate.ts:17-21 | on success the request's user id and role are the token's; on refusal they are unchanged |
| Http.FinalStatus | middleware/errorHandler.ts:14-43 | a sent reply keeps its status; a validation error ends as 400 and any plain error as 500 |
| RoleController.AdminGate | controller/role.ts:17-24 | an unknown requester gets 404 "User not found.", a non-admin 403 "Unauthorized access."; only an admin passes |
| RoleController.CreateRoleReply | controller/role.ts:7-34 | 400 "All fields are required." when a field is missing; then the admin gate; empty route lists reach the schema and fail validation; 201 exactly when all checks pass |
| RoleController.DeleteRoleReply | controller/role.ts:37-64 | 400 "Role ID is required." without an id; then the admin gate; 200 exactly for an admin with an id |
| RoleController.RoleEndpoints.CreateRole | controller/role.ts:7-34 | the role store gains exactly the requested role on a 201 and is unchanged otherwise |
| RoleController.RoleEndpoints.DeleteRole | controller/role.ts:37-64 | on a 200 the first role whose string id equals the request's is removed, if there is one; otherwise the store is unchanged |
| RoleController.SeededRoleDeleteIsNoop | controller/role.ts:37-59 | an admin deleting the seeded "customer" role by its ObjectId's hex text gets 200 "Role deleted successfully." while the seeded collection stays as it was |
| AuthController.AccountCreation | controller/auth.ts:16-59 | a stored email is refused and nothing is written; registration succeeds exactly when all fields are present, the email is new and the user schema accepts the record with the hashed password; it stores that unverified "customer" and then its refresh token for 30 days; adding a user stores the hashed password with the given role or "customer" and writes no cache key |
| AuthController.LoginOrder | controller/auth.ts:62-102 | an unknown email gives 400 type "email"; a ban marker gives 403 whatever the password check would say; a wrong password gives 400 type "password"; success overwrites `{id}-refresh` for 30 days and changes nothing else |
| AuthController.RegenerateStep | controller/auth.ts:245-272 | a new access token is issued exactly when a token is presented and equals the stored `{id}-refresh`; a stored token that differs, or none stored, gives 403; the stores never change, so the refresh token is not rotated |
| AuthController.LogoutStep | controller/auth.ts:111-125 | logout deletes `{id}-refresh` and answers 200, whether or not a token was stored |
| AuthController.LoginThenRefresh | controller/auth.ts:94-96 | the refresh token of a successful login is accepted, and every other token refused, up to the instant 30 days have passed; after logout every refresh is refused. It states the handlers given the user's id; as routes/auth.ts mounts logout and regenerate without authentication, the wired service keys them by "undefined-refresh" (`AuthController.MissingUserId`) |
| AuthController.MissingUserId | controller/auth.ts:113-117 | without an authenticated user id the key is "undefined-refresh": logout deletes no user's token, and a refresh succeeds only if that literal key holds the token |
| AuthController.ValidateStep | controller/auth.ts:128-163 | a set ban marker gives 401 with a logout hint; 200 exactly for an unbanned, existing user, with the whole user when `data` is truthy and the role otherwise; nothing changes |
| AuthController.Duration | controller/auth.ts:177-189 | every finite duration in the table is positive |
| AuthController.DurationTable | controller/auth.ts:177-193 | exactly the nine codes are accepted, mapping to 30, 3600, 21600, 604800, 1209600, 2592000, 7776000 and 15552000 seconds and "forever" to no expiry; any other code except an inherited name is undefined |
| AuthController.MarkerTtl | controller/auth.ts:210-214 | the marker's time to live, when there is one, is positive |
| AuthController.BanUserEffect | controller/auth.ts:166-221 | a missing field or an unknown code gives 400 and writes nothing; a valid code merges exactly one event, ending now plus the duration (no end for "forever"), into the user's record, and only then sets `{userId}-banned` to "true" with the same time to live |
| AuthController.InheritedNameIsRejected | controller/auth.ts:189-206 | a code such as "toString" passes the undefined check but gives an invalid date; the ban schema rejects it, the client gets 400 with details "expiresAt" and "history.0.expiresAt", and nothing is written |
| AuthController.HandleDetails | middleware/errorHandler.ts:24-27 | one reported field per validation issue, in order, each the issue's path joined with "." |
| AuthController.BanEndsTogether | controller/auth.ts:195-214 | a finite ban's record ends at now plus the duration; its marker is set up to and including that instant; the sweep deactivates the record exactly from that instant; a "forever" ban has no end, a marker that never expires and a record never swept |
| AuthController.BanBlocksLogin | controller/auth.ts:76-80 | while a ban's marker lives, the user's login is refused with 403 whatever the password, and validation answers 401 |
| AuthController.UnbanUserStep | controller/auth.ts:223-242 | without a user id 400 and no change; otherwise the durable unban and then the deletion of `{userId}-banned`, in that order, and 200 |
| AuthController.UnbanLiftsBan | controller/auth.ts:231-235 | after an unban the marker is gone at every later instant; with one record per user, that user's record is inactive; history and count are kept |
| AuthController.Controller.Register | controller/auth.ts:13-59 | the step-by-step handler gives the reply, stores and write order of the registration step |
| AuthController.Controller.Login | controller/auth.ts:62-108 | the step-by-step handler gives the reply, stores and write order of the login step |
| AuthController.Controller.Logout | controller/auth.ts:111-125 | the step-by-step handler gives the reply, stores and write order of the logout step |
| AuthController.Controller.Validate | controller/auth.ts:128-163 | the step-by-step handler gives the reply of the validation step |
| AuthController.Controller.BanUser | controller/auth.ts:166-221 | the step-by-step handler gives the reply, stores and write order of the ban step |
| AuthController.Controller.UnbanUser | controller/auth.ts:223-242 | the step-by-step handler gives the reply, stores and write order of the unban step |
| AuthController.Controller.RegenerateAccessToken | controller/auth.ts:245-272 | the step-by-step handler gives the reply of the refresh step |
| AuthController.Controller.AddUser | controller/auth.ts:275-308 | the step-by-step handler gives the reply, stores and write order of the add-user step |

## Left out

- **Token signing and verification** (utils/jwt.ts) are parameters. The access token is `sign` applied to its claims, with the expiry at 24 hours in whole seconds. `verify` is a function from a token to optional claims.
- **Randomness and generated ids.** The refresh token, `bcrypt.hash` and `bcrypt.compare`, and every generated object id are parameters, because they are randomised or cryptographic. The e-mail syntax check of the schema library is also a parameter.
- **The schema's password length.** It applies to the stored hash, so the model makes no claim about plaintext passwords.
- **Time.** Each request reads one instant `now`; the code's separate `new Date()` and `Date.now()` calls within one request are taken as equal. The sweep's scheduling is not modelled.
- **Concurrency.** Every handler is atomic and requests run one after another. The read-then-write race in `banUser` is therefore not modelled.
- **Store failures.** Connection and driver errors are not modelled. The only store error modelled is the cache's wrong-type error on `GET`, which reaches the error handler as a plain error (500). The route guard's catch branch (500 "Internal server error.") is never taken in the model, as `ProtectRoute.RouteAccess` proves.
- **Request bodies** are strings, string lists or absent. Bodies of other JSON types (numbers, objects) are not modelled.
- **Error text.** The text of stack traces and of a validation error's own message is not modelled. Errors raised inside the model carry no stack, and the handler never prints a validation error's message.
- **Responses.** The response helper utils/customRes.ts is not part of this model. A sent reply is its status, success flag, message and data.
- **Logging.** Console logging and the sweep's count of changed records are not modelled; the sweep returns nothing.
- **Stored nulls.** Undefined properties of inserted records (a permanent ban's `expiresAt`, a missing `name`) are stored as null, and the model treats null as absent. The sweep's `$lte` query matches neither.
- **Seeding flag.** The `appConfig` document is reduced to its boolean flag, and an absent document reads as false.
- **Route wiring** (routes/auth.ts) is not modelled. Logout, unban and regenerate are mounted there without authentication, so they see no user id; `AuthController.MissingUserId` states what they then do, and `AuthController.LoginThenRefresh` states the handlers as if the id were given.
- **Cache commands.** Only the commands the service uses are modelled, and the cache's other value types appear only as a type name.
- **UserModel.UserCollection.UpdateUser** applies the intended partial update rather than the update as written. `UserModel.SetDocument` and `UserModel.WrittenUpdateErasesFields` model the code as written (see Findings). The users collection holds well-formed records only, so a record whose fields were nulled is modelled only as a `UserModel.StoredUser` value.

## Findings

| source | as written | input that shows it | evidently intended | confidence | as-written member | corrected member |
|---|---|---|---|---|---|---|
| models/user.ts:80-90 | the `$set` document names all five schema fields, so each field the caller omitted is sent as undefined, which the store driver writes as null | `updateUser(id, { role: "admin" })` nulls the stored email, password, name and `isVerified` | a partial update changes only the given fields and `updatedAt` | medium, not executed | UserModel.WrittenUpdateErasesFields | UserModel.PatchUserFields |
