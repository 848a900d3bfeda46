# flixsync-user-service in Dafny

A model of the account core of the flixsync user service: registration, login,
token refresh, profile reads, profile updates and account deletion over a
document container keyed by account id, together with the JWT/bcrypt
authentication service, the request guards that turn a bearer header into a
caller, the HTTP controllers that turn service outcomes into replies, and the
JSON schemas that the framework applies to request bodies.

Modules, one per source file of the core, plus four supporting ones:

- `Outcomes` — `Option`, `Result`, and the thrown `Error` (a message and an optional status code).
- `Text` — the string operations the core relies on: `startsWith`, `substring`, ASCII `toLowerCase`, decimal numerals and an escaped segment format used by the token stand-in.
- `Crypto` — stand-ins for `bcryptjs` and `jsonwebtoken`: a hash records its salt and cost and matches exactly its password; a signed token carries its claims, its expiry and its key, and verifies only under that key before it expires.
- `UserModel` (`src/models/User.ts`) — the account record, the constructor's default filling (`Normalize`), `toJSON` and `toPublicJSON`.
- `AuthService` (`src/services/authService.ts`) — hashing, token minting and verification for the two token kinds, the session response.
- `UserService` (`src/services/userService.ts`) — the container as a `map` from id to record; each operation as a specification function returning the answer and the new container (`CreateOutcome`, `LoginOutcome`, `UpdateOutcome`, `DeleteOutcome`, `RefreshOutcome`); and the `UserService` class, whose field `container` its methods update, each method proved equal to its specification function and to keep the store invariant (records under their own ids, emails lower-case and unique, usernames unique).
- `AuthMiddleware` (`src/middleware/auth.ts`) — the pure classifier `Resolve` and the two guards as methods that update a `Request` object (its `user`) and a `Reply` object (what was sent).
- `AzureAuth` (`src/utils/azureAuth.ts`) — the throwing variant for the function-app entry points.
- `Replies` — the `{ success, data | message | error }` reply shape shared by the controllers.
- `UserController`, `AuthController` (`src/controllers/*.ts`) — each handler as a function from the service outcome to a status and body.
- `Validation` (`src/middleware/validation.ts`) — a small JSON-schema validator, the four schemas as data, and for each schema a hand-written predicate with a lemma that the schema accepts exactly what the predicate states.

External effects are parameters: the clock `now` (milliseconds; tokens use
`now / 1000` seconds), the fresh id that `uuid` would produce, the bcrypt
salt, a store `fault` that a read may raise (a 404 fault is the SDK's
"not found"), and `echo`, whether a create or replace returns the resource.

Behaviour of the code that a reader might not expect, and what the model
records about it:

- Updating preferences does not merge into the stored preferences. The service spreads the request over the stored record (`src/services/userService.ts:90-95`), so a supplied `preferences` object replaces the stored one wholesale, and the record constructor then fills whatever it leaves out from the built-in defaults (`src/models/User.ts:25-47`). A stored notification flag omitted from an update therefore falls back to its default, not to its prior value (`UserService.UpdateResetsOmittedFlags`). The same holds for `profile`.
- The update path as written stores `email`, `username`, `passwordHash` and `createdAt` keys from the body over the record without any check (`UserService.UpdateAsWritten`). This is the one place where the model departs from the code: the service method and the profile controller use the corrected update, which ignores those keys (see "## Findings" and "## Left out").
- `authenticate` answers "User not found" for a valid token whose account is gone, and turns every other failure, store errors included, into "Invalid or expired token" (`AuthMiddleware.BearerHeaderCases`). `optionalAuth` never answers, and `authenticateRequest` throws the verification error or the store's own error instead.
- Update and delete answer 400 (not 404) for a missing account.

## Model

| member | source | states |
|---|---|---|
| Text.Lower | src/services/userService.ts:131-133 | the lower-cased email has the same length and is lower-cased character by character (ASCII letters only) |
| Text.LowerFixesLower | src/services/userService.ts:131-133 | lower-casing yields a lower-case string and leaves an already lower-case one unchanged |
| Text.SubstringAfterPrefix | src/middleware/auth.ts:17 | `substring(7)` of a header that starts with "Bearer " is exactly the text after the prefix |
| UserModel.NormalizeScalars | src/models/User.ts:15-51 | the constructor keeps given id, email, username, hash, subscription list (same order) and timestamps, and defaults missing strings to "" and missing timestamps to the clock |
| UserModel.Normalize | src/models/User.ts:14-52 | the record constructor `new UserModel(data)`; its defaults and merges are stated by the `Normalize*` lemmas below |
| UserModel.NormalizeProfile | src/models/User.ts:20-23 | a missing profile becomes `{ favoriteGenres: [] }`; a supplied one keeps every supplied field and gets an empty genre list only when it had none |
| UserModel.NormalizeDefaultPreferences | src/models/User.ts:25-41 | without preferences the record gets exactly the defaults: "en", "US", no adult content, every notification on except push, both visibilities public, group invites allowed |
| UserModel.NormalizeSuppliedPreferences | src/models/User.ts:42-47 | supplied preference fields win; notifications and privacy are merged flag by flag over their defaults, so an omitted flag takes its default |
| UserModel.NormalizeToJson | src/models/User.ts:54-66 | rebuilding a record from its `toJSON()` gives the same record |
| UserModel.NormalizeIdempotent | src/models/User.ts:14-52 | constructing twice is constructing once, whatever the clock reads the second time |
| UserModel.PublicViewForgetsOnlyHash | src/models/User.ts:68-71 | two records have the same public view exactly when they differ at most in the password hash |
| UserModel.ToJson | src/models/User.ts:54-66 | `toJSON()`: every field of the record; reconstructing from it is the identity (`UserModel.NormalizeToJson`) |
| UserModel.ToPublicJson | src/models/User.ts:68-71 | `toPublicJSON()`: the record without its hash, and it forgets nothing else (`UserModel.PublicViewForgetsOnlyHash`) |
| AuthService.HashPassword | src/services/authService.ts:7-10 | the hash records cost 12 and matches a candidate exactly when the candidate is the password |
| AuthService.ComparePassword | src/services/authService.ts:12-14 | `comparePassword`: bcrypt comparison of a candidate against a stored hash |
| AuthService.ComparePasswordMatchesHash | src/services/authService.ts:7-14 | comparing a candidate against a hash from `hashPassword` succeeds exactly when the candidate is the hashed password |
| AuthService.GenerateAccessToken | src/services/authService.ts:16-22 | `generateAccessToken`: `{ userId, type: "access" }` signed with the access key and lifetime; its round trip is `AuthService.AccessRoundTrip` |
| AuthService.GenerateRefreshToken | src/services/authService.ts:24-30 | `generateRefreshToken`: `{ userId, type: "refresh" }` signed with the refresh key and lifetime; its round trip is `AuthService.RefreshRoundTrip` |
| AuthService.VerifyAccessToken | src/services/authService.ts:32-42 | `verifyAccessToken`: verification of the access kind under the access key, every failure one message (`AuthService.VerifyKind`) |
| AuthService.VerifyRefreshToken | src/services/authService.ts:44-54 | `verifyRefreshToken`: the same for the refresh kind under the refresh key |
| AuthService.CreateAuthResponse | src/services/authService.ts:56-65 | `createAuthResponse`: the user and a token of each kind for its id (`AuthService.AuthResponseTokens`) |
| AuthService.ConfigFrom | src/config/index.ts:16-21 | `config.jwt`: the two keys and each lifetime from the environment or its default |
| AuthService.DefaultLifetimes | src/config/index.ts:16-21 | without lifetimes in the environment an access token verifies for exactly 86400 seconds ("24h") from its issue and a refresh token for exactly 604800 seconds ("7d") |
| AuthService.VerifyKind | src/services/authService.ts:32-54 | verification succeeds exactly for a live token under the key with the expected kind, yields its user id, and otherwise yields the one failure message |
| AuthService.AccessRoundTrip | src/services/authService.ts:16-42 | an access token verifies to the id it was issued for while live and fails with "Invalid or expired access token" afterwards |
| AuthService.RefreshRoundTrip | src/services/authService.ts:24-54 | the same for refresh tokens under the refresh key and lifetime |
| AuthService.ZeroLifetimeRejected | src/services/authService.ts:16-22 | an access token minted with lifetime zero fails verification at any time from its issue on |
| AuthService.KindsNeverCross | src/services/authService.ts:32-54 | an access token is never accepted as a refresh token nor the other way round, even when both keys are equal |
| AuthService.VerificationFailuresCollapse | src/services/authService.ts:32-54 | every verification failure, whatever its cause, is the one message of its kind |
| AuthService.AuthResponseTokens | src/services/authService.ts:56-65 | the response carries the user unchanged and two tokens that each verify to the user's id while live |
| UserService.FindByEmail | src/services/userService.ts:129-137 | finds a record whose email is the lower-cased query exactly when one exists |
| UserService.FindByUsername | src/services/userService.ts:139-147 | finds a record with exactly that username exactly when one exists |
| UserService.FindUnique | src/services/userService.ts:129-147 | under the store invariant both queries can only find the one matching record |
| UserService.LookupUser | src/services/userService.ts:72-82 | a read answers the stored record, `null` for a missing id or a 404 fault, and rethrows any other fault |
| UserService.EmailQueryIgnoresCase | src/services/userService.ts:129-137 | under the store invariant, email queries that agree after lower-casing find the same record, and querying with the lower-cased email finds the same as the original |
| UserService.CreateOutcome | src/services/userService.ts:18-51 | `createUser` as a function of the container: the answer and the new container; its cases are stated by the `Create*` lemmas |
| UserService.LoginOutcome | src/services/userService.ts:53-70 | `loginUser` as a function of the container; stated by `LoginFailuresIndistinguishable`, `LoginStored` and `RegisterThenLogin` |
| UserService.UpdateOutcome | src/services/userService.ts:84-106 | the corrected `updateUser` (only declared body fields reach the record); stated by `UpdateMissing`, `UpdateRewritesOneRecord` and `UpdatePreservesInvariant` |
| UserService.UpdateAsWritten | src/services/userService.ts:84-106 | `updateUser` as written (every body key spread over the record); stated by `UpdateAsWrittenRewritesOneRecord` and the Findings lemmas |
| UserService.DeleteOutcome | src/services/userService.ts:108-115 | `deleteUser` as a function of the container; stated by `DeleteRemovesOneKey` and `DeletePreservesInvariant` |
| UserService.RefreshOutcome | src/services/userService.ts:117-127 | `refreshToken` as a function of the container; stated by `RefreshStored`, `RefreshAfterDelete` and `RefreshRefusesAccessToken` |
| UserService.UserService.FindUserByEmail | src/services/userService.ts:129-137 | the method answers what `FindByEmail` specifies |
| UserService.UserService.FindUserByUsername | src/services/userService.ts:139-147 | the method answers what `FindByUsername` specifies |
| UserService.UserService.GetUserById | src/services/userService.ts:72-82 | the method answers what `LookupUser` specifies |
| UserService.UserService.CreateUser | src/services/userService.ts:18-51 | the answer and the new container are those of `CreateOutcome`, and the store invariant is kept |
| UserService.UserService.LoginUser | src/services/userService.ts:53-70 | the answer is that of `LoginOutcome`; the container is not changed |
| UserService.UserService.UpdateUser | src/services/userService.ts:84-106 | the answer and the new container are those of the corrected update `UpdateOutcome` (undeclared body keys ignored), and the store invariant is kept |
| UserService.UserService.DeleteUser | src/services/userService.ts:108-115 | the answer and the new container are those of `DeleteOutcome`, and the store invariant is kept |
| UserService.UserService.RefreshToken | src/services/userService.ts:117-127 | the answer is that of `RefreshOutcome`; the container is not changed |
| UserService.CreateRejectsTakenEmail | src/services/userService.ts:19-22 | a taken email, in any letter case, is refused with "User with this email already exists" and nothing is stored |
| UserService.CreateRejectsTakenUsername | src/services/userService.ts:24-27 | with a free email, a taken username is refused with "Username is already taken" and nothing is stored |
| UserService.CreateStores | src/services/userService.ts:29-50 | after both checks pass, the new record is stored under the fresh id and the reply is its session |
| UserService.NewRecordFields | src/services/userService.ts:31-41 | the new record has the fresh id, the lower-cased email, the username as given, the hash, no subscriptions and both timestamps from the clock |
| UserService.CreateAddsOneRecord | src/services/userService.ts:29-47 | a successful registration adds exactly one record, whose hash matches exactly the password; without an echoed resource the answer is "Failed to create user" |
| UserService.CreateReplyBoundToRecord | src/services/userService.ts:43-50 | the reply is the stored record without its hash, with tokens that verify to the record's id while live |
| UserService.CreateIdConflict | src/services/userService.ts:43 | a fresh id already in use is refused by the container with a 409 and nothing changes |
| UserService.CreatePreservesInvariant | src/services/userService.ts:18-51 | registration keeps emails lower-case and unique and usernames unique |
| UserService.LoginFailuresIndistinguishable | src/services/userService.ts:53-66 | an unknown email and a wrong password fail with the same "Invalid email or password" |
| UserService.LoginStored | src/services/userService.ts:53-70 | logging in as a stored account, by its email in any letter case, succeeds exactly with its password |
| UserService.RegisterThenLogin | src/services/userService.ts:18-70 | after a registration, login with that email succeeds exactly with the registered password and answers the new record's public view |
| UserService.UpdateMissing | src/services/userService.ts:84-88 | an update of a missing account fails with "User not found" and changes nothing |
| UserService.UpdateRewritesOneRecord | src/services/userService.ts:84-106 | for the corrected (declared-fields) update: a successful update rewrites exactly that record; id, email, username, hash and creation time stay, the update time is the clock, supplied parts replace the stored ones over the defaults; the reply is the new public view |
| UserService.UpdateResetsOmittedFlags | src/services/userService.ts:90-95 | a stored notification flag left out of a supplied preferences object falls back to its default |
| UserService.UpdatePreservesInvariant | src/services/userService.ts:84-106 | every outcome of the update, success or failure, keeps the store invariant, since only profile, preferences and subscriptions change |
| UserService.UpdateAsWrittenAgreesOnDeclared | src/services/userService.ts:90-95 | for a body with only declared fields the update as written and the corrected update agree |
| UserService.UpdateAsWrittenRewritesOneRecord | src/services/userService.ts:84-106 | as written, a successful update rewrites exactly that record: email, username, hash and creation time come from the body where it has them and stay otherwise, id and update time are fixed, the declared parts are as in the corrected update; the reply is the new public view |
| UserService.UpdateAsWrittenTakesUsername | src/services/userService.ts:90-99 | as written, a `username` key in the body becomes the stored username with no uniqueness check |
| UserService.UpdateAsWrittenBreaksUniqueness | src/services/userService.ts:90-99 | as written, an update of account "a" with the username of account "b" leaves a store that violates the invariant |
| UserService.DeleteRemovesOneKey | src/services/userService.ts:108-115 | deletion removes exactly that key, or fails with "User not found" and changes nothing |
| UserService.DeletePreservesInvariant | src/services/userService.ts:108-115 | deletion keeps the store invariant |
| UserService.DeleteThenLookup | src/services/userService.ts:72-115 | after a deletion the id reads as missing |
| UserService.RefreshStored | src/services/userService.ts:117-127 | a live refresh token for a stored account yields a new session for that account |
| UserService.RefreshAfterDelete | src/services/userService.ts:117-123 | a live refresh token for a deleted account fails with "User not found", not with a token error |
| UserService.RefreshRefusesAccessToken | src/services/userService.ts:117-118 | an access token is refused with "Invalid or expired refresh token" |
| UserService.RefreshCases | src/services/userService.ts:117-127 | for every refresh token: the refresh-token message when verification fails, the store's error when the read fails other than with 404, "User not found" when the read finds nothing, and otherwise exactly a session for the stored account |
| AuthMiddleware.MissingTokenExactlyWithoutBearer | src/middleware/auth.ts:13-15 | the answer is "Access token required" exactly when the header is absent or does not start with "Bearer " |
| AuthMiddleware.BearerHeaderCases | src/middleware/auth.ts:17-32 | for every bearer header: rejected exactly when the token fails verification or the account read fails other than with 404, "User not found" exactly when the token verifies and the read finds nothing, otherwise the stored caller; with the 401 message of each case |
| AuthMiddleware.GarbageTokenRejected | src/middleware/auth.ts:17-32 | a bearer token that is not a token at all, "invalid-token" among them, is rejected for every store and key |
| AuthMiddleware.UnknownIdMissing | src/middleware/auth.ts:20-23 | any token that verifies to an id no record has is answered 401 "User not found" |
| AuthMiddleware.Resolve | src/middleware/auth.ts:11-29 | the classification both guards share: missing token, rejected token, missing account, or the caller; stated for every header by `MissingTokenExactlyWithoutBearer` and `BearerHeaderCases` |
| AuthMiddleware.Rejection | src/middleware/auth.ts:13-32 | the 401 answer `authenticate` sends for each unresolved case (`AuthMiddleware.RejectionIffUnresolved`) |
| AuthMiddleware.OnlyTokenMatters | src/middleware/auth.ts:17-18 | two bearer headers with the same token resolve alike |
| AuthMiddleware.ResolvedIsStored | src/middleware/auth.ts:17-29 | a resolved caller is the `{ id, email, username }` of the stored account named by the token |
| AuthMiddleware.LiveAccessTokenResolves | src/middleware/auth.ts:17-29 | a live access token for a stored account resolves to that account |
| AuthMiddleware.WrongOrExpiredTokenRejected | src/middleware/auth.ts:17-32 | an expired access token, or any refresh token, is rejected as "Invalid or expired token" |
| AuthMiddleware.DeletedAccountMissing | src/middleware/auth.ts:20-23 | a valid token whose account is gone is answered "User not found" |
| AuthMiddleware.RejectionIffUnresolved | src/middleware/auth.ts:13-32 | the guard answers exactly when it resolves no caller, and then always with 401 |
| AuthMiddleware.Authenticate | src/middleware/auth.ts:6-33 | the request gets the resolved caller and nothing is sent, or the request is untouched and the 401 rejection is sent |
| AuthMiddleware.OptionalAuth | src/middleware/auth.ts:35-60 | the request gets the resolved caller when there is one and is otherwise untouched; nothing is ever sent |
| AzureAuth.AgreesWithGuards | src/utils/azureAuth.ts:11-31 | the throwing variant returns exactly the caller the guards resolve; where they report a missing token it throws "Access token required", a missing account "User not found", a failed verification the access-token error, and a failed read of a verified token the store's non-404 error |
| AzureAuth.AuthenticateRequest | src/utils/azureAuth.ts:11-31 | `authenticateRequest`: the caller or the thrown error; stated by `AzureAuth.AgreesWithGuards` |
| AzureAuth.LiveAccessTokenAuthenticates | src/utils/azureAuth.ts:11-31 | a live access token for a stored account returns that account's `{ id, email, username }` |
| Replies.AnswerCases | src/controllers/authController.ts:6-21 | with distinct codes the status and the success flag tell success from failure and the body carries the value or the error's message |
| UserController.ForeignViewForgetsHashAndEmail | src/controllers/userController.ts:85-90 | two records look alike to another caller exactly when they differ at most in hash and email |
| UserController.GetProfile | src/controllers/userController.ts:11-35 | `getProfile`: 200 with the own record minus its hash, 404, or 500; stated by `ProfileReadsAgree` |
| UserController.UpdateProfile | src/controllers/userController.ts:37-54 | `updateProfile`: 200 with the updated record or 400 with the error; stated by `UpdateMissingIs400` and `UpdateProfileAnswersNewRecord` |
| UserController.DeleteProfile | src/controllers/userController.ts:56-71 | `deleteProfile`: 200 with the confirmation or 400 with the error; stated by `DeleteProfileCases` |
| UserController.GetUserById | src/controllers/userController.ts:73-97 | `getUserById`: 200 with the record minus hash and email, 404, or 500; stated by `ProfileReadsAgree` and `ForeignViewForgetsHashAndEmail` |
| UserController.ProfileReadsAgree | src/controllers/userController.ts:11-97 | both reads answer 200 for a stored id, 404 for a missing one or a 404 fault, 500 otherwise, with the same error; the bodies are the two views of the stored record |
| UserController.ProfileAfterRegister | src/controllers/userController.ts:11-28 | right after registration the caller's profile read answers the user the registration returned |
| UserController.UpdateMissingIs400 | src/controllers/userController.ts:37-54 | an update of a missing account is answered 400 "User not found" |
| UserController.UpdateProfileAnswersNewRecord | src/controllers/userController.ts:37-47 | for the corrected (declared-fields) update: a successful update is answered 200 with the public view of the rewritten record |
| UserController.DeleteProfileCases | src/controllers/userController.ts:56-71 | deletion answers 200 and removes the account, or 400 "User not found"; afterwards the profile read answers 404 |
| AuthController.RegisterDuplicateEmail | src/controllers/authController.ts:6-21 | a duplicate email is answered 400 with its message and nothing is stored |
| AuthController.Register | src/controllers/authController.ts:6-21 | `register`: 201 with the session or 400 with the error; stated by the `Register*` lemmas |
| AuthController.Login | src/controllers/authController.ts:23-38 | `login`: 200 with the session or 401 with the error; stated by `LoginFailureReply` and `RegisterThenLoginReplies` |
| AuthController.Refresh | src/controllers/authController.ts:40-55 | `refreshToken`: 200 with the new session or 401 with the error; stated by `RefreshWithAccessToken` and `RefreshLiveToken` |
| AuthController.Logout | src/controllers/authController.ts:57-62 | `logout`: the constant confirmation (`AuthController.LogoutAlwaysSucceeds`) |
| AuthController.RegisterDuplicateUsername | src/controllers/authController.ts:6-21 | a duplicate username is answered 400 with its message and nothing is stored |
| AuthController.RegisterThenLoginReplies | src/controllers/authController.ts:6-38 | a registration answered 201 is followed by a login answered 200 with the same user |
| AuthController.LoginFailureReply | src/controllers/authController.ts:23-38 | every failed login is answered 401 "Invalid email or password" |
| AuthController.RefreshWithAccessToken | src/controllers/authController.ts:40-55 | an access token sent to refresh is answered 401 with the refresh-token message |
| AuthController.RefreshLiveToken | src/controllers/authController.ts:40-55 | a live refresh token for a stored account is answered 200 with new tokens bound to that account |
| AuthController.LogoutAlwaysSucceeds | src/controllers/authController.ts:57-62 | logout answers 200 "Logged out successfully" with the success flag set, for every request |
| Validation.ProfileSchemaMeans | src/middleware/validation.ts:10-20 | a profile is accepted exactly when it is an object whose names are at most 50, bio at most 500 characters, avatar a URI, birth date a date and genres strings |
| Validation.NotificationsSchemaMeans | src/middleware/validation.ts:27-36 | the notification object is accepted exactly when each supplied flag is a boolean |
| Validation.PrivacySchemaMeans | src/middleware/validation.ts:37-44 | the privacy object is accepted exactly when each visibility is public, friends or private and the invite flag a boolean |
| Validation.PreferencesSchemaMeans | src/middleware/validation.ts:21-46 | preferences are accepted exactly when language and region have two characters, adult content is a boolean and the nested objects are valid |
| Validation.SubscriptionSchemaMeans | src/middleware/validation.ts:101-111 | a subscription is accepted exactly when it has string id and name, a boolean flag and a date-time `addedAt`, and a string tier if any |
| Validation.SubscriptionListMeans | src/middleware/validation.ts:99-112 | a subscription list is accepted exactly when it is an array of valid subscriptions |
| Validation.UsernameMeans | src/middleware/validation.ts:8 | a username is accepted exactly when it has 3 to 30 ASCII letters and digits |
| Validation.CreateUserSchemaMeans | src/middleware/validation.ts:3-48 | a registration body is accepted exactly when it has an email, a valid username and a password of at least 8 characters, with valid optional profile and preferences |
| Validation.CreateUserSchema | src/middleware/validation.ts:3-48 | `createUserSchema` as schema data; its meaning is `Validation.CreateUserSchemaMeans` |
| Validation.LoginSchemaMeans | src/middleware/validation.ts:50-57 | a login body is accepted exactly when it has an email and a string password |
| Validation.LoginSchema | src/middleware/validation.ts:50-57 | `loginSchema` as schema data; its meaning is `Validation.LoginSchemaMeans` |
| Validation.UpdateUserSchemaMeans | src/middleware/validation.ts:59-114 | an update body is accepted exactly when each of profile, preferences and subscriptions, where present, is valid |
| Validation.UpdateUserSchema | src/middleware/validation.ts:59-114 | `updateUserSchema` as schema data; its meaning is `Validation.UpdateUserSchemaMeans` |
| Validation.RefreshTokenSchemaMeans | src/middleware/validation.ts:116-122 | a refresh body is accepted exactly when it has a string `refreshToken` |
| Validation.RefreshTokenSchema | src/middleware/validation.ts:116-122 | `refreshTokenSchema` as schema data; its meaning is `Validation.RefreshTokenSchemaMeans` |
| Validation.RegistrationStricterThanLogin | src/middleware/validation.ts:3-57 | every valid registration body is a valid login body, and a login body with a short password is not a valid registration |
| Validation.UndeclaredKeyIgnored | src/middleware/validation.ts:59-114 | adding or replacing a key other than profile, preferences and streamingSubscriptions never changes whether an update body is accepted |
| Validation.UsernameKeyAccepted | src/middleware/validation.ts:59-114 | the body `{ "username": u }` passes the update schema for every `u` |

## Left out

- The Cosmos DB SDK, the network and the container's partitioning: the container is a `map` from id to record, with read faults and the `resource` echo as parameters.
- Cosmos metadata fields such as `_rid` and `_etag` that stored items carry: the record holds only the model's own fields.
- Store faults on the email and username queries: the queries always answer from the map.
- Store faults on writes: `create`, `replace` and `delete` fail in the model only with the container's own 409 (id in use) and 404 (id missing), whereas the SDK can also throw other errors (throttling, timeouts, an unavailable backend) that the service passes on and the controllers answer 400 with their message; the model gives only reads a fault parameter, because a write error would take the same pass-it-on branch as the modelled 409 and 404 errors, so those answers are not modelled separately.
- The race between the uniqueness checks and the create: operations are atomic on one container.
- bcrypt's cipher, its one-wayness and its 72-byte password limit: the stand-in hash keeps salt, cost and a digest that is the password itself.
- JWT cryptography, base64url encoding and header fields: the stand-in token is an escaped text of claims, expiry and key.
- The `expiresIn` strings of the configuration ("24h", "7d"): lifetimes are seconds (86400 and 604800 by default).
- The clock is read twice in `createUser` (`new Date()` and the constructor); the model uses one `now` for both.
- `uuid` generation: the fresh id is a parameter.
- JSON numbers are integers, `format` checks are a parameter, and the framework's type coercion is not modelled.
- Decoding a request body into a request record: the handlers take the request record directly.
- The Fastify reply object as a stream: a sent reply is a status and a body value; routing, the error handler and the Azure Functions adapters around `authenticateRequest` are not modelled.
- Text.Lower: folds only the ASCII letters A-Z, whereas `toLowerCase` also folds other Unicode letters, because the model has no Unicode case tables.
- Logout revokes nothing, and the model does not add revocation.
- AzureAuth.AgreesWithGuards: runs from the guards' case to the thrown error only; the converse does not hold, because a store fault may carry the same message as a guard outcome, so the thrown error does not always tell the guard's case apart.
- UserService.UserService.UpdateUser: follows the corrected update, so `email`, `username`, `passwordHash` and `createdAt` keys in the body are ignored, whereas the code as written stores them; `UserService.UpdateAsWritten` and `UserService.UpdateAsWrittenRewritesOneRecord` model that behaviour, and the Findings row explains why the method does not.
- UserController.UpdateProfile: answers from the corrected update and so drops the same four body keys; the code as written stores them (`UserService.UpdateAsWritten`).
- UserService.UpdateRewritesOneRecord: states that email, username, hash and creation time stay, which holds for the corrected update only; under the spread as written these come from the body when it has them, as `UserService.UpdateAsWrittenRewritesOneRecord` states.

## Findings

| source | as written | input that shows it | evidently intended | confidence | as-written member | corrected member |
|---|---|---|---|---|---|---|
| src/services/userService.ts:90-95 | the update spreads the whole request body over the stored record, and the update schema does not forbid other keys, so `username`, `email`, `passwordHash` or `createdAt` in the body overwrite the stored values without a uniqueness check (the schema accepts such a body: `Validation.UsernameKeyAccepted`) | accounts "a" (username "alice") and "b" (username "bob"); account "a" sends `{ "username": "bob" }` | only `profile`, `preferences` and `streamingSubscriptions` change, so emails and usernames stay unique | medium, not executed | UserService.UpdateAsWrittenBreaksUniqueness | UserService.UpdatePreservesInvariant |
