/** `UserService`: the account lifecycle over the document container. The
    container is a map from id to record held by the service object; each
    operation is specified by a function of the container (and of the
    environment's inputs: fresh id, salt, clock, store faults) giving the
    result and the new container, and the service's methods are proved to
    follow those functions. */
module UserService {
  import opened Outcomes
  import opened Text
  import opened Crypto
  import opened UserModel
  import opened AuthService

  type Store = map<string, User>

  datatype CreateUserRequest = CreateUserRequest(
    email: string, username: string, password: string,
    profile: Option<ProfileData>, preferences: Option<PreferencesData>)

  datatype LoginRequest = LoginRequest(email: string, password: string)

  /** The update body as `updateUser` receives it. The first three fields are
      the declared ones; the body schema does not forbid other keys, so other
      top-level record fields can arrive with it. */
  datatype UpdateUserRequest = UpdateUserRequest(
    profile: Option<ProfileData>, preferences: Option<PreferencesData>,
    streamingSubscriptions: Option<seq<StreamingSubscription>>,
    email: Option<string>, username: Option<string>, passwordHash: Option<string>, createdAt: Option<Time>)
  {
    /** The body carries only declared fields. */
    predicate Declared() {
      email.None? && username.None? && passwordHash.None? && createdAt.None?
    }
  }

  const EmailTakenMessage: string := "User with this email already exists"
  const UsernameTakenMessage: string := "Username is already taken"
  const CreateFailedMessage: string := "Failed to create user"
  const InvalidCredentialsMessage: string := "Invalid email or password"
  const NotFoundMessage: string := "User not found"
  const UpdateFailedMessage: string := "Failed to update user"

  // ---------------------------------------------------------------------------
  // The document container

  /** What the container throws for a create under an id already in use. */
  const ConflictError: Error := Error("Entity with the specified id already exists in the system.", Some(409))
  /** What the container throws for a read, replace or delete of a missing id. */
  const MissingError: Error := Error("Entity with the specified id does not exist in the system.", Some(404))

  /** `items.create(doc)`: stores `doc` under its id unless the id is in use.
      `echo` says whether the response carries the stored resource. */
  function ContainerCreate(store: Store, doc: User, echo: bool): (Result<Option<User>, Error>, Store) {
    if doc.id in store then (Err(ConflictError), store)
    else (Ok(if echo then Some(doc) else None), store[doc.id := doc])
  }

  /** `item(id, id).read()`; `fault` is an error the backend throws instead of answering. */
  function ContainerRead(store: Store, id: string, fault: Option<Error>): Result<Option<User>, Error> {
    if fault.Some? then Err(fault.value)
    else if id in store then Ok(Some(store[id]))
    else Err(MissingError)
  }

  /** `item(id, id).replace(doc)`. */
  function ContainerReplace(store: Store, id: string, doc: User, echo: bool): (Result<Option<User>, Error>, Store) {
    if id !in store then (Err(MissingError), store)
    else (Ok(if echo then Some(doc) else None), store[id := doc])
  }

  /** `item(id, id).delete()`. */
  function ContainerDelete(store: Store, id: string): (Result<(), Error>, Store) {
    if id !in store then (Err(MissingError), store) else (Ok(()), store - {id})
  }

  // ---------------------------------------------------------------------------
  // The invariant the lifecycle keeps

  /** Every record sits under its own id, every email is lower-case, and no two
      records share an email or a username. */
  ghost predicate StoreInvariant(store: Store) {
    && (forall k :: k in store ==> store[k].id == k)
    && (forall k :: k in store ==> IsLower(store[k].email))
    && (forall k1, k2 :: k1 in store && k2 in store && store[k1].email == store[k2].email ==> k1 == k2)
    && (forall k1, k2 :: k1 in store && k2 in store && store[k1].username == store[k2].username ==> k1 == k2)
  }

  // ---------------------------------------------------------------------------
  // Queries

  /** Some record has the lower-cased `email`. */
  predicate EmailTaken(store: Store, email: string) {
    exists k :: k in store && store[k].email == Lower(email)
  }

  /** Some record has exactly this `username` (case-sensitive). */
  predicate UsernameTaken(store: Store, username: string) {
    exists k :: k in store && store[k].username == username
  }

  /** `findUserByEmail`: a record whose email is the lower-cased `email`, if any. */
  ghost function FindByEmail(store: Store, email: string): (r: Option<User>)
    ensures r.Some? <==> EmailTaken(store, email)
    ensures r.Some? ==> r.value in store.Values && r.value.email == Lower(email)
  {
    if EmailTaken(store, email) then
      var k :| k in store && store[k].email == Lower(email); Some(store[k])
    else None
  }

  /** `findUserByUsername`: a record with exactly this username, if any. */
  ghost function FindByUsername(store: Store, username: string): (r: Option<User>)
    ensures r.Some? <==> UsernameTaken(store, username)
    ensures r.Some? ==> r.value in store.Values && r.value.username == username
  {
    if UsernameTaken(store, username) then
      var k :| k in store && store[k].username == username; Some(store[k])
    else None
  }

  /** Under the invariant a query by email or by username can only find one
      record: the one whose email is the lower-cased query, or whose username it is. */
  lemma FindUnique(store: Store, k: string, email: string)
    requires StoreInvariant(store) && k in store && Lower(email) == store[k].email
    ensures FindByEmail(store, email) == Some(store[k])
    ensures FindByUsername(store, store[k].username) == Some(store[k])
  {
  }

  /** Email queries ignore letter case: two queries with the same lower-cased
      form find the same record, and so does the lower-cased query itself. */
  lemma EmailQueryIgnoresCase(store: Store, email: string, other: string)
    requires StoreInvariant(store) && Lower(email) == Lower(other)
    ensures FindByEmail(store, email) == FindByEmail(store, other)
    ensures FindByEmail(store, Lower(email)) == FindByEmail(store, email)
  {
    LowerIdempotent(email);
    if EmailTaken(store, email) {
      var k :| k in store && store[k].email == Lower(email);
      FindUnique(store, k, email);
      FindUnique(store, k, other);
      FindUnique(store, k, Lower(email));
    }
  }

  /** `getUserById`: the record, or none when the read finds nothing or fails
      with code 404; any other failure is passed on. */
  function LookupUser(store: Store, userId: string, fault: Option<Error>): (r: Result<Option<User>, Error>)
    ensures r == Ok(None) <==> (fault.None? && userId !in store) || (fault.Some? && fault.value.code == Some(404))
    ensures r.Ok? && r.value.Some? <==> fault.None? && userId in store
    ensures r.Ok? && r.value.Some? ==> r.value.value == store[userId]
    ensures r.Err? ==> fault.Some? && r.error == fault.value && r.error.code != Some(404)
  {
    match ContainerRead(store, userId, fault)
    case Ok(resource) => Ok(resource)
    case Err(e) => if e.code == Some(404) then Ok(None) else Err(e)
  }

  // ---------------------------------------------------------------------------
  // The lifecycle operations, as functions of the container

  /** The record `createUser` builds: fresh id, lower-cased email, the hash,
      no subscriptions, both timestamps from the clock, profile and
      preferences (when given) normalised over the defaults. */
  function NewRecord(req: CreateUserRequest, id: string, passwordHash: string, now: Time): User {
    Normalize(UserData(Some(id), Some(Lower(req.email)), Some(req.username), Some(passwordHash),
                       req.profile, req.preferences, Some([]), Some(now), Some(now)), now)
  }

  /** The public record and token pair handed out after a login-equivalent event. */
  function Session(user: User, cfg: JwtConfig, now: Time): AuthResponse {
    CreateAuthResponse(ToPublicJson(Normalize(ToJson(user), now)), cfg, now)
  }

  /** `createUser`: the result and the container afterwards. */
  function CreateOutcome(store: Store, req: CreateUserRequest, newId: string, salt: Salt, now: Time,
                         cfg: JwtConfig, echo: bool): (Result<AuthResponse, Error>, Store)
  {
    if EmailTaken(store, req.email) then (Err(Raise(EmailTakenMessage)), store)
    else if UsernameTaken(store, req.username) then (Err(Raise(UsernameTakenMessage)), store)
    else
      var newUser := NewRecord(req, newId, HashPassword(req.password, salt), now);
      var (created, after) := ContainerCreate(store, newUser, echo);
      match created
      case Err(e) => (Err(e), after)
      case Ok(None) => (Err(Raise(CreateFailedMessage)), after)
      case Ok(Some(resource)) => (Ok(Session(resource, cfg, now)), after)
  }

  /** `loginUser`. */
  ghost function LoginOutcome(store: Store, req: LoginRequest, cfg: JwtConfig, now: Time): Result<AuthResponse, Error> {
    match FindByEmail(store, req.email)
    case None => Err(Raise(InvalidCredentialsMessage))
    case Some(user) =>
      if !ComparePassword(req.password, user.passwordHash) then Err(Raise(InvalidCredentialsMessage))
      else Ok(Session(user, cfg, now))
  }

  /** `{ ...existingUser, ...updateData, id: existingUser.id, updatedAt: now }`
      restricted to the declared fields: each of them present in the update
      replaces the stored one wholesale; undeclared keys are ignored. */
  function Spread(existing: User, update: UpdateUserRequest, now: Time): UserData {
    var stored := ToJson(existing);
    stored.(
      profile := if update.profile.Some? then update.profile else stored.profile,
      preferences := if update.preferences.Some? then update.preferences else stored.preferences,
      streamingSubscriptions :=
        if update.streamingSubscriptions.Some? then update.streamingSubscriptions else stored.streamingSubscriptions,
      id := Some(existing.id),
      updatedAt := Some(now))
  }

  /** The spread as written: every key the body carries overrides the stored
      field, undeclared ones included. */
  function SpreadAsWritten(existing: User, update: UpdateUserRequest, now: Time): UserData {
    var merged := Spread(existing, update, now);
    merged.(
      email := if update.email.Some? then update.email else merged.email,
      username := if update.username.Some? then update.username else merged.username,
      passwordHash := if update.passwordHash.Some? then update.passwordHash else merged.passwordHash,
      createdAt := if update.createdAt.Some? then update.createdAt else merged.createdAt)
  }

  /** The replace step of `updateUser` and its answer. */
  function Rewrite(store: Store, userId: string, updatedUser: User, echo: bool): (Result<PublicUser, Error>, Store) {
    var (replaced, after) := ContainerReplace(store, userId, updatedUser, echo);
    match replaced
    case Err(e) => (Err(e), after)
    case Ok(None) => (Err(Raise(UpdateFailedMessage)), after)
    case Ok(Some(_)) => (Ok(ToPublicJson(updatedUser)), after)
  }

  /** `updateUser`, with only the declared fields reaching the record. */
  function UpdateOutcome(store: Store, userId: string, update: UpdateUserRequest, fault: Option<Error>,
                         now: Time, echo: bool): (Result<PublicUser, Error>, Store)
  {
    match LookupUser(store, userId, fault)
    case Err(e) => (Err(e), store)
    case Ok(None) => (Err(Raise(NotFoundMessage)), store)
    case Ok(Some(existing)) => Rewrite(store, userId, Normalize(Spread(existing, update, now), now), echo)
  }

  /** `updateUser` as written: the whole body is spread over the record. */
  function UpdateAsWritten(store: Store, userId: string, update: UpdateUserRequest, fault: Option<Error>,
                           now: Time, echo: bool): (Result<PublicUser, Error>, Store)
  {
    match LookupUser(store, userId, fault)
    case Err(e) => (Err(e), store)
    case Ok(None) => (Err(Raise(NotFoundMessage)), store)
    case Ok(Some(existing)) => Rewrite(store, userId, Normalize(SpreadAsWritten(existing, update, now), now), echo)
  }

  /** `deleteUser`. */
  function DeleteOutcome(store: Store, userId: string, fault: Option<Error>): (Result<(), Error>, Store) {
    match LookupUser(store, userId, fault)
    case Err(e) => (Err(e), store)
    case Ok(None) => (Err(Raise(NotFoundMessage)), store)
    case Ok(Some(_)) => ContainerDelete(store, userId)
  }

  /** `refreshToken`; it changes nothing, so only its result is given. */
  function RefreshOutcome(store: Store, refreshToken: string, cfg: JwtConfig, fault: Option<Error>,
                          now: Time): Result<AuthResponse, Error>
  {
    match VerifyRefreshToken(cfg, refreshToken, now)
    case Err(e) => Err(e)
    case Ok(userId) =>
      match LookupUser(store, userId, fault)
      case Err(e) => Err(e)
      case Ok(None) => Err(Raise(NotFoundMessage))
      case Ok(Some(user)) => Ok(Session(user, cfg, now))
  }

  // ---------------------------------------------------------------------------
  // The service object

  class UserService {
    var container: Store

    ghost predicate Valid()
      reads this
    {
      StoreInvariant(container)
    }

    constructor ()
      ensures Valid() && container == map[]
    {
      container := map[];
    }

    method FindUserByEmail(email: string) returns (r: Option<User>)
      requires Valid()
      ensures r == FindByEmail(container, email)
    {
      if EmailTaken(container, email) {
        var k :| k in container && container[k].email == Lower(email);
        FindUnique(container, k, email);
        r := Some(container[k]);
      } else {
        r := None;
      }
    }

    method FindUserByUsername(username: string) returns (r: Option<User>)
      requires Valid()
      ensures r == FindByUsername(container, username)
    {
      if UsernameTaken(container, username) {
        var k :| k in container && container[k].username == username;
        FindUnique(container, k, container[k].email);
        LowerFixesLower(container[k].email);
        r := Some(container[k]);
      } else {
        r := None;
      }
    }

    method GetUserById(userId: string, fault: Option<Error>) returns (r: Result<Option<User>, Error>)
      ensures r == LookupUser(container, userId, fault)
    {
      var read := ContainerRead(container, userId, fault);
      match read
      case Ok(resource) =>
        r := Ok(resource);
      case Err(e) =>
        if e.code == Some(404) {
          r := Ok(None);
        } else {
          r := Err(e);
        }
    }

    method CreateUser(req: CreateUserRequest, newId: string, salt: Salt, now: Time, cfg: JwtConfig, echo: bool)
      returns (r: Result<AuthResponse, Error>)
      requires Valid()
      modifies this
      ensures Valid()
      ensures (r, container) == CreateOutcome(old(container), req, newId, salt, now, cfg, echo)
    {
      CreatePreservesInvariant(container, req, newId, salt, now, cfg, echo);
      var existingUser := FindUserByEmail(req.email);
      if existingUser.Some? {
        return Err(Raise(EmailTakenMessage));
      }
      var existingUsername := FindUserByUsername(req.username);
      if existingUsername.Some? {
        return Err(Raise(UsernameTakenMessage));
      }
      var hashedPassword := HashPassword(req.password, salt);
      var newUser := NewRecord(req, newId, hashedPassword, now);
      var created;
      created, container := ContainerCreate(container, newUser, echo).0, ContainerCreate(container, newUser, echo).1;
      match created
      case Err(e) =>
        r := Err(e);
      case Ok(None) =>
        r := Err(Raise(CreateFailedMessage));
      case Ok(Some(resource)) =>
        r := Ok(Session(resource, cfg, now));
    }

    method LoginUser(req: LoginRequest, cfg: JwtConfig, now: Time) returns (r: Result<AuthResponse, Error>)
      requires Valid()
      ensures r == LoginOutcome(container, req, cfg, now)
    {
      var user := FindUserByEmail(req.email);
      if user.None? {
        return Err(Raise(InvalidCredentialsMessage));
      }
      var isValidPassword := ComparePassword(req.password, user.value.passwordHash);
      if !isValidPassword {
        return Err(Raise(InvalidCredentialsMessage));
      }
      r := Ok(Session(user.value, cfg, now));
    }

    method UpdateUser(userId: string, update: UpdateUserRequest, fault: Option<Error>, now: Time, echo: bool)
      returns (r: Result<PublicUser, Error>)
      requires Valid()
      modifies this
      ensures Valid()
      ensures (r, container) == UpdateOutcome(old(container), userId, update, fault, now, echo)
    {
      UpdatePreservesInvariant(container, userId, update, fault, now, echo);
      var existingUser := GetUserById(userId, fault);
      if existingUser.Err? {
        return Err(existingUser.error);
      }
      if existingUser.value.None? {
        return Err(Raise(NotFoundMessage));
      }
      var updatedUser := Normalize(Spread(existingUser.value.value, update, now), now);
      var replaced;
      replaced, container := ContainerReplace(container, userId, updatedUser, echo).0,
                             ContainerReplace(container, userId, updatedUser, echo).1;
      match replaced
      case Err(e) =>
        r := Err(e);
      case Ok(None) =>
        r := Err(Raise(UpdateFailedMessage));
      case Ok(Some(_)) =>
        r := Ok(ToPublicJson(updatedUser));
    }

    method DeleteUser(userId: string, fault: Option<Error>) returns (r: Result<(), Error>)
      requires Valid()
      modifies this
      ensures Valid()
      ensures (r, container) == DeleteOutcome(old(container), userId, fault)
    {
      DeletePreservesInvariant(container, userId, fault);
      var existingUser := GetUserById(userId, fault);
      if existingUser.Err? {
        return Err(existingUser.error);
      }
      if existingUser.value.None? {
        return Err(Raise(NotFoundMessage));
      }
      r, container := ContainerDelete(container, userId).0, ContainerDelete(container, userId).1;
    }

    method RefreshToken(refreshToken: string, cfg: JwtConfig, fault: Option<Error>, now: Time)
      returns (r: Result<AuthResponse, Error>)
      ensures r == RefreshOutcome(container, refreshToken, cfg, fault, now)
    {
      var verified := VerifyRefreshToken(cfg, refreshToken, now);
      if verified.Err? {
        return Err(verified.error);
      }
      var user := GetUserById(verified.value, fault);
      if user.Err? {
        return Err(user.error);
      }
      if user.value.None? {
        return Err(Raise(NotFoundMessage));
      }
      r := Ok(Session(user.value.value, cfg, now));
    }
  }

  // ---------------------------------------------------------------------------
  // Properties of createUser

  /** The email check comes first: a taken (lower-cased) email is refused and nothing is stored. */
  lemma CreateRejectsTakenEmail(store: Store, req: CreateUserRequest, newId: string, salt: Salt, now: Time,
                                cfg: JwtConfig, echo: bool)
    requires EmailTaken(store, req.email)
    ensures CreateOutcome(store, req, newId, salt, now, cfg, echo) == (Err(Raise(EmailTakenMessage)), store)
  {
  }

  /** A taken username (same case) is refused and nothing is stored. */
  lemma CreateRejectsTakenUsername(store: Store, req: CreateUserRequest, newId: string, salt: Salt, now: Time,
                                   cfg: JwtConfig, echo: bool)
    requires !EmailTaken(store, req.email) && UsernameTaken(store, req.username)
    ensures CreateOutcome(store, req, newId, salt, now, cfg, echo) == (Err(Raise(UsernameTakenMessage)), store)
  {
  }

  /** A successful check stores the built record under the fresh id. */
  lemma CreateStores(store: Store, req: CreateUserRequest, newId: string, salt: Salt, now: Time,
                     cfg: JwtConfig, echo: bool)
    requires !EmailTaken(store, req.email) && !UsernameTaken(store, req.username) && newId !in store
    ensures var u := NewRecord(req, newId, HashPassword(req.password, salt), now);
      CreateOutcome(store, req, newId, salt, now, cfg, echo) ==
        (if echo then Ok(Session(u, cfg, now)) else Err(Raise(CreateFailedMessage)), store[newId := u])
  {
  }

  /** The built record: fresh id, lower-cased email, the username as given, the
      hash, no subscriptions, both timestamps from the clock. */
  lemma NewRecordFields(req: CreateUserRequest, id: string, passwordHash: string, now: Time)
    ensures var u := NewRecord(req, id, passwordHash, now);
      && u.id == id && u.email == Lower(req.email) && IsLower(u.email) && u.username == req.username
      && u.passwordHash == passwordHash && u.streamingSubscriptions == [] && u.createdAt == now && u.updatedAt == now
  {
    LowerFixesLower(req.email);
  }

  /** A successful check adds exactly one record under the fresh id: lower-cased
      email, a hash that matches exactly the password, no subscriptions. The
      reply is the record's public view with a token pair bound to its id, or
      "Failed to create user" when the store does not echo the resource. */
  lemma CreateAddsOneRecord(store: Store, req: CreateUserRequest, newId: string, salt: Salt, now: Time,
                            cfg: JwtConfig, echo: bool)
    requires !EmailTaken(store, req.email) && !UsernameTaken(store, req.username) && newId !in store
    ensures var (r, after) := CreateOutcome(store, req, newId, salt, now, cfg, echo);
      var u := after[newId];
      && newId in after && after == store[newId := u]
      && u.id == newId && u.email == Lower(req.email) && u.username == req.username
      && (forall p :: ComparePassword(p, u.passwordHash) <==> p == req.password)
      && u.streamingSubscriptions == [] && u.createdAt == now && u.updatedAt == now
      && (echo ==> r == Ok(Session(u, cfg, now)))
      && (!echo ==> r == Err(Raise(CreateFailedMessage)))
  {
    CreateStores(store, req, newId, salt, now, cfg, echo);
    NewRecordFields(req, newId, HashPassword(req.password, salt), now);
  }

  /** The reply of a successful registration is the stored record minus its
      hash, with tokens that verify to the record's id while live. */
  lemma CreateReplyBoundToRecord(store: Store, req: CreateUserRequest, newId: string, salt: Salt, now: Time,
                                 cfg: JwtConfig, later: Time)
    requires !EmailTaken(store, req.email) && !UsernameTaken(store, req.username) && newId !in store
    ensures var (r, after) := CreateOutcome(store, req, newId, salt, now, cfg, true);
      && r.Ok? && r.value.user == ToPublicJson(after[newId])
      && (Live(now, cfg.expiresIn, later) ==> VerifyAccessToken(cfg, r.value.token, later) == Ok(newId))
      && (Live(now, cfg.refreshExpiresIn, later) ==> VerifyRefreshToken(cfg, r.value.refreshToken, later) == Ok(newId))
  {
    var u := NewRecord(req, newId, HashPassword(req.password, salt), now);
    CreateStores(store, req, newId, salt, now, cfg, true);
    NewRecordFields(req, newId, HashPassword(req.password, salt), now);
    NormalizeToJson(u, now);
    AuthResponseTokens(ToPublicJson(u), cfg, now, later);
  }

  /** A new id clashing with a stored one is refused by the container; nothing changes. */
  lemma CreateIdConflict(store: Store, req: CreateUserRequest, newId: string, salt: Salt, now: Time,
                         cfg: JwtConfig, echo: bool)
    requires !EmailTaken(store, req.email) && !UsernameTaken(store, req.username) && newId in store
    ensures CreateOutcome(store, req, newId, salt, now, cfg, echo) == (Err(ConflictError), store)
  {
  }

  /** Storing a record under its own id, with a lower-case email and an email and
      username no stored record has, keeps the invariant. */
  lemma InsertPreservesInvariant(store: Store, u: User)
    requires StoreInvariant(store) && IsLower(u.email)
    requires forall k :: k in store ==> store[k].email != u.email && store[k].username != u.username
    ensures StoreInvariant(store[u.id := u])
  {
  }

  /** createUser keeps emails lower-case and unique and usernames unique. */
  lemma CreatePreservesInvariant(store: Store, req: CreateUserRequest, newId: string, salt: Salt, now: Time,
                                 cfg: JwtConfig, echo: bool)
    requires StoreInvariant(store)
    ensures StoreInvariant(CreateOutcome(store, req, newId, salt, now, cfg, echo).1)
  {
    if !EmailTaken(store, req.email) && !UsernameTaken(store, req.username) && newId !in store {
      var u := NewRecord(req, newId, HashPassword(req.password, salt), now);
      CreateStores(store, req, newId, salt, now, cfg, echo);
      NewRecordFields(req, newId, HashPassword(req.password, salt), now);
      InsertPreservesInvariant(store, u);
    }
  }

  // ---------------------------------------------------------------------------
  // Properties of loginUser

  /** An unknown email and a wrong password give the very same error. */
  lemma LoginFailuresIndistinguishable(store: Store, req: LoginRequest, cfg: JwtConfig, now: Time)
    ensures !EmailTaken(store, req.email) ==> LoginOutcome(store, req, cfg, now) == Err(Raise(InvalidCredentialsMessage))
    ensures (EmailTaken(store, req.email) && !ComparePassword(req.password, FindByEmail(store, req.email).value.passwordHash))
            ==> LoginOutcome(store, req, cfg, now) == Err(Raise(InvalidCredentialsMessage))
    ensures LoginOutcome(store, req, cfg, now).Err? ==> LoginOutcome(store, req, cfg, now) == Err(Raise(InvalidCredentialsMessage))
  {
  }

  /** Logging in as a stored account (by its email in any letter case) succeeds
      exactly when the password matches its hash. */
  lemma LoginStored(store: Store, k: string, login: LoginRequest, cfg: JwtConfig, now: Time)
    requires StoreInvariant(store) && k in store && Lower(login.email) == store[k].email
    ensures LoginOutcome(store, login, cfg, now) ==
      if ComparePassword(login.password, store[k].passwordHash) then Ok(Session(store[k], cfg, now))
      else Err(Raise(InvalidCredentialsMessage))
  {
    FindUnique(store, k, login.email);
  }

  /** After a registration, logging in with the same email in any letter case
      succeeds exactly with the registered password, answering with the new
      record's public view; any other password gets the credentials error. */
  lemma RegisterThenLogin(store: Store, req: CreateUserRequest, newId: string, salt: Salt, now: Time,
                          cfg: JwtConfig, echo: bool, login: LoginRequest, later: Time)
    requires StoreInvariant(store)
    requires !EmailTaken(store, req.email) && !UsernameTaken(store, req.username) && newId !in store
    requires Lower(login.email) == Lower(req.email)
    ensures var after := CreateOutcome(store, req, newId, salt, now, cfg, echo).1;
      && (login.password == req.password ==>
            LoginOutcome(after, login, cfg, later) == Ok(Session(after[newId], cfg, later))
            && Session(after[newId], cfg, later).user == ToPublicJson(after[newId]))
      && (login.password != req.password ==>
            LoginOutcome(after, login, cfg, later) == Err(Raise(InvalidCredentialsMessage)))
  {
    var after := CreateOutcome(store, req, newId, salt, now, cfg, echo).1;
    CreatePreservesInvariant(store, req, newId, salt, now, cfg, echo);
    CreateAddsOneRecord(store, req, newId, salt, now, cfg, echo);
    LoginStored(after, newId, login, cfg, later);
    NormalizeToJson(after[newId], later);
  }

  // ---------------------------------------------------------------------------
  // Properties of updateUser

  /** A missing account is reported as "User not found" and nothing changes. */
  lemma UpdateMissing(store: Store, userId: string, update: UpdateUserRequest, now: Time, echo: bool)
    requires userId !in store
    ensures UpdateOutcome(store, userId, update, None, now, echo) == (Err(Raise(NotFoundMessage)), store)
  {
  }

  /** A successful update rewrites exactly the one record: id, email, username,
      hash and creation time stay; the update time is the clock; a supplied
      profile or subscription list replaces the stored one, a supplied
      preference object is merged over the built-in defaults (not over the
      stored preferences); the reply is the new record minus its hash. */
  lemma UpdateRewritesOneRecord(store: Store, userId: string, update: UpdateUserRequest, now: Time, echo: bool)
    requires userId in store
    ensures var (r, after) := UpdateOutcome(store, userId, update, None, now, echo);
      var old_ := store[userId];
      var u := after[userId];
      && userId in after && after == store[userId := u]
      && u.id == old_.id && u.email == old_.email && u.username == old_.username
      && u.passwordHash == old_.passwordHash && u.createdAt == old_.createdAt && u.updatedAt == now
      && u.profile == (if update.profile.Some? then ProfileFrom(update.profile.value) else old_.profile)
      && u.preferences == (if update.preferences.Some? then PreferencesFrom(update.preferences.value) else old_.preferences)
      && u.streamingSubscriptions == (if update.streamingSubscriptions.Some? then update.streamingSubscriptions.value
                                      else old_.streamingSubscriptions)
      && r == (if echo then Ok(ToPublicJson(u)) else Err(Raise(UpdateFailedMessage)))
  {
    NormalizeToJson(store[userId], now);
  }

  /** Stored notification flags do not survive an update that supplies
      preferences without them: the flags fall back to the defaults. */
  lemma UpdateResetsOmittedFlags(store: Store, userId: string, update: UpdateUserRequest, now: Time, echo: bool)
    requires userId in store
    requires update.preferences.Some? && update.preferences.value.notifications.None?
    ensures UpdateOutcome(store, userId, update, None, now, echo).1[userId].preferences.notifications == DefaultNotifications
  {
    UpdateRewritesOneRecord(store, userId, update, now, echo);
  }

  /** Rewriting a record in place without touching its id, email or username keeps the invariant. */
  lemma ReplacePreservesInvariant(store: Store, k: string, u: User)
    requires StoreInvariant(store) && k in store
    requires u.id == k && u.email == store[k].email && u.username == store[k].username
    ensures StoreInvariant(store[k := u])
  {
  }

  /** updateUser keeps the invariant: email and username are not touched. */
  lemma UpdatePreservesInvariant(store: Store, userId: string, update: UpdateUserRequest, fault: Option<Error>,
                                 now: Time, echo: bool)
    requires StoreInvariant(store)
    ensures StoreInvariant(UpdateOutcome(store, userId, update, fault, now, echo).1)
  {
    if fault.None? && userId in store {
      UpdateRewritesOneRecord(store, userId, update, now, echo);
      var after := UpdateOutcome(store, userId, update, fault, now, echo).1;
      ReplacePreservesInvariant(store, userId, after[userId]);
    }
  }

  /** For a body with only declared fields the code as written and the
      corrected update agree. */
  lemma UpdateAsWrittenAgreesOnDeclared(store: Store, userId: string, update: UpdateUserRequest,
                                        fault: Option<Error>, now: Time, echo: bool)
    requires update.Declared()
    ensures UpdateAsWritten(store, userId, update, fault, now, echo) == UpdateOutcome(store, userId, update, fault, now, echo)
  {
    if fault.None? && userId in store {
      assert SpreadAsWritten(store[userId], update, now) == Spread(store[userId], update, now);
    }
  }

  /** As written, a successful update rewrites the one record with every key the
      body carries: email, username, hash and creation time from the body where
      it has them (unchecked, and the email not lower-cased), the stored ones
      otherwise; id and update time as in the corrected update. */
  lemma UpdateAsWrittenRewritesOneRecord(store: Store, userId: string, update: UpdateUserRequest, now: Time, echo: bool)
    requires userId in store
    ensures var (r, after) := UpdateAsWritten(store, userId, update, None, now, echo);
      var old_ := store[userId];
      var u := after[userId];
      && userId in after && after == store[userId := u]
      && u.id == old_.id && u.updatedAt == now
      && u.email == update.email.GetOr(old_.email) && u.username == update.username.GetOr(old_.username)
      && u.passwordHash == update.passwordHash.GetOr(old_.passwordHash)
      && u.createdAt == update.createdAt.GetOr(old_.createdAt)
      && u.profile == (if update.profile.Some? then ProfileFrom(update.profile.value) else old_.profile)
      && u.preferences == (if update.preferences.Some? then PreferencesFrom(update.preferences.value) else old_.preferences)
      && u.streamingSubscriptions == (if update.streamingSubscriptions.Some? then update.streamingSubscriptions.value
                                      else old_.streamingSubscriptions)
      && r == (if echo then Ok(ToPublicJson(u)) else Err(Raise(UpdateFailedMessage)))
  {
    NormalizeToJson(store[userId], now);
  }

  /** As written, a `username` key in the body becomes the account's username,
      with no check against the other accounts. */
  lemma UpdateAsWrittenTakesUsername(store: Store, userId: string, update: UpdateUserRequest, now: Time)
    requires userId in store && update.username.Some?
    ensures UpdateAsWritten(store, userId, update, None, now, true).1 ==
      store[userId := Normalize(SpreadAsWritten(store[userId], update, now), now)]
    ensures Normalize(SpreadAsWritten(store[userId], update, now), now).username == update.username.value
  {
  }

  /** As written, the update breaks username uniqueness: account "a" takes the
      username of account "b". */
  lemma UpdateAsWrittenBreaksUniqueness()
    ensures var a := User("a", "a@example.com", "alice", "", DefaultProfile, DefaultPreferences, [], 0, 0);
      var b := User("b", "b@example.com", "bob", "", DefaultProfile, DefaultPreferences, [], 0, 0);
      var store := map["a" := a, "b" := b];
      var update := UpdateUserRequest(None, None, None, None, Some("bob"), None, None);
      && StoreInvariant(store)
      && !StoreInvariant(UpdateAsWritten(store, "a", update, None, 1, true).1)
  {
    var a := User("a", "a@example.com", "alice", "", DefaultProfile, DefaultPreferences, [], 0, 0);
    var b := User("b", "b@example.com", "bob", "", DefaultProfile, DefaultPreferences, [], 0, 0);
    var store := map["a" := a, "b" := b];
    var update := UpdateUserRequest(None, None, None, None, Some("bob"), None, None);
    assert IsLower(a.email) && IsLower(b.email);
    UpdateAsWrittenTakesUsername(store, "a", update, 1);
    var after := UpdateAsWritten(store, "a", update, None, 1, true).1;
    assert after["a"].username == "bob" && after["b"].username == "bob";
  }

  // ---------------------------------------------------------------------------
  // Properties of deleteUser and refreshToken

  /** deleteUser removes exactly the one key, or reports "User not found" and changes nothing. */
  lemma DeleteRemovesOneKey(store: Store, userId: string)
    ensures userId in store ==> DeleteOutcome(store, userId, None) == (Ok(()), store - {userId})
    ensures userId !in store ==> DeleteOutcome(store, userId, None) == (Err(Raise(NotFoundMessage)), store)
  {
  }

  lemma DeletePreservesInvariant(store: Store, userId: string, fault: Option<Error>)
    requires StoreInvariant(store)
    ensures StoreInvariant(DeleteOutcome(store, userId, fault).1)
  {
  }

  /** After a deletion the id is not found any more. */
  lemma DeleteThenLookup(store: Store, userId: string)
    ensures LookupUser(DeleteOutcome(store, userId, None).1, userId, None) == Ok(None)
  {
  }

  /** Every refresh token, case by case: a token that fails verification gets
      the refresh-token message, a failed read of its account (other than 404)
      passes the store's error on, a missing account gets "User not found",
      and otherwise the answer is a session for the stored account. */
  lemma RefreshCases(store: Store, refreshToken: string, cfg: JwtConfig, fault: Option<Error>, now: Time)
    ensures var v := VerifyRefreshToken(cfg, refreshToken, now);
      var r := RefreshOutcome(store, refreshToken, cfg, fault, now);
      && (v.Err? ==> r == Err(Raise(RefreshTokenError)))
      && (v.Ok? && fault.Some? && fault.value.code != Some(404) ==> r == Err(fault.value))
      && (v.Ok? && LookupUser(store, v.value, fault) == Ok(None) ==> r == Err(Raise(NotFoundMessage)))
      && (r.Ok? <==> v.Ok? && fault.None? && v.value in store)
      && (r.Ok? ==> r.value == Session(store[v.value], cfg, now))
  {
  }

  /** A live refresh token for a stored account yields a fresh pair for that account. */
  lemma RefreshStored(store: Store, userId: string, cfg: JwtConfig, issued: Time, now: Time)
    requires userId in store && Live(issued, cfg.refreshExpiresIn, now)
    ensures RefreshOutcome(store, GenerateRefreshToken(cfg, userId, issued), cfg, None, now) == Ok(Session(store[userId], cfg, now))
  {
    RefreshRoundTrip(cfg, userId, issued, now);
  }

  /** A refresh token still verifies after its account is deleted, so the
      failure is "User not found", not a token error. */
  lemma RefreshAfterDelete(store: Store, userId: string, cfg: JwtConfig, issued: Time, now: Time)
    requires userId in store && Live(issued, cfg.refreshExpiresIn, now)
    ensures RefreshOutcome(DeleteOutcome(store, userId, None).1, GenerateRefreshToken(cfg, userId, issued), cfg, None, now)
            == Err(Raise(NotFoundMessage))
  {
    RefreshRoundTrip(cfg, userId, issued, now);
  }

  /** An access token is refused by refreshToken with the refresh-token message. */
  lemma RefreshRefusesAccessToken(store: Store, userId: string, cfg: JwtConfig, issued: Time, fault: Option<Error>, now: Time)
    ensures RefreshOutcome(store, GenerateAccessToken(cfg, userId, issued), cfg, fault, now) == Err(Raise(RefreshTokenError))
  {
    KindsNeverCross(cfg, userId, issued, now);
  }
}
