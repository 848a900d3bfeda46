/** `AuthController`: the registration, login, refresh and logout endpoints.
    Each maps its service call's outcome to one reply. */
module AuthController {
  import opened Outcomes
  import opened UserModel
  import opened Crypto
  import opened AuthService
  import opened UserService
  import opened Replies

  const LoggedOutMessage: string := "Logged out successfully"

  /** The body of a refresh request: `{ refreshToken }`. */
  datatype RefreshRequest = RefreshRequest(refreshToken: string)

  /** `register`: 201 with the session, 400 with the message of any error. */
  function Register(store: Store, req: CreateUserRequest, newId: string, salt: Salt, now: Time,
                    cfg: JwtConfig, echo: bool): (HttpReply<AuthResponse>, Store)
  {
    var (created, after) := CreateOutcome(store, req, newId, salt, now, cfg, echo);
    (Answer(created, 201, 400), after)
  }

  /** `login`: 200 with the session, 401 with the message of any error. */
  ghost function Login(store: Store, req: LoginRequest, cfg: JwtConfig, now: Time): HttpReply<AuthResponse> {
    Answer(LoginOutcome(store, req, cfg, now), 200, 401)
  }

  /** `refreshToken`: the body's token to the service; 200 with the new session, 401 on any error. */
  function Refresh(store: Store, body: RefreshRequest, cfg: JwtConfig, fault: Option<Error>, now: Time): HttpReply<AuthResponse> {
    Answer(RefreshOutcome(store, body.refreshToken, cfg, fault, now), 200, 401)
  }

  /** `logout`: tokens are not revoked; the answer is always the same. */
  function Logout(): HttpReply<()> {
    HttpReply(200, Message(LoggedOutMessage))
  }

  // ---------------------------------------------------------------------------
  // Properties

  /** A duplicate email is answered 400 with its message, and nothing is stored. */
  lemma RegisterDuplicateEmail(store: Store, req: CreateUserRequest, newId: string, salt: Salt, now: Time,
                               cfg: JwtConfig, echo: bool)
    requires EmailTaken(store, req.email)
    ensures Register(store, req, newId, salt, now, cfg, echo) == (HttpReply(400, Failure(EmailTakenMessage)), store)
  {
    CreateRejectsTakenEmail(store, req, newId, salt, now, cfg, echo);
  }

  /** A duplicate username (with a fresh email) is answered 400 with its message, and nothing is stored. */
  lemma RegisterDuplicateUsername(store: Store, req: CreateUserRequest, newId: string, salt: Salt, now: Time,
                                  cfg: JwtConfig, echo: bool)
    requires !EmailTaken(store, req.email) && UsernameTaken(store, req.username)
    ensures Register(store, req, newId, salt, now, cfg, echo) == (HttpReply(400, Failure(UsernameTakenMessage)), store)
  {
    CreateRejectsTakenUsername(store, req, newId, salt, now, cfg, echo);
  }

  /** A registration answered 201 has stored its record, and logging in after
      it with the same email and password is answered 200 with the same user. */
  lemma RegisterThenLoginReplies(store: Store, req: CreateUserRequest, newId: string, salt: Salt, now: Time,
                                 cfg: JwtConfig, later: Time)
    requires StoreInvariant(store)
    requires !EmailTaken(store, req.email) && !UsernameTaken(store, req.username) && newId !in store
    ensures var (reply, after) := Register(store, req, newId, salt, now, cfg, true);
      var login := Login(after, LoginRequest(req.email, req.password), cfg, later);
      && reply.status == 201 && reply.body.Data?
      && login.status == 200 && login.body.Data? && login.body.data.user == reply.body.data.user
  {
    var after := CreateOutcome(store, req, newId, salt, now, cfg, true).1;
    CreateReplyBoundToRecord(store, req, newId, salt, now, cfg, later);
    RegisterThenLogin(store, req, newId, salt, now, cfg, true, LoginRequest(req.email, req.password), later);
  }

  /** Every failed login is answered alike: 401 "Invalid email or password". */
  lemma LoginFailureReply(store: Store, req: LoginRequest, cfg: JwtConfig, now: Time)
    ensures Login(store, req, cfg, now).status != 200 ==>
      Login(store, req, cfg, now) == HttpReply(401, Failure(InvalidCredentialsMessage))
  {
    LoginFailuresIndistinguishable(store, req, cfg, now);
  }

  /** An access token sent to the refresh endpoint is answered 401 with the refresh-token message. */
  lemma RefreshWithAccessToken(store: Store, userId: string, cfg: JwtConfig, issued: Time, fault: Option<Error>, now: Time)
    ensures Refresh(store, RefreshRequest(GenerateAccessToken(cfg, userId, issued)), cfg, fault, now)
            == HttpReply(401, Failure(RefreshTokenError))
  {
    RefreshRefusesAccessToken(store, userId, cfg, issued, fault, now);
  }

  /** A live refresh token for a stored account is answered 200 with a session
      whose new tokens are bound to that account. */
  lemma RefreshLiveToken(store: Store, userId: string, cfg: JwtConfig, issued: Time, now: Time, later: Time)
    requires StoreInvariant(store) && userId in store && Live(issued, cfg.refreshExpiresIn, now)
    ensures var reply := Refresh(store, RefreshRequest(GenerateRefreshToken(cfg, userId, issued)), cfg, None, now);
      && reply.status == 200 && reply.body.Data?
      && reply.body.data.user == ToPublicJson(store[userId])
      && (Live(now, cfg.expiresIn, later) ==> VerifyAccessToken(cfg, reply.body.data.token, later) == Ok(userId))
  {
    RefreshStored(store, userId, cfg, issued, now);
    NormalizeToJson(store[userId], now);
    AuthResponseTokens(ToPublicJson(store[userId]), cfg, now, later);
  }

  /** Logout answers 200 "Logged out successfully" with the success flag set;
      it reads no input and no state, so no request can make it fail. */
  lemma LogoutAlwaysSucceeds()
    ensures Logout() == HttpReply(200, Message(LoggedOutMessage)) && Logout().body.Success()
  {
  }
}
