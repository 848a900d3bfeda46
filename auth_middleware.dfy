/** The bearer-token request guards (`authenticate` and `optionalAuth`): find
    the caller from the `Authorization` header and either attach the caller to
    the request or answer 401. The classification of a header is a function;
    the guards are methods that update the request and reply objects. */
module AuthMiddleware {
  import opened Outcomes
  import opened Text
  import opened Crypto
  import opened UserModel
  import opened AuthService
  import opened UserService

  /** The caller as attached to the request: `{ id, email, username }`. */
  datatype AuthenticatedUser = AuthenticatedUser(id: string, email: string, username: string)

  const BearerPrefix: string := "Bearer "
  /** Where the token starts in the header: the source's `substring(7)`. */
  const TokenOffset: nat := 7

  const TokenRequiredMessage: string := "Access token required"
  const InvalidTokenMessage: string := "Invalid or expired token"
  const UnknownUserMessage: string := "User not found"

  function Identity(u: User): (a: AuthenticatedUser)
    ensures a.id == u.id && a.email == u.email && a.username == u.username
  {
    AuthenticatedUser(u.id, u.email, u.username)
  }

  /** The header carries a bearer credential. */
  predicate IsBearer(header: Option<string>) {
    header.Some? && StartsWith(header.value, BearerPrefix)
  }

  /** The token part of a bearer header. */
  function BearerToken(header: string): string {
    Substring(header, TokenOffset)
  }

  lemma BearerTokenAfterPrefix(token: string)
    ensures IsBearer(Some(BearerPrefix + token))
    ensures BearerToken(BearerPrefix + token) == token
  {
    assert (BearerPrefix + token)[..|BearerPrefix|] == BearerPrefix;
    assert (BearerPrefix + token)[TokenOffset..] == token;
  }

  /** How a request's header resolves. */
  datatype Resolution =
    | TokenMissing              // no header, or not a bearer header
    | TokenRejected             // the token fails verification, or the lookup throws
    | UserMissing               // the token verifies but names no stored account
    | Resolved(caller: AuthenticatedUser)

  /** The steps both guards share: the header check, the token after the
      prefix, access-token verification and the account lookup. */
  function Resolve(header: Option<string>, store: Store, cfg: JwtConfig, fault: Option<Error>, now: Time): Resolution {
    if !IsBearer(header) then TokenMissing
    else match VerifyAccessToken(cfg, BearerToken(header.value), now)
      case Err(_) => TokenRejected
      case Ok(userId) =>
        match LookupUser(store, userId, fault)
        case Err(_) => TokenRejected
        case Ok(None) => UserMissing
        case Ok(Some(user)) => Resolved(Identity(user))
  }

  /** A 401 answer with an error message. */
  datatype Sent = Sent(status: nat, error: string)

  /** What `authenticate` answers: nothing for a resolved caller, else 401 with the message of the case. */
  function Rejection(r: Resolution): Option<Sent> {
    match r
    case TokenMissing => Some(Sent(401, TokenRequiredMessage))
    case TokenRejected => Some(Sent(401, InvalidTokenMessage))
    case UserMissing => Some(Sent(401, UnknownUserMessage))
    case Resolved(_) => None
  }

  /** The incoming request: its `Authorization` header and the caller a guard attaches. */
  class Request {
    const authorization: Option<string>
    var user: Option<AuthenticatedUser>

    constructor (authorization: Option<string>)
      ensures this.authorization == authorization && user.None?
    {
      this.authorization := authorization;
      user := None;
    }
  }

  /** The reply object: the answer sent, if any. */
  class Reply {
    var sent: Option<Sent>

    constructor ()
      ensures sent.None?
    {
      sent := None;
    }

    method Send(status: nat, error: string)
      modifies this
      ensures sent == Some(Sent(status, error))
    {
      sent := Some(Sent(status, error));
    }
  }

  /** `authenticate`: attaches the resolved caller, or answers 401 and leaves the request alone. */
  method Authenticate(request: Request, reply: Reply, service: UserService, cfg: JwtConfig,
                      fault: Option<Error>, now: Time)
    modifies request, reply
    ensures var r := Resolve(request.authorization, service.container, cfg, fault, now);
      && request.user == (if r.Resolved? then Some(r.caller) else old(request.user))
      && reply.sent == (if r.Resolved? then old(reply.sent) else Rejection(r))
  {
    var authHeader := request.authorization;
    if !IsBearer(authHeader) {
      reply.Send(401, TokenRequiredMessage);
      return;
    }
    var token := BearerToken(authHeader.value);
    var verified := VerifyAccessToken(cfg, token, now);
    if verified.Err? {
      reply.Send(401, InvalidTokenMessage);
      return;
    }
    var user := service.GetUserById(verified.value, fault);
    match user
    case Err(_) =>
      reply.Send(401, InvalidTokenMessage);
    case Ok(None) =>
      reply.Send(401, UnknownUserMessage);
    case Ok(Some(u)) =>
      request.user := Some(Identity(u));
  }

  /** `optionalAuth`: attaches the resolved caller and otherwise does nothing; it never answers. */
  method OptionalAuth(request: Request, service: UserService, cfg: JwtConfig, fault: Option<Error>, now: Time)
    modifies request
    ensures var r := Resolve(request.authorization, service.container, cfg, fault, now);
      request.user == (if r.Resolved? then Some(r.caller) else old(request.user))
  {
    var authHeader := request.authorization;
    if !IsBearer(authHeader) {
      return;
    }
    var token := BearerToken(authHeader.value);
    var verified := VerifyAccessToken(cfg, token, now);
    if verified.Err? {
      return;
    }
    var user := service.GetUserById(verified.value, fault);
    if user.Ok? && user.value.Some? {
      request.user := Some(Identity(user.value.value));
    }
  }

  // ---------------------------------------------------------------------------
  // Properties

  /** Without a bearer header the answer is "Access token required", whatever
      the store and the keys; with one, it never is. */
  lemma MissingTokenExactlyWithoutBearer(header: Option<string>, store: Store, cfg: JwtConfig,
                                         fault: Option<Error>, now: Time)
    ensures Resolve(header, store, cfg, fault, now) == TokenMissing <==> !IsBearer(header)
  {
  }

  /** Only what follows "Bearer " is verified: two bearer headers with the same
      token resolve alike. */
  lemma OnlyTokenMatters(token: string, header: Option<string>, store: Store, cfg: JwtConfig,
                         fault: Option<Error>, now: Time)
    requires IsBearer(header) && BearerToken(header.value) == token
    ensures Resolve(header, store, cfg, fault, now) == Resolve(Some(BearerPrefix + token), store, cfg, fault, now)
  {
    BearerTokenAfterPrefix(token);
  }

  /** In a store that keeps records under their ids, a resolved caller is the
      stored account the header's token names. */
  lemma ResolvedIsStored(header: Option<string>, store: Store, cfg: JwtConfig, fault: Option<Error>, now: Time)
    requires StoreInvariant(store) && Resolve(header, store, cfg, fault, now).Resolved?
    ensures var c := Resolve(header, store, cfg, fault, now).caller;
      && IsBearer(header) && VerifyAccessToken(cfg, BearerToken(header.value), now) == Ok(c.id)
      && c.id in store && c == Identity(store[c.id])
  {
  }

  /** A live access token for a stored account authenticates as that account
      when the store answers. */
  lemma LiveAccessTokenResolves(store: Store, userId: string, cfg: JwtConfig, issued: Time, now: Time)
    requires userId in store && Live(issued, cfg.expiresIn, now)
    ensures Resolve(Some(BearerPrefix + GenerateAccessToken(cfg, userId, issued)), store, cfg, None, now)
            == Resolved(Identity(store[userId]))
  {
    BearerTokenAfterPrefix(GenerateAccessToken(cfg, userId, issued));
    AccessRoundTrip(cfg, userId, issued, now);
  }

  /** An expired access token, or a refresh token even while live, is refused as an invalid token. */
  lemma WrongOrExpiredTokenRejected(store: Store, userId: string, cfg: JwtConfig, issued: Time,
                                    fault: Option<Error>, now: Time)
    ensures !Live(issued, cfg.expiresIn, now) ==>
      Resolve(Some(BearerPrefix + GenerateAccessToken(cfg, userId, issued)), store, cfg, fault, now) == TokenRejected
    ensures Resolve(Some(BearerPrefix + GenerateRefreshToken(cfg, userId, issued)), store, cfg, fault, now) == TokenRejected
  {
    BearerTokenAfterPrefix(GenerateAccessToken(cfg, userId, issued));
    BearerTokenAfterPrefix(GenerateRefreshToken(cfg, userId, issued));
    AccessRoundTrip(cfg, userId, issued, now);
    KindsNeverCross(cfg, userId, issued, now);
  }

  /** Every bearer header, case by case: the token is rejected exactly when it
      fails verification or the read of its account fails (other than with
      404), the account is missing exactly when the token verifies and the read
      finds nothing, and otherwise the caller is the stored account; the
      answers `authenticate` sends for the first two are "Invalid or expired
      token" and "User not found". */
  lemma BearerHeaderCases(header: Option<string>, store: Store, cfg: JwtConfig, fault: Option<Error>, now: Time)
    requires IsBearer(header)
    ensures var v := VerifyAccessToken(cfg, BearerToken(header.value), now);
      var r := Resolve(header, store, cfg, fault, now);
      && (r == TokenRejected <==> v.Err? || (fault.Some? && fault.value.code != Some(404)))
      && (r == UserMissing <==> v.Ok? && LookupUser(store, v.value, fault) == Ok(None))
      && (r.Resolved? <==> v.Ok? && fault.None? && v.value in store)
      && (r.Resolved? ==> r.caller == Identity(store[v.value]))
      && (r == TokenRejected ==> Rejection(r) == Some(Sent(401, InvalidTokenMessage)))
      && (r == UserMissing ==> Rejection(r) == Some(Sent(401, UnknownUserMessage)))
  {
  }

  /** A bearer token that is not a token at all, such as "invalid-token", is
      rejected, whatever the store holds and the keys are. */
  lemma GarbageTokenRejected(token: string, store: Store, cfg: JwtConfig, fault: Option<Error>, now: Time)
    requires Separator !in token
    ensures Resolve(Some(BearerPrefix + token), store, cfg, fault, now) == TokenRejected
    ensures Resolve(Some("Bearer invalid-token"), store, cfg, fault, now) == TokenRejected
  {
    BearerTokenAfterPrefix(token);
    UnseparatedMalformed(token, cfg.secret, Seconds(now));
    BearerTokenAfterPrefix("invalid-token");
    assert BearerPrefix + "invalid-token" == "Bearer invalid-token";
    UnseparatedMalformed("invalid-token", cfg.secret, Seconds(now));
  }

  /** A token that verifies to an id no record has is answered "User not found",
      whichever way it was obtained. */
  lemma UnknownIdMissing(header: Option<string>, store: Store, cfg: JwtConfig, now: Time)
    requires IsBearer(header) && VerifyAccessToken(cfg, BearerToken(header.value), now).Ok?
    requires VerifyAccessToken(cfg, BearerToken(header.value), now).value !in store
    ensures Resolve(header, store, cfg, None, now) == UserMissing
    ensures Rejection(Resolve(header, store, cfg, None, now)) == Some(Sent(401, UnknownUserMessage))
  {
  }

  /** A valid token for a deleted account is answered "User not found". */
  lemma DeletedAccountMissing(store: Store, userId: string, cfg: JwtConfig, issued: Time, now: Time)
    requires Live(issued, cfg.expiresIn, now)
    ensures Resolve(Some(BearerPrefix + GenerateAccessToken(cfg, userId, issued)),
                    DeleteOutcome(store, userId, None).1, cfg, None, now) == UserMissing
  {
    BearerTokenAfterPrefix(GenerateAccessToken(cfg, userId, issued));
    AccessRoundTrip(cfg, userId, issued, now);
  }

  /** `authenticate` answers exactly when it does not attach a caller, and always with 401. */
  lemma RejectionIffUnresolved(r: Resolution)
    ensures Rejection(r).None? <==> r.Resolved?
    ensures Rejection(r).Some? ==> Rejection(r).value.status == 401
  {
  }
}
