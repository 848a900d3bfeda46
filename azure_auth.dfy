/** `authenticateRequest`: the same caller resolution as the request guards,
    for the function-app entry points, which receive the caller or a thrown
    error instead of a reply. */
module AzureAuth {
  import opened Outcomes
  import opened UserModel
  import opened AuthService
  import opened UserService
  import opened AuthMiddleware

  /** The caller named by a bearer header, or the error that is thrown: the
      header error, the access-token error from verification, a store error, or
      "User not found". */
  function AuthenticateRequest(header: Option<string>, store: Store, cfg: JwtConfig, fault: Option<Error>,
                               now: Time): Result<AuthenticatedUser, Error>
  {
    if !IsBearer(header) then Err(Raise(TokenRequiredMessage))
    else match VerifyAccessToken(cfg, BearerToken(header.value), now)
      case Err(e) => Err(e)
      case Ok(userId) =>
        match LookupUser(store, userId, fault)
        case Err(e) => Err(e)
        case Ok(None) => Err(Raise(NotFoundMessage))
        case Ok(Some(user)) => Ok(Identity(user))
  }

  /** The throwing variant agrees with the guards case by case: it returns
      exactly the caller they attach, throws "Access token required" where they
      report a missing token and "User not found" where they report a missing
      account, and where they reject the token it throws the access-token
      error when verification fails and the store's (non-404) error when the
      token verifies but the read fails. */
  lemma AgreesWithGuards(header: Option<string>, store: Store, cfg: JwtConfig, fault: Option<Error>, now: Time)
    ensures var a := AuthenticateRequest(header, store, cfg, fault, now);
      var r := Resolve(header, store, cfg, fault, now);
      && (a.Ok? <==> r.Resolved?)
      && (a.Ok? ==> a.value == r.caller)
      && (r == TokenMissing ==> a == Err(Raise(TokenRequiredMessage)))
      && (r == UserMissing ==> a == Err(Raise(NotFoundMessage)))
      && (r == TokenRejected ==>
            && IsBearer(header)
            && if VerifyAccessToken(cfg, BearerToken(header.value), now).Err? then a == Err(Raise(AccessTokenError))
               else fault.Some? && fault.value.code != Some(404) && a == Err(fault.value))
  {
  }

  /** A live access token for a stored account yields exactly that account's `{ id, email, username }`. */
  lemma LiveAccessTokenAuthenticates(store: Store, userId: string, cfg: JwtConfig, issued: Time, now: Time)
    requires userId in store && Live(issued, cfg.expiresIn, now)
    ensures AuthenticateRequest(Some(BearerPrefix + GenerateAccessToken(cfg, userId, issued)), store, cfg, None, now)
            == Ok(AuthenticatedUser(store[userId].id, store[userId].email, store[userId].username))
  {
    LiveAccessTokenResolves(store, userId, cfg, issued, now);
    AgreesWithGuards(Some(BearerPrefix + GenerateAccessToken(cfg, userId, issued)), store, cfg, None, now);
  }
}
