/** `AuthService`: password hashing with a fixed cost, and the two kinds of
    signed token, each signed with its own key and tagged with its kind. */
module AuthService {
  import opened Outcomes
  import opened Crypto
  import opened UserModel

  /** The token settings read from the environment (`config.jwt`); lifetimes in seconds. */
  datatype JwtConfig = JwtConfig(secret: string, expiresIn: nat, refreshSecret: string, refreshExpiresIn: nat)

  /** The lifetimes used when the environment sets none: "24h" and "7d". */
  const DefaultExpiresIn: nat := 24 * 60 * 60
  const DefaultRefreshExpiresIn: nat := 7 * 24 * 60 * 60

  /** `config.jwt`: the two keys, and each lifetime from the environment or its default. */
  function ConfigFrom(secret: string, expiresIn: Option<nat>, refreshSecret: string, refreshExpiresIn: Option<nat>): JwtConfig {
    JwtConfig(secret, expiresIn.GetOr(DefaultExpiresIn), refreshSecret, refreshExpiresIn.GetOr(DefaultRefreshExpiresIn))
  }

  const SaltRounds: nat := 12

  const AccessKind: string := "access"
  const RefreshKind: string := "refresh"

  const AccessTokenError: string := "Invalid or expired access token"
  const RefreshTokenError: string := "Invalid or expired refresh token"

  /** The reply to a login-equivalent event: the public record and a token pair. */
  datatype AuthResponse = AuthResponse(user: PublicUser, token: string, refreshToken: string)

  /** `hashPassword`: a bcrypt hash of cost 12 with a freshly drawn salt. */
  function HashPassword(password: string, salt: Salt): (h: string)
    ensures BcryptCost(h) == Some(SaltRounds)
    ensures forall candidate :: BcryptCompare(candidate, h) <==> candidate == password
  {
    BcryptCostOfHash(password, salt, SaltRounds);
    forall candidate ensures BcryptCompare(candidate, BcryptHash(password, salt, SaltRounds)) <==> candidate == password {
      BcryptCompareHash(password, candidate, salt, SaltRounds);
    }
    BcryptHash(password, salt, SaltRounds)
  }

  /** `comparePassword`. */
  function ComparePassword(password: string, hashedPassword: string): bool {
    BcryptCompare(password, hashedPassword)
  }

  /** The clock as jsonwebtoken reads it: whole seconds. */
  function Seconds(now: Time): nat {
    now / 1000
  }

  /** `generateAccessToken`: `{ userId, type: 'access' }` signed with `jwt.secret`. */
  function GenerateAccessToken(cfg: JwtConfig, userId: string, now: Time): string {
    Sign(Claims(userId, AccessKind), cfg.secret, Seconds(now), cfg.expiresIn)
  }

  /** `generateRefreshToken`: `{ userId, type: 'refresh' }` signed with `jwt.refreshSecret`. */
  function GenerateRefreshToken(cfg: JwtConfig, userId: string, now: Time): string {
    Sign(Claims(userId, RefreshKind), cfg.refreshSecret, Seconds(now), cfg.refreshExpiresIn)
  }

  /** Verification of one kind of token: the subject of a token that verifies
      under `key` and carries the `kind` tag; any other outcome is `failure`. */
  function VerifyKind(token: string, key: string, kind: string, failure: string, now: Time): (r: Result<string, Error>)
    ensures r.Ok? <==> Verify(token, key, Seconds(now)).Ok? && Verify(token, key, Seconds(now)).value.kind == kind
    ensures r.Ok? ==> r.value == Verify(token, key, Seconds(now)).value.userId
    ensures r.Err? ==> r.error == Raise(failure)
  {
    match Verify(token, key, Seconds(now))
    case Err(_) => Err(Raise(failure))
    case Ok(claims) =>
      if claims.kind != kind then Err(Raise(failure)) else Ok(claims.userId)
  }

  /** `verifyAccessToken`. */
  function VerifyAccessToken(cfg: JwtConfig, token: string, now: Time): Result<string, Error> {
    VerifyKind(token, cfg.secret, AccessKind, AccessTokenError, now)
  }

  /** `verifyRefreshToken`. */
  function VerifyRefreshToken(cfg: JwtConfig, token: string, now: Time): Result<string, Error> {
    VerifyKind(token, cfg.refreshSecret, RefreshKind, RefreshTokenError, now)
  }

  /** `createAuthResponse`: the user as given, an access token, then a refresh token, both for `user.id`. */
  function CreateAuthResponse(user: PublicUser, cfg: JwtConfig, now: Time): AuthResponse {
    var accessToken := GenerateAccessToken(cfg, user.id, now);
    var refreshToken := GenerateRefreshToken(cfg, user.id, now);
    AuthResponse(user, accessToken, refreshToken)
  }

  // ---------------------------------------------------------------------------
  // Properties

  /** Whether a token issued at `issued` with lifetime `ttl` is still live at `now`. */
  predicate Live(issued: Time, ttl: nat, now: Time) {
    Seconds(now) < Seconds(issued) + ttl
  }

  /** An access token verifies as an access token, to the id it was issued for,
      until it expires, and fails with the one access-token message afterwards. */
  lemma AccessRoundTrip(cfg: JwtConfig, userId: string, issued: Time, now: Time)
    ensures VerifyAccessToken(cfg, GenerateAccessToken(cfg, userId, issued), now) ==
      if Live(issued, cfg.expiresIn, now) then Ok(userId) else Err(Raise(AccessTokenError))
  {
    VerifySigned(Claims(userId, AccessKind), cfg.secret, Seconds(issued), cfg.expiresIn, cfg.secret, Seconds(now));
  }

  /** The same for refresh tokens. */
  lemma RefreshRoundTrip(cfg: JwtConfig, userId: string, issued: Time, now: Time)
    ensures VerifyRefreshToken(cfg, GenerateRefreshToken(cfg, userId, issued), now) ==
      if Live(issued, cfg.refreshExpiresIn, now) then Ok(userId) else Err(Raise(RefreshTokenError))
  {
    VerifySigned(Claims(userId, RefreshKind), cfg.refreshSecret, Seconds(issued), cfg.refreshExpiresIn,
                 cfg.refreshSecret, Seconds(now));
  }

  /** With no lifetimes in the environment, an access token verifies for one
      day (86400 seconds) from its issue and a refresh token for seven days
      (604800 seconds), and not a second longer. */
  lemma DefaultLifetimes(secret: string, refreshSecret: string, userId: string, issued: Time, now: Time)
    ensures var cfg := ConfigFrom(secret, None, refreshSecret, None);
      && (VerifyAccessToken(cfg, GenerateAccessToken(cfg, userId, issued), now).Ok? <==>
            now / 1000 < issued / 1000 + 86400)
      && (VerifyRefreshToken(cfg, GenerateRefreshToken(cfg, userId, issued), now).Ok? <==>
            now / 1000 < issued / 1000 + 604800)
  {
    var cfg := ConfigFrom(secret, None, refreshSecret, None);
    AccessRoundTrip(cfg, userId, issued, now);
    RefreshRoundTrip(cfg, userId, issued, now);
  }

  /** Comparing against a hash from `hashPassword` accepts exactly the password
      it was made from. */
  lemma ComparePasswordMatchesHash(password: string, candidate: string, salt: Salt)
    ensures ComparePassword(candidate, HashPassword(password, salt)) <==> candidate == password
  {
  }

  /** A token minted with lifetime zero is already expired. */
  lemma ZeroLifetimeRejected(cfg: JwtConfig, userId: string, issued: Time, now: Time)
    requires cfg.expiresIn == 0 && issued <= now
    ensures VerifyAccessToken(cfg, GenerateAccessToken(cfg, userId, issued), now) == Err(Raise(AccessTokenError))
  {
    AccessRoundTrip(cfg, userId, issued, now);
  }

  /** A token of one kind is never accepted as the other, even when both keys are the same. */
  lemma KindsNeverCross(cfg: JwtConfig, userId: string, issued: Time, now: Time)
    ensures VerifyAccessToken(cfg, GenerateRefreshToken(cfg, userId, issued), now) == Err(Raise(AccessTokenError))
    ensures VerifyRefreshToken(cfg, GenerateAccessToken(cfg, userId, issued), now) == Err(Raise(RefreshTokenError))
  {
    VerifySigned(Claims(userId, RefreshKind), cfg.refreshSecret, Seconds(issued), cfg.refreshExpiresIn,
                 cfg.secret, Seconds(now));
    VerifySigned(Claims(userId, AccessKind), cfg.secret, Seconds(issued), cfg.expiresIn,
                 cfg.refreshSecret, Seconds(now));
  }

  /** Every failure of access-token verification, whatever its cause, is the
      one message; likewise for refresh tokens. */
  lemma VerificationFailuresCollapse(cfg: JwtConfig, token: string, now: Time)
    ensures VerifyAccessToken(cfg, token, now).Err? ==> VerifyAccessToken(cfg, token, now).error == Raise(AccessTokenError)
    ensures VerifyRefreshToken(cfg, token, now).Err? ==> VerifyRefreshToken(cfg, token, now).error == Raise(RefreshTokenError)
  {
  }

  /** The response carries the user unchanged and a token of each kind bound to
      its id: each verifies to `user.id` for as long as it is live. */
  lemma AuthResponseTokens(user: PublicUser, cfg: JwtConfig, issued: Time, now: Time)
    ensures var r := CreateAuthResponse(user, cfg, issued);
      && r.user == user
      && (Live(issued, cfg.expiresIn, now) ==> VerifyAccessToken(cfg, r.token, now) == Ok(user.id))
      && (Live(issued, cfg.refreshExpiresIn, now) ==> VerifyRefreshToken(cfg, r.refreshToken, now) == Ok(user.id))
      && VerifyRefreshToken(cfg, r.token, now).Err?
      && VerifyAccessToken(cfg, r.refreshToken, now).Err?
  {
    AccessRoundTrip(cfg, user.id, issued, now);
    RefreshRoundTrip(cfg, user.id, issued, now);
    KindsNeverCross(cfg, user.id, issued, now);
  }
}
