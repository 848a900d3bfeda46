/** Stand-ins for the two cryptographic libraries the core calls: bcryptjs
    (password hashing) and jsonwebtoken (signed bearer tokens). Their internals
    are not part of this model; what is kept is the shape of their outputs and
    the facts the core relies on: a hash verifies against exactly the password
    it was made from, and a token verifies under exactly the key that signed it,
    until its expiry time. */
module Crypto {
  import opened Outcomes
  import opened Text

  // ---------------------------------------------------------------------------
  // bcrypt

  /** The 22-character salt that bcrypt generates afresh for every hash. */
  type Salt = s: string | |s| == 22 witness "......................"

  const BcryptVersion: string := "$2a$"

  /** The cost factors bcrypt accepts. */
  predicate ValidCost(cost: nat) {
    4 <= cost <= 31
  }

  function CostText(cost: nat): string
    requires ValidCost(cost)
  {
    [DigitChar(cost / 10), DigitChar(cost % 10)]
  }

  /** Stand-in for bcrypt's Blowfish digest: injective in the password, which
      is the only property the core relies on (it is not one-way). */
  function Digest(salt: Salt, cost: nat, password: string): string {
    password
  }

  /** `bcrypt.hash(password, cost)` with the salt the library would draw:
      version, two-digit cost, salt and digest, as in a bcrypt hash string. */
  function BcryptHash(password: string, salt: Salt, cost: nat): string
    requires ValidCost(cost)
  {
    BcryptVersion + CostText(cost) + "$" + salt + Digest(salt, cost, password)
  }

  /** The cost factor a well-formed hash string records. */
  function BcryptCost(hash: string): Option<nat> {
    if |hash| >= 29 && hash[..4] == BcryptVersion && IsDigit(hash[4]) && IsDigit(hash[5]) && hash[6] == '$'
       && ValidCost(DigitValue(hash[4]) * 10 + DigitValue(hash[5]))
    then Some(DigitValue(hash[4]) * 10 + DigitValue(hash[5]))
    else None
  }

  /** `bcrypt.compare(password, hash)`: re-hashes the password with the salt and
      cost recorded in `hash` and compares; a malformed hash never matches. */
  function BcryptCompare(password: string, hash: string): bool {
    match BcryptCost(hash)
    case None => false
    case Some(cost) => BcryptHash(password, hash[7..29], cost) == hash
  }

  lemma BcryptHashLayout(password: string, salt: Salt, cost: nat)
    requires ValidCost(cost)
    ensures var h := BcryptHash(password, salt, cost);
      |h| >= 29 && h[..4] == BcryptVersion && h[4] == DigitChar(cost / 10) && h[5] == DigitChar(cost % 10)
      && h[6] == '$' && h[7..29] == salt && h[29..] == password
  {
  }

  /** A hash records the cost it was made with. */
  lemma BcryptCostOfHash(password: string, salt: Salt, cost: nat)
    requires ValidCost(cost)
    ensures BcryptCost(BcryptHash(password, salt, cost)) == Some(cost)
  {
    BcryptHashLayout(password, salt, cost);
  }

  /** A hash matches exactly the password it was made from. */
  lemma BcryptCompareHash(password: string, candidate: string, salt: Salt, cost: nat)
    requires ValidCost(cost)
    ensures BcryptCompare(candidate, BcryptHash(password, salt, cost)) <==> candidate == password
  {
    var h := BcryptHash(password, salt, cost);
    BcryptHashLayout(password, salt, cost);
    BcryptCostOfHash(password, salt, cost);
    if BcryptCompare(candidate, h) {
      BcryptHashLayout(candidate, h[7..29], cost);
      assert BcryptHash(candidate, h[7..29], cost)[29..] == candidate;
    }
  }

  /** Different salts give different hashes of the same password. */
  lemma BcryptSalted(password: string, salt1: Salt, salt2: Salt, cost: nat)
    requires ValidCost(cost) && salt1 != salt2
    ensures BcryptHash(password, salt1, cost) != BcryptHash(password, salt2, cost)
  {
    BcryptHashLayout(password, salt1, cost);
    BcryptHashLayout(password, salt2, cost);
  }

  // ---------------------------------------------------------------------------
  // JSON Web Tokens

  /** The payload the core signs: `{ userId, type }`. */
  datatype Claims = Claims(userId: string, kind: string)

  /** A decoded token: its claims, its `exp` (seconds since the epoch) and its
      signature, represented by the key that produced it. */
  datatype Jws = Jws(claims: Claims, exp: nat, signedWith: string)

  /** The compact form: four escaped segments joined by separators. */
  function Encode(t: Jws): string {
    Escape(t.claims.userId) + Tail(Some(
      Escape(t.claims.kind) + Tail(Some(
        Escape(Decimal(t.exp)) + Tail(Some(
          Escape(t.signedWith)))))))
  }

  /** Parses the compact form; any other text is malformed. */
  function Decode(text: string): Option<Jws> {
    var (userId, r1) := ReadSegment(text);
    if r1.None? then None else
    var (kind, r2) := ReadSegment(r1.value);
    if r2.None? then None else
    var (exp, r3) := ReadSegment(r2.value);
    if r3.None? then None else
    var (key, r4) := ReadSegment(r3.value);
    if r4.Some? then None else
    match ParseDecimal(exp)
    case None => None
    case Some(e) => Some(Jws(Claims(userId, kind), e, key))
  }

  lemma DecodeEncode(t: Jws)
    ensures Decode(Encode(t)) == Some(t)
  {
    var s4 := Escape(t.signedWith);
    var s3 := Escape(Decimal(t.exp)) + Tail(Some(s4));
    var s2 := Escape(t.claims.kind) + Tail(Some(s3));
    ReadEscaped(t.claims.userId, Some(s2));
    ReadEscaped(t.claims.kind, Some(s3));
    ReadEscaped(Decimal(t.exp), Some(s4));
    assert s4 == Escape(t.signedWith) + Tail(None);
    ReadEscaped(t.signedWith, None);
    ParseDecimalInverts(t.exp);
  }

  /** `jwt.sign(claims, key, { expiresIn })` at second `iat`: the token expires
      `expiresIn` seconds after it is issued. */
  function Sign(claims: Claims, key: string, iat: nat, expiresIn: nat): string {
    Encode(Jws(claims, iat + expiresIn, key))
  }

  datatype VerifyError = Malformed | BadSignature | Expired

  /** `jwt.verify(token, key)` at second `now`: the claims of a well-formed token
      signed with `key` whose expiry lies after `now`. */
  function Verify(token: string, key: string, now: nat): Result<Claims, VerifyError> {
    match Decode(token)
    case None => Err(Malformed)
    case Some(t) =>
      if t.signedWith != key then Err(BadSignature)
      else if now >= t.exp then Err(Expired)
      else Ok(t.claims)
  }

  /** A text with no separator is not a token: it fails verification as
      malformed under every key and at every time. */
  lemma UnseparatedMalformed(token: string, key: string, now: nat)
    requires Separator !in token
    ensures Verify(token, key, now) == Err(Malformed)
  {
    ReadSegmentUnterminated(token);
  }

  /** Verifying a signed token: its claims under the signing key while it is
      live, and a failure under any other key or once it has expired. */
  lemma VerifySigned(claims: Claims, key: string, iat: nat, expiresIn: nat, verifyKey: string, now: nat)
    ensures Verify(Sign(claims, key, iat, expiresIn), verifyKey, now) ==
      if verifyKey != key then Err(BadSignature)
      else if now >= iat + expiresIn then Err(Expired)
      else Ok(claims)
  {
    DecodeEncode(Jws(claims, iat + expiresIn, key));
  }
}
