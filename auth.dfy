/** Token construction and parsing (pkg/auth/auth.go). The factory builds the claims of an
    access, refresh or admin token; an access or refresh token is signed with the secret key and
    an admin token with the admin key. Times are NumericDates: whole seconds since the Unix epoch,
    taken from the current time, which is an input in nanoseconds. Signing and verifying with
    HMAC-SHA256 belong to the JWT library and are inputs: `sign` maps the claims and a key to the
    token text, and `verify` answers for a token and the key the key function supplied. */
module Auth {
  import opened Wrappers
  import opened Models
  import opened Configs

  const AccessType := "access"
  const RefreshType := "refresh"
  const AdminType := "admin"
  const ApiKeyType := "apikey"

  const Issuer := "phurinshopapi"

  /** How long an admin token lives, in seconds. */
  const AdminExpiresAt := 300

  /** The registered claims of section 4.1 of RFC 7519 that the tokens carry; dates in seconds. */
  datatype RegisteredClaims = RegisteredClaims(
    issuer: string,
    subject: string,
    audience: seq<string>,
    expiresAt: int,
    notBefore: int,
    issuedAt: int)

  /** The token payload: the user claims (none for an admin token) and the registered claims. */
  datatype MapClaims = MapClaims(claims: Option<UserClaims>, registered: RegisteredClaims)

  /** A token ready to be signed: a user token signs with the secret key, an admin token with
      the admin key. */
  datatype PhurinshopAuth =
    | UserAuth(mapClaims: MapClaims, cfg: JwtConfig)
    | AdminAuth(mapClaims: MapClaims, cfg: JwtConfig)

  type Signer = (MapClaims, string) -> string

  /** `jwt.NewNumericDate(t)`: `t` truncated to whole seconds. */
  function NumericDate(nanos: int): int {
    nanos / NanosPerSecond
  }

  /** `jwtTimeDurationCal(t)`: the date `t` seconds after `now`. */
  function DateAfter(now: int, seconds: int): int {
    NumericDate(now + Duration(seconds))
  }

  /** While the conversion to nanoseconds is exact, a date `t` seconds on is `t` whole seconds
      after the current one. */
  lemma DateAfterAdds(now: int, seconds: int)
    requires -9_223_372_036 <= seconds <= 9_223_372_036
    ensures DateAfter(now, seconds) == NumericDate(now) + seconds
  {
    DurationExact(seconds);
    var q := now / NanosPerSecond;
    var m := now % NanosPerSecond;
    assert now + seconds * NanosPerSecond == (q + seconds) * NanosPerSecond + m;
  }

  /** The registered claims all three constructors share but for the subject, the audience and
      the expiry. */
  function Registered(subject: string, audience: seq<string>, exp: int, now: int): RegisteredClaims {
    RegisteredClaims(Issuer, subject, audience, exp, NumericDate(now), NumericDate(now))
  }

  function NewAccessToken(cfg: JwtConfig, claims: Option<UserClaims>, now: int): (a: PhurinshopAuth)
    reads cfg
    ensures a.UserAuth? && a.cfg == cfg && a.mapClaims.claims == claims
  {
    UserAuth(MapClaims(claims, Registered("access-token", ["costomer", "admin"],
                                          DateAfter(now, cfg.accessExpiresAt), now)), cfg)
  }

  function NewRefreshToken(cfg: JwtConfig, claims: Option<UserClaims>, now: int): (a: PhurinshopAuth)
    reads cfg
    ensures a.UserAuth? && a.cfg == cfg && a.mapClaims.claims == claims
  {
    UserAuth(MapClaims(claims, Registered("refresh-token", ["costomer", "admin"],
                                          DateAfter(now, cfg.refreshExpiresAt), now)), cfg)
  }

  function NewAdminToken(cfg: JwtConfig, now: int): (a: PhurinshopAuth)
    ensures a.AdminAuth? && a.cfg == cfg && a.mapClaims.claims == None
  {
    AdminAuth(MapClaims(None, Registered("admin-token", ["admin"], DateAfter(now, AdminExpiresAt), now)), cfg)
  }

  /** `NewphurinshopAuth`: the three known token types, and an error for any other. */
  function NewphurinshopAuth(tokenType: string, cfg: JwtConfig, claims: Option<UserClaims>, now: int)
    : (r: Result<PhurinshopAuth, string>)
    reads cfg
    ensures r.Success? <==> tokenType in {AccessType, RefreshType, AdminType}
    ensures r.Failure? ==> r.error == "Unknow token type"
    ensures r.Success? ==> r.value.cfg == cfg && (r.value.AdminAuth? <==> tokenType == AdminType)
  {
    if tokenType == AccessType then Success(NewAccessToken(cfg, claims, now))
    else if tokenType == RefreshType then Success(NewRefreshToken(cfg, claims, now))
    else if tokenType == AdminType then Success(NewAdminToken(cfg, now))
    else Failure("Unknow token type")
  }

  /** The key a token is signed with. */
  function SigningKey(a: PhurinshopAuth): string
    reads a.cfg
  {
    if a.AdminAuth? then a.cfg.adminKey else a.cfg.secretKey
  }

  /** `SignToken`: the library's signature of the claims under the token's key. */
  function SignToken(a: PhurinshopAuth, sign: Signer): string
    reads a.cfg
  {
    sign(a.mapClaims, SigningKey(a))
  }

  /** `RepeatToken`: a token with the given expiry kept as it is, and without user claims (the
      claims passed in are not used). */
  function RepeatToken(cfg: JwtConfig, claims: Option<UserClaims>, exp: int, now: int, sign: Signer): string
    reads cfg
  {
    SignToken(UserAuth(MapClaims(None, Registered("access-token", ["costomer", "admin"], exp, now)), cfg), sign)
  }

  // ---------------------------------------------------------------- what the claims say

  /** The three tokens' claims: who they are for, and when they expire. */
  lemma TokenClaims(cfg: JwtConfig, claims: Option<UserClaims>, now: int)
    requires -9_223_372_036 <= cfg.accessExpiresAt <= 9_223_372_036
    requires -9_223_372_036 <= cfg.refreshExpiresAt <= 9_223_372_036
    ensures var r := NewAccessToken(cfg, claims, now).mapClaims.registered;
      r.issuer == Issuer && r.subject == "access-token" && r.audience == ["costomer", "admin"] &&
      r.expiresAt == NumericDate(now) + cfg.accessExpiresAt && r.notBefore == r.issuedAt == NumericDate(now)
    ensures var r := NewRefreshToken(cfg, claims, now).mapClaims.registered;
      r.issuer == Issuer && r.subject == "refresh-token" && r.audience == ["costomer", "admin"] &&
      r.expiresAt == NumericDate(now) + cfg.refreshExpiresAt && r.notBefore == r.issuedAt == NumericDate(now)
    ensures var r := NewAdminToken(cfg, now).mapClaims.registered;
      r.issuer == Issuer && r.subject == "admin-token" && r.audience == ["admin"] &&
      r.expiresAt == NumericDate(now) + AdminExpiresAt && r.notBefore == r.issuedAt == NumericDate(now)
  {
    DateAfterAdds(now, cfg.accessExpiresAt);
    DateAfterAdds(now, cfg.refreshExpiresAt);
    DateAfterAdds(now, AdminExpiresAt);
  }

  /** The admin key signs exactly the admin tokens; every other token the factory builds is
      signed with the secret key, and the API key never signs. */
  lemma KeySelection(tokenType: string, cfg: JwtConfig, claims: Option<UserClaims>, now: int, sign: Signer)
    requires NewphurinshopAuth(tokenType, cfg, claims, now).Success?
    ensures var a := NewphurinshopAuth(tokenType, cfg, claims, now).value;
      SignToken(a, sign) == sign(a.mapClaims, if tokenType == AdminType then cfg.adminKey else cfg.secretKey)
  {
  }

  /** A repeated token keeps the expiry it is given, whatever the current time, and drops the
      user claims it is handed. */
  lemma RepeatKeepsExpiry(cfg: JwtConfig, c1: Option<UserClaims>, c2: Option<UserClaims>, exp: int, now: int,
                          sign: Signer)
    ensures RepeatToken(cfg, c1, exp, now, sign) == RepeatToken(cfg, c2, exp, now, sign)
    ensures RepeatToken(cfg, c1, exp, now, sign) ==
      sign(MapClaims(None, RegisteredClaims(Issuer, "access-token", ["costomer", "admin"], exp,
                                            NumericDate(now), NumericDate(now))), cfg.secretKey)
  {
  }

  // ---------------------------------------------------------------- parsing

  /** A verification error as `errors.Is` sees it: whether it is (or wraps) the library's
      malformed-token or expired-token error, and its text. */
  datatype JwtError = JwtError(malformed: bool, expired: bool, text: string)

  /** What the library answers for a token, given the key the key function returned, or none
      when the key function refused the signing method. */
  type Verifier = (string, Option<string>) -> Result<MapClaims, JwtError>

  /** How a parse error is reported: malformed first, then expired, then anything else. */
  function ParseError(e: JwtError): (msg: string)
    ensures e.malformed ==> msg == "token format is invalid"
    ensures !e.malformed && e.expired ==> msg == "token had expired"
    ensures !e.malformed && !e.expired ==> msg == "parse token failed: " + e.text
  {
    if e.malformed then "token format is invalid"
    else if e.expired then "token had expired"
    else "parse token failed: " + e.text
  }

  /** Parsing with `key`: a token whose signing method is not HMAC gets no key. */
  function ParseWith(key: string, token: string, hmac: string -> bool, verify: Verifier): Result<MapClaims, string> {
    var r := verify(token, if hmac(token) then Some(key) else None);
    if r.Failure? then Failure(ParseError(r.error)) else Success(r.value)
  }

  /** `ParseToken`: verified with the secret key. */
  function ParseToken(cfg: JwtConfig, token: string, hmac: string -> bool, verify: Verifier): Result<MapClaims, string>
    reads cfg
  {
    ParseWith(cfg.secretKey, token, hmac, verify)
  }

  /** `ParseAdminToken`: verified with the admin key. */
  function ParseAdminToken(cfg: JwtConfig, token: string, hmac: string -> bool, verify: Verifier)
    : Result<MapClaims, string>
    reads cfg
  {
    ParseWith(cfg.adminKey, token, hmac, verify)
  }

  /** Every parse failure is one of three messages; a non-HMAC token is never verified with a
      key; the two parsers agree whenever the two keys do. */
  lemma ParseClassification(cfg: JwtConfig, token: string, hmac: string -> bool, verify: Verifier)
    ensures ParseToken(cfg, token, hmac, verify).Failure? ==>
      var msg := ParseToken(cfg, token, hmac, verify).error;
      msg == "token format is invalid" || msg == "token had expired" ||
      (|msg| >= 19 && msg[..19] == "parse token failed:")
    ensures !hmac(token) ==> ParseToken(cfg, token, hmac, verify) == ParseAdminToken(cfg, token, hmac, verify)
    ensures cfg.adminKey == cfg.secretKey ==>
      ParseToken(cfg, token, hmac, verify) == ParseAdminToken(cfg, token, hmac, verify)
    ensures verify(token, if hmac(token) then Some(cfg.secretKey) else None).Success? <==>
      ParseToken(cfg, token, hmac, verify).Success?
  {
    var r := verify(token, if hmac(token) then Some(cfg.secretKey) else None);
    if r.Failure? && !r.error.malformed && !r.error.expired {
      assert ("parse token failed: " + r.error.text)[..19] == "parse token failed:";
    }
  }

  /** The library never accepts a token whose key function refused it, so neither parser ever
      accepts a token that is not signed with HMAC; both report the library's error. */
  lemma NonHmacRefused(cfg: JwtConfig, token: string, hmac: string -> bool, verify: Verifier)
    requires forall t :: verify(t, None).Failure?
    requires !hmac(token)
    ensures ParseToken(cfg, token, hmac, verify) == Failure(ParseError(verify(token, None).error))
    ensures ParseAdminToken(cfg, token, hmac, verify) == Failure(ParseError(verify(token, None).error))
  {
  }
}
