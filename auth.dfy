/** Request authentication (jc/auth.py): access tokens that carry an expiry,
    their verification, and the decision chain that turns an X-API-Key header
    or a bearer token into a user. The signing itself belongs to the JWT
    library: a token is modelled as the claims it was signed over, the key
    and the algorithm, and decoding checks exactly those plus the expiry.
    Times are whole seconds since the epoch; the clock and the environment
    settings are parameters. */
module Auth {
  import opened Wrappers

  const Algorithm := "HS256"
  const AccessTokenExpireMinutes := 60
  const Unauthorized := 401

  /** A claim value, as JSON gives it back. */
  datatype Claim = CStr(s: string) | CNum(n: int) | CList(items: seq<string>) | CNull | COther

  type Claims = map<string, Claim>

  /** A bearer token: claims signed with a key under an algorithm, or a
      string that is not a token at all. */
  datatype Token = Signed(claims: Claims, key: string, algorithm: string) | Malformed(text: string)

  /** `JC_SECRET_KEY` and `JC_API_KEY` as the process read them (the API
      key defaults to ""). */
  datatype Settings = Settings(secretKey: string, apiKey: string)

  /** TokenData: the username and scopes a token carries. */
  datatype TokenData = TokenData(username: Option<string>, scopes: seq<string>)

  /** User. */
  datatype User = User(username: string, scopes: seq<string>)

  /** What escapes the functions: an HTTPException, or the validation error
      the token model raises for a claim of the wrong type. */
  datatype Failure = HttpError(status: int, detail: string, authenticate: string) | InvalidClaims

  const CredentialsError := HttpError(Unauthorized, "Could not validate credentials", "Bearer")
  const NotAuthenticated := HttpError(Unauthorized, "Not authenticated. Provide Bearer token or X-API-Key header.", "Bearer")

  // ---------------------------------------------------------------------------
  // create_access_token
  // ---------------------------------------------------------------------------

  /** The expiry: `now + expires_delta`, or 60 minutes from now when no delta
      is given or it is zero (a zero timedelta is false). */
  function Expiry(now: int, expiresDelta: Option<int>): int {
    if expiresDelta.Some? && expiresDelta.value != 0 then now + expiresDelta.value
    else now + AccessTokenExpireMinutes * 60
  }

  /** `create_access_token`: a copy of the payload with "exp" set, signed
      with the secret key under HS256. */
  function CreateAccessToken(settings: Settings, data: Claims, now: int, expiresDelta: Option<int>): Token {
    Signed(data["exp" := CNum(Expiry(now, expiresDelta))], settings.secretKey, Algorithm)
  }

  /** The token carries every claim of the payload except a replaced "exp",
      and "exp" is the delta (60 minutes by default) after `now`. */
  lemma CreateAccessTokenClaims(settings: Settings, data: Claims, now: int, expiresDelta: Option<int>)
    ensures var t := CreateAccessToken(settings, data, now, expiresDelta);
            t.Signed? && t.key == settings.secretKey && t.algorithm == "HS256" &&
            t.claims.Keys == data.Keys + {"exp"} &&
            (forall k :: k in data && k != "exp" ==> t.claims[k] == data[k]) &&
            (expiresDelta.None? || expiresDelta == Some(0) ==> t.claims["exp"] == CNum(now + 3600)) &&
            (expiresDelta.Some? && expiresDelta.value != 0 ==> t.claims["exp"] == CNum(now + expiresDelta.value))
  {
  }

  // ---------------------------------------------------------------------------
  // verify_token
  // ---------------------------------------------------------------------------

  /** `jwt.decode(token, SECRET_KEY, algorithms=[ALGORITHM])`: the claims of a
      token signed with that key under HS256 whose numeric "exp", if any, is
      not in the past, and whose "sub" and "jti", if present, are strings (the
      JWT library checks both claim types); anything else is a JWTError. */
  function Decode(token: Token, secretKey: string, now: int): (r: Option<Claims>)
    ensures r.Some? ==> token.Signed? && token.key == secretKey && token.algorithm == "HS256" && r.value == token.claims
    ensures r.Some? ==> ("sub" in r.value ==> r.value["sub"].CStr?) && ("jti" in r.value ==> r.value["jti"].CStr?)
    ensures r.Some? ==> ("exp" in r.value ==> r.value["exp"].CNum? && r.value["exp"].n >= now)
  {
    match token
    case Malformed(_) => None
    case Signed(claims, key, algorithm) =>
      if key != secretKey || algorithm != Algorithm then None
      else if "exp" in claims && (!claims["exp"].CNum? || claims["exp"].n < now) then None
      else if "sub" in claims && !claims["sub"].CStr? then None
      else if "jti" in claims && !claims["jti"].CStr? then None
      else Some(claims)
  }

  /** The converse: a token signed with the key under HS256 whose "exp",
      "sub" and "jti" have the right types, and whose expiry is not past,
      decodes to its claims. */
  lemma DecodeAccepts(claims: Claims, secretKey: string, now: int)
    requires "exp" in claims ==> claims["exp"].CNum? && claims["exp"].n >= now
    requires ("sub" in claims ==> claims["sub"].CStr?) && ("jti" in claims ==> claims["jti"].CStr?)
    ensures Decode(Signed(claims, secretKey, "HS256"), secretKey, now) == Some(claims)
  {
  }

  /** `verify_token`: the "sub" and "scopes" claims of a decoded token; a
      token that does not decode (a non-string "sub" included), or has no
      "sub", is a 401. */
  function VerifyToken(token: Token, secretKey: string, now: int): Result<TokenData, Failure> {
    match Decode(token, secretKey, now)
    case None => Err(CredentialsError)
    case Some(claims) =>
      if "sub" !in claims then Err(CredentialsError)
      else if "scopes" !in claims then Ok(TokenData(Some(claims["sub"].s), []))
      else if claims["scopes"].CList? then Ok(TokenData(Some(claims["sub"].s), claims["scopes"].items))
      else Err(InvalidClaims)
  }

  /** A token made by `create_access_token` for a payload with a string
      "sub" verifies, up to and including its expiry second, to that
      subject and the payload's scopes (none when it has none). */
  lemma TokenRoundTrip(settings: Settings, data: Claims, now: int, expiresDelta: Option<int>, later: int)
    requires "sub" in data && data["sub"].CStr?
    requires "jti" !in data || data["jti"].CStr?
    requires "scopes" !in data || data["scopes"].CList?
    requires later <= Expiry(now, expiresDelta)
    ensures VerifyToken(CreateAccessToken(settings, data, now, expiresDelta), settings.secretKey, later) ==
              Ok(TokenData(Some(data["sub"].s), if "scopes" in data then data["scopes"].items else []))
  {
    var claims := data["exp" := CNum(Expiry(now, expiresDelta))];
    assert Decode(CreateAccessToken(settings, data, now, expiresDelta), settings.secretKey, later) == Some(claims);
    assert claims["sub"] == data["sub"];
    assert "scopes" in claims <==> "scopes" in data;
    if "scopes" in data {
      assert claims["scopes"] == data["scopes"];
    }
  }

  /** After its expiry, or under another key, the same token is refused
      with a 401. */
  lemma TokenRefusedAfterExpiry(settings: Settings, data: Claims, now: int, expiresDelta: Option<int>,
                                later: int, key: string)
    requires later > Expiry(now, expiresDelta) || key != settings.secretKey
    ensures VerifyToken(CreateAccessToken(settings, data, now, expiresDelta), key, later) == Err(CredentialsError)
  {
    var claims := data["exp" := CNum(Expiry(now, expiresDelta))];
    assert claims["exp"] == CNum(Expiry(now, expiresDelta));
  }

  /** `verify_token` answers 401 exactly when the token does not decode or
      carries no usable subject; otherwise it returns that subject. */
  lemma VerifyTokenOutcome(token: Token, secretKey: string, now: int)
    ensures var r := VerifyToken(token, secretKey, now);
            var d := Decode(token, secretKey, now);
            (r == Err(CredentialsError) <==> d.None? || "sub" !in d.value) &&
            (r.Ok? ==> d.Some? && d.value["sub"] == CStr(r.value.username.value))
  {
  }

  // ---------------------------------------------------------------------------
  // get_current_user_optional / get_current_user
  // ---------------------------------------------------------------------------

  const Anonymous := User("anonymous", ["public"])
  const ApiKeyUser := User("api_key_user", ["admin"])

  /** `get_current_user_optional`: no configured API key lets everyone in as
      the anonymous user; a matching X-API-Key header is the admin user; a
      bearer token is verified (and may fail); otherwise there is no user. */
  function CurrentUserOptional(settings: Settings, credentials: Option<Token>, apiKey: Option<string>, now: int)
    : Result<Option<User>, Failure>
  {
    if settings.apiKey == [] then Ok(Some(Anonymous))
    else if apiKey.Some? && apiKey.value != [] && apiKey.value == settings.apiKey then Ok(Some(ApiKeyUser))
    else if credentials.Some? then
      match VerifyToken(credentials.value, settings.secretKey, now)
      case Err(e) => Err(e)
      case Ok(data) => Ok(Some(User(data.username.value, data.scopes)))
    else Ok(None)
  }

  /** `get_current_user`: the optional variant, with no user turned into a 401. */
  function CurrentUser(settings: Settings, credentials: Option<Token>, apiKey: Option<string>, now: int)
    : Result<User, Failure>
  {
    match CurrentUserOptional(settings, credentials, apiKey, now)
    case Err(e) => Err(e)
    case Ok(None) => Err(NotAuthenticated)
    case Ok(Some(u)) => Ok(u)
  }

  /** With no API key configured, every request is the anonymous user with
      scope "public", whatever credentials it carries. */
  lemma AuthDisabledIsAnonymous(settings: Settings, credentials: Option<Token>, apiKey: Option<string>, now: int)
    requires settings.apiKey == []
    ensures CurrentUserOptional(settings, credentials, apiKey, now) == Ok(Some(User("anonymous", ["public"])))
    ensures CurrentUser(settings, credentials, apiKey, now) == Ok(User("anonymous", ["public"]))
  {
  }

  /** A matching X-API-Key header is checked before the bearer token: it
      gives the admin user even alongside a token that would be refused. */
  lemma ApiKeyBeforeBearer(settings: Settings, credentials: Option<Token>, now: int)
    requires settings.apiKey != []
    ensures CurrentUserOptional(settings, credentials, Some(settings.apiKey), now) ==
              Ok(Some(User("api_key_user", ["admin"])))
  {
  }

  /** Otherwise a bearer token decides: its subject and scopes when it
      verifies, its failure when it does not. */
  lemma BearerDecides(settings: Settings, token: Token, apiKey: Option<string>, now: int)
    requires settings.apiKey != [] && apiKey != Some(settings.apiKey)
    ensures var r := CurrentUserOptional(settings, Some(token), apiKey, now);
            var v := VerifyToken(token, settings.secretKey, now);
            (v.Ok? ==> r == Ok(Some(User(v.value.username.value, v.value.scopes)))) &&
            (v.Err? ==> r == Err(v.error))
  {
  }

  /** There is no user exactly when an API key is configured, the header
      does not match it and no bearer token was sent; `get_current_user`
      then answers 401, and otherwise agrees with the optional variant. */
  lemma NoUserExactly(settings: Settings, credentials: Option<Token>, apiKey: Option<string>, now: int)
    ensures CurrentUserOptional(settings, credentials, apiKey, now) == Ok(None) <==>
              settings.apiKey != [] && apiKey != Some(settings.apiKey) && credentials.None?
    ensures var o := CurrentUserOptional(settings, credentials, apiKey, now);
            var r := CurrentUser(settings, credentials, apiKey, now);
            (o == Ok(None) ==> r == Err(HttpError(401, "Not authenticated. Provide Bearer token or X-API-Key header.", "Bearer"))) &&
            (o.Ok? && o.value.Some? ==> r == Ok(o.value.value)) &&
            (o.Err? ==> r == Err(o.error))
  {
  }
}
