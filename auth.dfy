/** Request authentication: the Azure AD bearer-token path (OpenID metadata
    and key set behind two TTL caches, key selection by `kid`, token
    validation by an abstract decoder), the API-key path, the dispatch on
    `AUTH_MODE`, and the GraphQL context built from the principal.

    Each operation that touches the caches appears twice: as a function on
    values (the caches as `CacheState`s), which the lemmas in `AuthProperties`
    are about, and as a method that updates the two cache objects in place the
    way the Python functions update the module-level caches, proved equal to
    the function. `AuthApiKey`, `FirstHeader` and `HeaderGet` touch no state
    and are functions only. */
module Auth {
  import opened Outcome
  import opened Json
  import Text
  import opened Config
  import opened Cache

  /** `requests.get(url, timeout=10)` followed by `raise_for_status()` and
      `.json()`: the parsed body, or the message of whatever was raised. */
  datatype FetchResult = Fetched(body: Json) | FetchFailed(cause: string)

  /** The arguments `jwt.decode` is called with. */
  datatype DecodeCall = DecodeCall(
    token: string,
    key: Object,
    algorithms: seq<Json>,
    audience: string,
    issuer: string,
    verifyAtHash: bool)

  /** `jwt.decode`: the verified claims, or the message of the exception it raised. */
  datatype DecodeResult = Decoded(claims: Object) | DecodeFailed(reason: string)

  /** The network and the `jose` library, abstracted: `unverifiedHeader` is
      `jwt.get_unverified_header` (None when the token does not parse), and
      `decode` checks signature, algorithm, expiry, audience and issuer. */
  datatype Oracles = Oracles(
    fetch: Json -> FetchResult,
    unverifiedHeader: string -> Option<Object>,
    decode: DecodeCall -> DecodeResult)

  type Claims = Object

  /** A request header as the ASGI server delivers it, its name in lower case. */
  datatype Header = Header(name: string, value: string)
  datatype Request = Request(headers: seq<Header>)

  /** What a GraphQL resolver sees: the request and the principal. */
  datatype Context = Context(request: Request, user: Claims)

  /** The two module-level caches: OpenID metadata and key set. */
  datatype Caches = Caches(oidc: CacheState, jwks: CacheState)

  /** One call: what it returned, the caches afterwards, and the URLs it fetched, in order. */
  datatype Run<T> = Run(result: Result<T>, caches: Caches, fetched: seq<Json>)

  /** One cache read-through: its result, that cache afterwards, and the URLs fetched. */
  datatype Fetch = Fetch(result: Result<Json>, state: CacheState, fetched: seq<Json>)

  datatype KeyScan = Found(key: Object) | NotFound | ScanFailed(error: Error)

  const OidcFailure: string := "OIDC metadata fetch failed: "
  const JwksFailure: string := "JWKS fetch failed: "
  const InvalidTokenPrefix: string := "Invalid token: "
  const MissingBearer: Error :=
    HttpError(401, "Missing or invalid Authorization header", map["WWW-Authenticate" := "Bearer"])
  const KeyNotFound: Error := HttpError(401, "Signing key not found", map[])
  const InvalidApiKey: Error := HttpError(401, "Invalid or missing API key", map[])
  const UnsupportedMode: Error := HttpError(500, "Unsupported AUTH_MODE", map[])
  const ApiKeyPrincipal: Claims := map["sub" := JStr("api-key-user"), "auth" := JStr("api_key")]

  // ---------------------------------------------------------------------
  // Specification functions on values
  // ---------------------------------------------------------------------

  /** The body of `_get_oidc` / `_get_jwks` past the hashing of the key: a
      live entry is returned without a fetch; otherwise the URL is fetched,
      and a success is stored while a failure becomes a 500 with `failure`
      before the cause and leaves the cache as it was. */
  function CachedFetch(st: CacheState, url: Json, now: int, fetch: Json -> FetchResult, failure: string): Fetch
  {
    match Lookup(st, url, now)
    case Some(v) => Fetch(Ok(v), st, [])
    case None =>
      match fetch(url)
      case Fetched(body) => Fetch(Ok(body), Stored(url, body, now), [url])
      case FetchFailed(cause) => Fetch(Err(HttpError(500, failure + cause, map[])), st, [url])
  }

  /** `settings.AAD_OPENID_CONFIG`, a string or None. */
  function OidcUrl(settings: Settings): Json
  {
    match settings.openIdConfig
    case Some(u) => JStr(u)
    case None => JNull
  }

  function GetOidcSpec(settings: Settings, st: CacheState, now: int, fetch: Json -> FetchResult): Fetch
  {
    CachedFetch(st, OidcUrl(settings), now, fetch, OidcFailure)
  }

  /** The `jwks_uri` the metadata names may be any JSON value; a list or a
      dict cannot be looked up in the cache. */
  function GetJwksSpec(uri: Json, st: CacheState, now: int, fetch: Json -> FetchResult): Fetch
  {
    if !Hashable(uri) then Fetch(Err(Uncaught(TypeError)), st, [])
    else CachedFetch(st, uri, now, fetch, JwksFailure)
  }

  /** `value[name]` on parsed JSON. */
  function Member(v: Json, name: string): Result<Json>
  {
    match v
    case JObj(m) => if name in m then Ok(m[name]) else Err(Uncaught(KeyError(name)))
    case _ => Err(Uncaught(TypeError))
  }

  /** The loop over a list of keys: the first entry whose `kid` equals
      `kid` wins; an entry that is not a JSON object stops the loop with an
      AttributeError when the loop reaches it. */
  function FirstMatch(keys: seq<Json>, kid: Json): KeyScan
  {
    if keys == [] then NotFound
    else match keys[0]
      case JObj(m) => if Get(m, "kid") == kid then Found(m) else FirstMatch(keys[1..], kid)
      case _ => ScanFailed(Uncaught(AttributeError))
  }

  /** `for k in keys`: a list is scanned; a string iterates its characters and
      a dict its member names, none of which has `.get`; anything else is not
      iterable. */
  function ScanKeys(keys: Json, kid: Json): KeyScan
  {
    match keys
    case JArr(items) => FirstMatch(items, kid)
    case JStr(s) => if s == [] then NotFound else ScanFailed(Uncaught(AttributeError))
    case JObj(m) => if m == map[] then NotFound else ScanFailed(Uncaught(AttributeError))
    case _ => ScanFailed(Uncaught(TypeError))
  }

  function SelectKeySpec(jwks: Json, kid: Json): KeyScan
  {
    match Member(jwks, "keys")
    case Err(e) => ScanFailed(e)
    case Ok(keys) => ScanKeys(keys, kid)
  }

  /** `[key.get("alg", "RS256"), "RS256", "RS384", "RS512"]` */
  function Algorithms(key: Object): seq<Json>
  {
    [GetOr(key, "alg", JStr("RS256")), JStr("RS256"), JStr("RS384"), JStr("RS512")]
  }

  function DecodeCallFor(settings: Settings, token: string, key: Object): DecodeCall
  {
    DecodeCall(token, key, Algorithms(key), settings.audience, settings.issuer, false)
  }

  /** `_decode_aad_token`: metadata, then its `jwks_uri`, then the key set,
      then the unverified header, then the key, then the decoder. */
  function DecodeAadTokenSpec(settings: Settings, token: string, c: Caches, now: int, o: Oracles): Run<Claims>
  {
    var oidc := GetOidcSpec(settings, c.oidc, now, o.fetch);
    if oidc.result.Err? then Run(Err(oidc.result.error), Caches(oidc.state, c.jwks), oidc.fetched)
    else match Member(oidc.result.value, "jwks_uri")
      case Err(e) => Run(Err(e), Caches(oidc.state, c.jwks), oidc.fetched)
      case Ok(uri) =>
        var jwks := GetJwksSpec(uri, c.jwks, now, o.fetch);
        var after := Caches(oidc.state, jwks.state);
        var fetched := oidc.fetched + jwks.fetched;
        if jwks.result.Err? then Run(Err(jwks.result.error), after, fetched)
        else match o.unverifiedHeader(token)
          case None => Run(Err(Uncaught(JwtError)), after, fetched)
          case Some(header) =>
            match SelectKeySpec(jwks.result.value, Get(header, "kid"))
            case ScanFailed(e) => Run(Err(e), after, fetched)
            case NotFound => Run(Err(KeyNotFound), after, fetched)
            case Found(key) =>
              if key == map[] then Run(Err(KeyNotFound), after, fetched)
              else match o.decode(DecodeCallFor(settings, token, key))
                case Decoded(claims) => Run(Ok(claims), after, fetched)
                case DecodeFailed(reason) => Run(Err(HttpError(401, InvalidTokenPrefix + reason, map[])), after, fetched)
  }

  /** `authorization.lower().startswith("bearer ")` */
  predicate HasBearerPrefix(authorization: string)
  {
    Text.StartsWith(Text.Lower(authorization), "bearer ")
  }

  /** `_auth_aad` */
  function AuthAadSpec(settings: Settings, authorization: Option<string>, c: Caches, now: int, o: Oracles): Run<Claims>
  {
    if authorization.None? || authorization.value == "" || !HasBearerPrefix(authorization.value) then
      Run(Err(MissingBearer), c, [])
    else
      var parts := Text.SplitOnce(authorization.value, ' ');
      if |parts| < 2 then Run(Err(Uncaught(IndexError)), c, [])
      else DecodeAadTokenSpec(settings, Text.Strip(parts[1]), c, now, o)
  }

  /** `_auth_api_key`: only a non-empty value equal to the configured secret
      is accepted, and it yields the fixed API-key principal. */
  function AuthApiKey(settings: Settings, provided: Option<string>): Result<Claims>
  {
    if provided.None? || provided.value == "" || provided.value != settings.apiKeyValue then Err(InvalidApiKey)
    else Ok(ApiKeyPrincipal)
  }

  /** The value of the first header called `name`, if any. */
  function FirstHeader(headers: seq<Header>, name: string): (r: Option<string>)
    ensures r.None? <==> forall i :: 0 <= i < |headers| ==> headers[i].name != name
    ensures r.Some? ==>
      exists i :: 0 <= i < |headers| && headers[i].name == name && r.value == headers[i].value &&
        forall j :: 0 <= j < i ==> headers[j].name != name
  {
    if headers == [] then None
    else if headers[0].name == name then Some(headers[0].value)
    else
      var rest := FirstHeader(headers[1..], name);
      assert forall k :: 0 <= k < |headers[1..]| ==> headers[1..][k] == headers[k + 1];
      rest
  }

  /** `request.headers.get(name)`: the name is lower-cased and encoded as
      Latin-1 before it is compared with the stored names. */
  function HeaderGet(headers: seq<Header>, name: string): Result<Option<string>>
  {
    var wanted := Text.Lower(name);
    if !Text.IsLatin1(wanted) then Err(Uncaught(UnicodeEncodeError)) else Ok(FirstHeader(headers, wanted))
  }

  /** `auth_dependency` */
  function AuthDependencySpec(settings: Settings, request: Request, authorization: Option<string>,
                              c: Caches, now: int, o: Oracles): Run<Claims>
  {
    if settings.authMode == "AAD" then AuthAadSpec(settings, authorization, c, now, o)
    else if settings.authMode == "API_KEY" then
      match HeaderGet(request.headers, settings.apiKeyHeader)
      case Err(e) => Run(Err(e), c, [])
      case Ok(provided) => Run(AuthApiKey(settings, provided), c, [])
    else Run(Err(UnsupportedMode), c, [])
  }

  /** `graphql_context_getter`, reached only through a successful `auth_dependency`. */
  function GraphqlContextSpec(settings: Settings, request: Request, authorization: Option<string>,
                              c: Caches, now: int, o: Oracles): Run<Context>
  {
    var run := AuthDependencySpec(settings, request, authorization, c, now, o);
    match run.result
    case Ok(principal) => Run(Ok(Context(request, principal)), run.caches, run.fetched)
    case Err(e) => Run(Err(e), run.caches, run.fetched)
  }

  // ---------------------------------------------------------------------
  // The same operations over the cache objects
  // ---------------------------------------------------------------------

  /** `_get_oidc` */
  method GetOidc(settings: Settings, cache: TtlCache, now: int, fetch: Json -> FetchResult)
    returns (r: Result<Json>, fetched: seq<Json>)
    requires cache.Valid()
    modifies cache
    ensures cache.Valid()
    ensures Fetch(r, cache.State(), fetched) == GetOidcSpec(settings, old(cache.State()), now, fetch)
  {
    var url := OidcUrl(settings);
    if cache.Contains(url, now) {
      return Ok(cache.Get(url, now)), [];
    }
    match fetch(url) {
      case Fetched(data) =>
        cache.Set(url, data, now);
        return Ok(data), [url];
      case FetchFailed(cause) =>
        return Err(HttpError(500, OidcFailure + cause, map[])), [url];
    }
  }

  /** `_get_jwks` */
  method GetJwks(uri: Json, cache: TtlCache, now: int, fetch: Json -> FetchResult)
    returns (r: Result<Json>, fetched: seq<Json>)
    requires cache.Valid()
    modifies cache
    ensures cache.Valid()
    ensures Fetch(r, cache.State(), fetched) == GetJwksSpec(uri, old(cache.State()), now, fetch)
  {
    if !Hashable(uri) {
      return Err(Uncaught(TypeError)), [];
    }
    if cache.Contains(uri, now) {
      return Ok(cache.Get(uri, now)), [];
    }
    match fetch(uri) {
      case Fetched(data) =>
        cache.Set(uri, data, now);
        return Ok(data), [uri];
      case FetchFailed(cause) =>
        return Err(HttpError(500, JwksFailure + cause, map[])), [uri];
    }
  }

  /** The key-selection loop of `_decode_aad_token`, from `jwks["keys"]` to `break`. */
  method SelectKey(jwks: Json, kid: Json) returns (r: KeyScan)
    ensures r == SelectKeySpec(jwks, kid)
  {
    var keys := Member(jwks, "keys");
    if keys.Err? {
      return ScanFailed(keys.error);
    }
    match keys.value {
      case JArr(items) =>
        var key: Option<Object> := None;
        var i := 0;
        while i < |items|
          invariant 0 <= i <= |items|
          invariant FirstMatch(items, kid) == FirstMatch(items[i..], kid)
        {
          var k := items[i];
          if !k.JObj? {
            return ScanFailed(Uncaught(AttributeError));
          }
          if Get(k.fields, "kid") == kid {
            key := Some(k.fields);
            break;
          }
          i := i + 1;
        }
        r := if key.Some? then Found(key.value) else NotFound;
      case JStr(s) =>
        r := if s == [] then NotFound else ScanFailed(Uncaught(AttributeError));
      case JObj(m) =>
        r := if m == map[] then NotFound else ScanFailed(Uncaught(AttributeError));
      case _ =>
        r := ScanFailed(Uncaught(TypeError));
    }
  }

  /** `_decode_aad_token` */
  method DecodeAadToken(settings: Settings, token: string, oidcCache: TtlCache, jwksCache: TtlCache,
                        now: int, o: Oracles)
    returns (r: Result<Claims>, fetched: seq<Json>)
    requires oidcCache.Valid() && jwksCache.Valid() && oidcCache != jwksCache
    modifies oidcCache, jwksCache
    ensures oidcCache.Valid() && jwksCache.Valid()
    ensures Run(r, Caches(oidcCache.State(), jwksCache.State()), fetched)
         == DecodeAadTokenSpec(settings, token, Caches(old(oidcCache.State()), old(jwksCache.State())), now, o)
  {
    var oidc, fetchedOidc := GetOidc(settings, oidcCache, now, o.fetch);
    fetched := fetchedOidc;
    if oidc.Err? {
      return Err(oidc.error), fetched;
    }
    var jwksUri := Member(oidc.value, "jwks_uri");
    if jwksUri.Err? {
      return Err(jwksUri.error), fetched;
    }
    var jwks, fetchedJwks := GetJwks(jwksUri.value, jwksCache, now, o.fetch);
    fetched := fetched + fetchedJwks;
    if jwks.Err? {
      return Err(jwks.error), fetched;
    }
    var header := o.unverifiedHeader(token);
    if header.None? {
      return Err(Uncaught(JwtError)), fetched;
    }
    var kid := Get(header.value, "kid");
    var key := SelectKey(jwks.value, kid);
    if key.ScanFailed? {
      return Err(key.error), fetched;
    }
    if key.NotFound? || key.key == map[] {
      return Err(KeyNotFound), fetched;
    }
    match o.decode(DecodeCallFor(settings, token, key.key)) {
      case Decoded(claims) =>
        return Ok(claims), fetched;
      case DecodeFailed(reason) =>
        return Err(HttpError(401, InvalidTokenPrefix + reason, map[])), fetched;
    }
  }

  /** `_auth_aad` */
  method AuthAad(settings: Settings, authorization: Option<string>, oidcCache: TtlCache, jwksCache: TtlCache,
                 now: int, o: Oracles)
    returns (r: Result<Claims>, fetched: seq<Json>)
    requires oidcCache.Valid() && jwksCache.Valid() && oidcCache != jwksCache
    modifies oidcCache, jwksCache
    ensures oidcCache.Valid() && jwksCache.Valid()
    ensures Run(r, Caches(oidcCache.State(), jwksCache.State()), fetched)
         == AuthAadSpec(settings, authorization, Caches(old(oidcCache.State()), old(jwksCache.State())), now, o)
  {
    if authorization.None? || authorization.value == "" || !HasBearerPrefix(authorization.value) {
      return Err(MissingBearer), [];
    }
    var parts := Text.SplitOnce(authorization.value, ' ');
    if |parts| < 2 {
      return Err(Uncaught(IndexError)), [];
    }
    var token := Text.Strip(parts[1]);
    r, fetched := DecodeAadToken(settings, token, oidcCache, jwksCache, now, o);
  }

  /** `auth_dependency` */
  method AuthDependency(settings: Settings, request: Request, authorization: Option<string>,
                        oidcCache: TtlCache, jwksCache: TtlCache, now: int, o: Oracles)
    returns (r: Result<Claims>, fetched: seq<Json>)
    requires oidcCache.Valid() && jwksCache.Valid() && oidcCache != jwksCache
    modifies oidcCache, jwksCache
    ensures oidcCache.Valid() && jwksCache.Valid()
    ensures Run(r, Caches(oidcCache.State(), jwksCache.State()), fetched)
         == AuthDependencySpec(settings, request, authorization,
                               Caches(old(oidcCache.State()), old(jwksCache.State())), now, o)
  {
    if settings.authMode == "AAD" {
      r, fetched := AuthAad(settings, authorization, oidcCache, jwksCache, now, o);
    } else if settings.authMode == "API_KEY" {
      var provided := HeaderGet(request.headers, settings.apiKeyHeader);
      if provided.Err? {
        return Err(provided.error), [];
      }
      return AuthApiKey(settings, provided.value), [];
    } else {
      return Err(UnsupportedMode), [];
    }
  }

  /** `graphql_context_getter` with its `Depends(auth_dependency)` */
  method GraphqlContextGetter(settings: Settings, request: Request, authorization: Option<string>,
                              oidcCache: TtlCache, jwksCache: TtlCache, now: int, o: Oracles)
    returns (r: Result<Context>, fetched: seq<Json>)
    requires oidcCache.Valid() && jwksCache.Valid() && oidcCache != jwksCache
    modifies oidcCache, jwksCache
    ensures oidcCache.Valid() && jwksCache.Valid()
    ensures Run(r, Caches(oidcCache.State(), jwksCache.State()), fetched)
         == GraphqlContextSpec(settings, request, authorization,
                               Caches(old(oidcCache.State()), old(jwksCache.State())), now, o)
  {
    var principal;
    principal, fetched := AuthDependency(settings, request, authorization, oidcCache, jwksCache, now, o);
    if principal.Err? {
      return Err(principal.error), fetched;
    }
    r := Ok(Context(request, principal.value));
  }
}
