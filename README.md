# Request authentication of the GraphQL API, modelled in Dafny

The service protects its GraphQL endpoint with one FastAPI dependency,
`auth_dependency`. What it does depends on `AUTH_MODE`:

- **`AAD`**: the `Authorization` header must carry `Bearer <token>`, with the
  scheme matched in any case.
  1. The service fetches the tenant's OpenID metadata and reads its `jwks_uri`.
  2. It fetches the key set. Each of the two documents sits in its own TTL
     cache that holds one entry for an hour.
  3. It selects the first key whose `kid` matches the token's unverified
     header.
  4. It hands token and key to `jose`'s `jwt.decode`. The accepted algorithms
     are the key's own and RS256/RS384/RS512, checked against the configured
     audience and issuer, with `at_hash` not checked.
- **`API_KEY`**: the configured header (default `x-api-key`) must equal the
  configured secret (default `dev-secret`).
- **Any other mode** is a 500.

The principal that results becomes the `user` of the GraphQL context.
Settings are read from the environment once. `AUTH_MODE` is upper-cased. In
AAD mode, `get_settings` derives the issuer and the discovery URL from the
tenant and memoises the result.

The model has seven modules:

- `Outcome`: `Option`, `Result`, and the errors. An `HttpError` carries a
  status, a detail and headers. An `Uncaught` exception is one the code lets
  escape.
- `Json`: parsed JSON values and `dict.get`.
- `Text`: the Python `str` operations the code relies on:
  - `lower`/`upper` (exact on ASCII and Latin-1 and on the characters whose
    case forms fall into them);
  - `startswith`;
  - `split(" ", 1)`;
  - `strip` with the `str.isspace` set.
- `Config`:
  - the `Settings` defaults and their derivation (`Derive`);
  - the `lru_cache` memo of `get_settings`, as a class `SettingsProvider`.
- `Cache`: `cachetools.TTLCache(maxsize=1, ttl=3600)`, as a class `TtlCache`
  whose fields are changed in place, plus its value view `CacheState`.
- `Auth`: each operation of `auth.py` that touches the caches twice:
  - as a function on values (`...Spec`, the caches as `CacheState`s);
  - as a method that updates the two `TtlCache` objects in place. It is proved
    to return, and leave behind, exactly what the function describes.

  `_auth_api_key` and the header lookup touch no state, so they are functions
  only (`AuthApiKey`, `FirstHeader`, `HeaderGet`).

  The key-selection `for … break` loop is a `while` loop, `SelectKey`. The
  network and `jose` are parameters (`Oracles`).
- `AuthProperties`: the properties, proved about the specification functions.

## Model

| member | source | states |
|---|---|---|
| Config.Defaults | config.py:9-18 | An unset variable takes its default: mode `API_KEY`, header `x-api-key`, secret `dev-secret`, the built-in tenant and audience |
| Config.ModeIsUpperCase | config.py:9 | The stored mode is already upper-case: upper-casing it again changes nothing |
| Config.AadModeIff | config.py:9 | AAD mode is chosen exactly when the raw variable is three letters spelling "aad" in any case |
| Config.ApiKeyModeIff | config.py:9 | API-key mode is chosen when the variable is unset or spells "api_key" in any case; the dotless i counts as an i because Python upper-cases it to "I" |
| Config.AadDerivation | config.py:27-31 | In AAD mode the issuer is the override if one is set and otherwise the tenant's v2.0 authority, so it is never empty; the discovery URL is built from the tenant |
| Config.OpenIdConfigIgnoresIssuer | config.py:29-31 | The issuer override never changes the discovery URL |
| Config.NonAadKeepsRawValues | config.py:19-32 | Outside AAD mode nothing is derived: no discovery URL, and the issuer stays the raw override |
| Config.SettingsProvider.GetSettings | config.py:24-32 | The first call derives the settings and stores them; every later call returns the stored object and changes nothing; the body runs at most once |
| Text.UpperIdempotent | config.py:9 | `upper()` applied twice equals `upper()` applied once |
| Text.LowerStartsWithAsciiIff | auth.py:69 | `lower().startswith(p)`, for a prefix of ASCII characters other than capitals, 'i' and 'k', holds exactly when the string starts with `p` up to ASCII case |
| Text.SplitOnce | auth.py:75 | `split(sep, 1)` gives two parts around the first separator, or the whole string alone when the separator is absent |
| Text.Strip | auth.py:75 | `strip()` removes exactly the leading and trailing whitespace and keeps the middle unchanged |
| Cache.StoredLookup | auth.py:9-10 | A stored entry is served exactly while the clock is strictly before its store time plus 3600 seconds, with the stored value, and it is the cache's only entry |
| Cache.TtlCache.Contains | auth.py:14 | `key in cache` agrees with `Lookup` on the cache's state |
| Cache.TtlCache.Get | auth.py:15 | `cache[key]` on a live key returns the value `Lookup` gives |
| Cache.TtlCache.Set | auth.py:20 | Storing drops expired entries, evicts the other entry when full, and leaves exactly the new entry with deadline `now + 3600`, so the one-entry bound holds |
| Auth.GetOidc | auth.py:12-23 | Returns and leaves in the cache exactly what the read-through of the metadata URL describes: served from the cache, fetched and stored, or failed with a 500 and the cache unchanged |
| Auth.GetJwks | auth.py:25-35 | The same read-through for the key-set URL; a list or object URL raises TypeError before any fetch |
| Auth.SelectKey | auth.py:44-50 | The loop returns the first key whose `kid` equals the token's. A non-object entry met before a match raises AttributeError. A missing `keys` raises KeyError. A string or object `keys` is iterated element by element, and `keys` of any other type raises TypeError |
| Auth.DecodeAadToken | auth.py:37-66 | Runs the metadata fetch, `jwks_uri`, the key-set fetch, header parsing, key selection and decoding in the source's order; updates both caches exactly as specified |
| Auth.AuthAad | auth.py:68-76 | Turns an absent, empty or non-bearer header into the challenged 401; otherwise validates the stripped text after the first space |
| Auth.FirstHeader | auth.py:103 | The header lookup finds nothing exactly when no header has the name; otherwise it returns the value of the first header with that name |
| Auth.AuthDependency | auth.py:87-108 | Dispatches on the mode (AAD, API key, or 500) and leaves the caches as the specification says |
| Auth.GraphqlContextGetter | auth.py:110-114 | Builds the context from the request and the principal only when authentication succeeds |
| AuthProperties.BearerPrefixIff | auth.py:69 | The bearer check holds exactly when the first seven characters spell "bearer " with each letter in either case |
| AuthProperties.BearerSplit | auth.py:75 | After the prefix check the first space is at index 6, so the split always has a second part |
| AuthProperties.TokenIsStrippedRemainder | auth.py:75-76 | The token validated is the header after "Bearer ", stripped; the index step never fails |
| AuthProperties.MissingBearerIff | auth.py:69-74 | The challenged 401 is returned exactly when the header is absent, empty or lacks the scheme, and then nothing is fetched and the caches stay |
| AuthProperties.DecodeErrors | auth.py:22-66 | Every HTTP error of the token path has no headers. It is a 500 that starts with the metadata or key-set prefix, "Signing key not found", or a 401 that starts with "Invalid token: " |
| AuthProperties.FirstMatchFound | auth.py:47-50 | The loop finds `m` exactly when `m` is at some index whose `kid` matches, and every earlier entry is a key with another `kid` |
| AuthProperties.FirstMatchNotFound | auth.py:47-51 | No key is found exactly when every entry is a key with a different `kid` |
| AuthProperties.FirstMatchAppend | auth.py:47-50 | The first match wins: keys after it, including duplicates of its `kid`, never change the result |
| AuthProperties.KidlessTokenMatchesFirstKidlessKey | auth.py:45-48 | A token without `kid` matches the first key without a `kid` (or with a null one) |
| AuthProperties.ScanFailuresAreUncaught | auth.py:47-48 | When the key scan fails, it fails with an uncaught exception, never an HTTP error |
| AuthProperties.KeyNotFoundSkipsDecode | auth.py:51-52 | No matching key, or an empty one, gives 401 "Signing key not found", and the decoder is never consulted |
| AuthProperties.DecodedClaimsArePrincipal | auth.py:55-64 | A token the decoder accepts yields its claims unchanged |
| AuthProperties.DecodeFailureIsInvalidToken | auth.py:65-66 | Any decoder failure is a 401 "Invalid token: " followed by the reason |
| AuthProperties.MalformedTokenIsUncaught | auth.py:44 | A token whose header does not parse raises an exception and does not become a 401 |
| AuthProperties.DecodeCallChecks | auth.py:56-63 | The decoder gets the key's algorithm (or RS256) then RS256/RS384/RS512, the configured audience and issuer, and no at_hash check |
| AuthProperties.DerivedIssuerIsChecked | auth.py:61 | With settings derived in AAD mode, the issuer checked is never empty |
| AuthProperties.MetadataFailurePrecedes | auth.py:39-44 | A failed metadata fetch is a 500 with the metadata prefix, whatever the token and its header |
| AuthProperties.KeySetFailurePrecedes | auth.py:40-44 | For any hashable `jwks_uri`, a failed key-set fetch is a 500 with the key-set prefix, whatever the token and the header parser |
| AuthProperties.HitDoesNotFetch | auth.py:14-15 | A live entry is returned as it is, without a fetch, whatever the network would answer |
| AuthProperties.MissFetchesOnce | auth.py:16-23 | A miss fetches once; a success becomes the only entry; a failure is a 500 with the cause and the cache is unchanged |
| AuthProperties.CachedFetchInvariant | auth.py:26-35 | Every read-through keeps at most one entry; after a success the returned value is the one cached |
| AuthProperties.FreshEntryLifetime | auth.py:9-10 | A value fetched at `t` is served without a fetch until `t + 3600`, and fetched again from then on |
| AuthProperties.CapacityOne | auth.py:9-10 | Storing one URL evicts every other |
| AuthProperties.WarmCachesServeWithoutFetch | auth.py:39-41 | From cold caches the first token fetches metadata then key set once each; every token within the hour uses the same key set and fetches nothing |
| AuthProperties.AadModeTakesBearerPath | auth.py:97-98 | AAD mode is the bearer path |
| AuthProperties.ApiKeyModeIgnoresAuthorization | auth.py:99-104 | API-key mode ignores the Authorization header, the network and the decoder, and leaves the caches alone |
| AuthProperties.ApiKeyModeAcceptsIff | auth.py:78-104 | API-key mode accepts exactly when the first header with the configured name (looked up in any case) is present, non-empty and equal to the secret; it then returns the fixed API-key principal, and otherwise 401 "Invalid or missing API key". This holds when the lower-cased header name is Latin-1; otherwise the lookup raises UnicodeEncodeError, uncaught, with the caches unchanged and nothing fetched |
| AuthProperties.BearerOnlyRequestRefusedInApiKeyMode | auth.py:99-104 | A request that carries only a bearer token is a 401 "Invalid or missing API key" in API-key mode, with nothing fetched, unless the API-key header is itself `Authorization` (its lower-cased name must also be Latin-1, as the header lookup requires) |
| AuthProperties.OtherModeIsUnsupported | auth.py:105-106 | Any other mode is 500 "Unsupported AUTH_MODE" and fetches nothing |
| AuthProperties.ErrorStatuses | auth.py:87-108 | Every HTTP error is a 401 or a 500. A 500 is a fetch failure or an unsupported mode. Only the challenged 401 carries a header |
| AuthProperties.ContextBindsPrincipal | auth.py:110-114 | A context exists exactly when authentication succeeds, and it holds the request and the principal unchanged |
| AuthProperties.DefaultApiKeyAccepted | config.py:9-13 | Under default settings `x-api-key: dev-secret` gets the API-key principal |
| AuthProperties.MatchingKidAccepted | auth.py:44-64 | A token with `kid` "abc", a key set whose only key has that `kid`, and an accepting decoder give the decoder's claims |

## Left out

- The network: `requests.get` with its timeout, `raise_for_status` and `.json()`. The `fetch` parameter stands for them; it yields the parsed body or the message of the failure.
- `jose`: `jwt.get_unverified_header` and `jwt.decode`, including the signature, `exp`/`nbf`, audience, issuer and algorithm checks. They are the `unverifiedHeader` and `decode` parameters. The model fixes what `decode` is asked to check, not how it checks it.
- Auth.GetOidc and Auth.GetJwks: the TTL cache's clock is read by `in`, by `[]` and by the store; the model uses one reading, `now`, per call. An entry expiring between `in` and `[]` would raise KeyError; that race is not modelled.
- Auth.DecodeAadToken: one clock reading `now` serves both caches for the whole request. In the source the metadata fetch (up to 10 s) lies between the two cache lookups, so the key-set cache is read at a later time; that gap is not modelled.
- Cache.Lookup: the clock is an integer count of seconds, while the cache reads `time.monotonic()`, a float; fractional times are not modelled.
- Auth.GetOidc: `requests.get(None)` always fails in reality, and the `fetch` parameter may answer anything for it. The source never makes that call: `_get_oidc` runs only in AAD mode, where `Derive` always sets a string discovery URL; a `JNull` URL reaches the oracle only under settings that `Derive` never produces.
- Auth.GetJwks: a request for a non-string, hashable `jwks_uri` (a number, a boolean, null) always fails in reality. The `fetch` parameter may answer anything for it.
- JSON numbers are integers, and values compare structurally. Python's `1 == 1.0 == True` cross-type equality among `kid` values is not modelled.
- Text.LowerChar and Text.UpperChar: Python's case mapping is exact only on ASCII, Latin-1 and the characters whose case forms land there. Every other character is left unchanged.
- The `api_key` header parameter of `auth_dependency` is never read, so it is not modelled.
- FastAPI's runtime: turning an uncaught exception into a 500 response, resolving the `Header`/`Depends` parameters, and caching dependencies per request. An uncaught exception is `Err(Uncaught(...))`.
- Concurrency. The module-level caches are shared between requests without locking, and each model call is atomic.
- `load_dotenv`/`os.getenv`: replaced by an environment map that is read when the class body runs.
- Config.SettingsProvider.GetSettings: `lru_cache` returns the same object every time; the model returns an equal value.
- `db.py`, `schema.py` and `main.py` (the Cosmos DB container, the GraphQL schema and the router wiring) are not part of this model.
- A token whose header cannot be parsed is not turned into a 401: `auth.py:44` calls `jwt.get_unverified_header` outside any `try`, so its error escapes, as does the error for an empty token after `Bearer `. The model follows the code (`AuthProperties.MalformedTokenIsUncaught`).
