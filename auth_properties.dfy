/** What the authentication code promises, proved about the specification
    functions of `Auth` (and so, through their `ensures`, about the methods). */
module AuthProperties {
  import opened Outcome
  import opened Json
  import Text
  import opened Config
  import opened Cache
  import opened Auth

  lemma PrefixOfConcat(p: string, rest: string)
    ensures Text.StartsWith(p + rest, p)
  {
    assert (p + rest)[..|p|] == p;
  }

  // ---------------------------------------------------------------------
  // The Authorization header
  // ---------------------------------------------------------------------

  lemma BearerLetters()
    ensures forall k :: 0 <= k < |"bearer "| ==>
      "bearer "[k] as int < 128 && !('A' <= "bearer "[k] <= 'Z') && "bearer "[k] != 'i' && "bearer "[k] != 'k'
    ensures forall k :: 0 <= k < 7 ==> Text.AsciiUpper("bearer "[k]) == "BEARER "[k]
  {
  }

  /** The scheme is matched without regard to ASCII case, and nothing else
      matches: the first seven characters spell "bearer " in any mix of cases. */
  lemma BearerPrefixIff(a: string)
    ensures HasBearerPrefix(a) <==>
      |a| >= 7 && forall i :: 0 <= i < 7 ==> a[i] == "bearer "[i] || a[i] == "BEARER "[i]
  {
    BearerLetters();
    Text.LowerStartsWithAsciiIff(a, "bearer ");
  }

  /** Once the prefix check has passed, the first space is the one after the
      scheme, so `split(" ", 1)` always has a second part: the rest of the header. */
  lemma BearerSplit(a: string)
    requires HasBearerPrefix(a)
    ensures |a| >= 7
    ensures Text.SplitOnce(a, ' ') == [a[..6], a[7..]]
  {
    BearerPrefixIff(a);
    assert a[6] == ' ';
    var parts := Text.SplitOnce(a, ' ');
    assert ' ' in a;
    var n := |parts[0]|;
    assert a == parts[0] + [' '] + parts[1];
    assert a[n] == ' ';
    assert n <= 6 by {
      assert forall k :: 0 <= k < n ==> parts[0][k] == a[k];
    }
    assert n == 6;
    assert parts[0] == a[..6];
    assert parts[1] == a[7..];
  }

  /** The bearer path never fails with IndexError, and what it validates is
      the header after "Bearer ", with surrounding whitespace removed (possibly empty). */
  lemma TokenIsStrippedRemainder(settings: Settings, a: string, c: Caches, now: int, o: Oracles)
    requires a != "" && HasBearerPrefix(a)
    ensures |a| >= 7
    ensures AuthAadSpec(settings, Some(a), c, now, o) == DecodeAadTokenSpec(settings, Text.Strip(a[7..]), c, now, o)
  {
    BearerSplit(a);
  }

  /** Every HTTP error of the token path carries no headers, and is a 500
      for a fetch failure, "Signing key not found", or a 401 "Invalid token: ...". */
  lemma DecodeErrors(settings: Settings, token: string, c: Caches, now: int, o: Oracles)
    ensures var r := DecodeAadTokenSpec(settings, token, c, now, o).result;
      r.Err? && r.error.HttpError? ==>
        && r.error.headers == map[]
        && (|| (r.error.status == 500 && Text.StartsWith(r.error.detail, OidcFailure))
            || (r.error.status == 500 && Text.StartsWith(r.error.detail, JwksFailure))
            || r.error == KeyNotFound
            || (r.error.status == 401 && Text.StartsWith(r.error.detail, InvalidTokenPrefix)))
  {
    var oidc := GetOidcSpec(settings, c.oidc, now, o.fetch);
    if oidc.result.Err? {
      var cause :| oidc.result.error.detail == OidcFailure + cause;
      PrefixOfConcat(OidcFailure, cause);
    } else if Member(oidc.result.value, "jwks_uri").Ok? {
      var uri := Member(oidc.result.value, "jwks_uri").value;
      var jwks := GetJwksSpec(uri, c.jwks, now, o.fetch);
      if jwks.result.Err? {
        if Hashable(uri) {
          var cause :| jwks.result.error.detail == JwksFailure + cause;
          PrefixOfConcat(JwksFailure, cause);
        }
      } else if o.unverifiedHeader(token).Some? {
        var kid := Get(o.unverifiedHeader(token).value, "kid");
        ScanFailuresAreUncaught(jwks.result.value, kid);
        var scan := SelectKeySpec(jwks.result.value, kid);
        if scan.Found? && scan.key != map[] {
          match o.decode(DecodeCallFor(settings, token, scan.key))
          case Decoded(_) =>
          case DecodeFailed(reason) => PrefixOfConcat(InvalidTokenPrefix, reason);
        }
      }
    }
  }

  /** The bearer path answers 401 "Missing or invalid Authorization header"
      with `WWW-Authenticate: Bearer` exactly when the header is absent,
      empty, or lacks the scheme; then nothing is fetched and the caches stay. */
  lemma MissingBearerIff(settings: Settings, authorization: Option<string>, c: Caches, now: int, o: Oracles)
    ensures AuthAadSpec(settings, authorization, c, now, o).result == Err(MissingBearer) <==>
      authorization.None? || authorization.value == "" || !HasBearerPrefix(authorization.value)
    ensures authorization.None? || authorization.value == "" || !HasBearerPrefix(authorization.value) ==>
      AuthAadSpec(settings, authorization, c, now, o) == Run(Err(MissingBearer), c, [])
  {
    if authorization.Some? && authorization.value != "" && HasBearerPrefix(authorization.value) {
      var a := authorization.value;
      TokenIsStrippedRemainder(settings, a, c, now, o);
      DecodeErrors(settings, Text.Strip(a[7..]), c, now, o);
      assert "WWW-Authenticate" in MissingBearer.headers;
    }
  }

  // ---------------------------------------------------------------------
  // Key selection
  // ---------------------------------------------------------------------

  /** A key in the list whose `kid` is the token's. */
  predicate Hits(k: Json, kid: Json)
  {
    k.JObj? && Get(k.fields, "kid") == kid
  }

  /** A key the loop passes over: an object with some other `kid`. */
  predicate Misses(k: Json, kid: Json)
  {
    k.JObj? && Get(k.fields, "kid") != kid
  }

  /** The scan finds `m` exactly when `m` is the first entry whose `kid`
      equals the token's and every entry before it is a key with another `kid`. */
  lemma {:induction false} FirstMatchFound(keys: seq<Json>, kid: Json, m: Object)
    ensures FirstMatch(keys, kid) == Found(m) <==>
      exists i :: 0 <= i < |keys| && keys[i] == JObj(m) && Hits(keys[i], kid) &&
        forall j :: 0 <= j < i ==> Misses(keys[j], kid)
  {
    if keys != [] {
      var tail := keys[1..];
      FirstMatchFound(tail, kid, m);
      if Misses(keys[0], kid) {
        if FirstMatch(keys, kid) == Found(m) {
          var i :| 0 <= i < |tail| && tail[i] == JObj(m) && Hits(tail[i], kid) &&
            forall j :: 0 <= j < i ==> Misses(tail[j], kid);
          assert keys[i + 1] == tail[i];
          forall j | 0 <= j < i + 1 ensures Misses(keys[j], kid) {
            if j > 0 { assert keys[j] == tail[j - 1]; }
          }
        }
        if exists i :: 0 <= i < |keys| && keys[i] == JObj(m) && Hits(keys[i], kid) &&
             forall j :: 0 <= j < i ==> Misses(keys[j], kid) {
          var i :| 0 <= i < |keys| && keys[i] == JObj(m) && Hits(keys[i], kid) &&
            forall j :: 0 <= j < i ==> Misses(keys[j], kid);
          assert i != 0;
          assert tail[i - 1] == keys[i];
          forall j | 0 <= j < i - 1 ensures Misses(tail[j], kid) {
            assert tail[j] == keys[j + 1];
          }
        }
      } else if !Hits(keys[0], kid) {
        assert !keys[0].JObj?;
      }
    }
  }

  /** No key is found exactly when every entry is a key with another `kid`. */
  lemma {:induction false} FirstMatchNotFound(keys: seq<Json>, kid: Json)
    ensures FirstMatch(keys, kid) == NotFound <==> forall i :: 0 <= i < |keys| ==> Misses(keys[i], kid)
  {
    if keys != [] {
      FirstMatchNotFound(keys[1..], kid);
      if Misses(keys[0], kid) {
        assert forall i :: 1 <= i < |keys| ==> keys[i] == keys[1..][i - 1];
      }
    }
  }

  /** First match wins: entries after a match, including keys with the same
      `kid`, never change the outcome; a list with no match defers to what follows. */
  lemma {:induction false} FirstMatchAppend(xs: seq<Json>, ys: seq<Json>, kid: Json)
    ensures FirstMatch(xs + ys, kid) == if FirstMatch(xs, kid) == NotFound then FirstMatch(ys, kid) else FirstMatch(xs, kid)
  {
    if xs == [] {
      assert xs + ys == ys;
    } else {
      assert (xs + ys)[0] == xs[0];
      assert (xs + ys)[1..] == xs[1..] + ys;
      FirstMatchAppend(xs[1..], ys, kid);
    }
  }

  /** A token without `kid` (or with a null one) is matched with the first
      key that has no `kid` either, or a null one. */
  lemma KidlessTokenMatchesFirstKidlessKey(keys: seq<Json>, m: Object)
    ensures FirstMatch(keys, JNull) == Found(m) <==>
      exists i :: 0 <= i < |keys| && keys[i] == JObj(m) && ("kid" !in m || m["kid"] == JNull) &&
        forall j :: 0 <= j < i ==> keys[j].JObj? && "kid" in keys[j].fields && keys[j].fields["kid"] != JNull
  {
    FirstMatchFound(keys, JNull, m);
  }

  lemma {:induction false} FirstMatchFailuresAreUncaught(keys: seq<Json>, kid: Json)
    ensures FirstMatch(keys, kid).ScanFailed? ==> FirstMatch(keys, kid).error == Uncaught(AttributeError)
  {
    if keys != [] && keys[0].JObj? && Get(keys[0].fields, "kid") != kid {
      FirstMatchFailuresAreUncaught(keys[1..], kid);
    }
  }

  /** When the key scan fails, it fails with an uncaught exception, never an HTTP error. */
  lemma ScanFailuresAreUncaught(jwks: Json, kid: Json)
    ensures SelectKeySpec(jwks, kid).ScanFailed? ==> SelectKeySpec(jwks, kid).error.Uncaught?
  {
    if Member(jwks, "keys").Ok? && Member(jwks, "keys").value.JArr? {
      FirstMatchFailuresAreUncaught(Member(jwks, "keys").value.items, kid);
    }
  }

  // ---------------------------------------------------------------------
  // The token path past the caches
  // ---------------------------------------------------------------------

  /** Both fetch steps succeed and serve the key set `jwks`. */
  ghost predicate ServesKeySet(settings: Settings, c: Caches, now: int, fetch: Json -> FetchResult, jwks: Json)
  {
    var oidc := GetOidcSpec(settings, c.oidc, now, fetch);
    && oidc.result.Ok?
    && Member(oidc.result.value, "jwks_uri").Ok?
    && GetJwksSpec(Member(oidc.result.value, "jwks_uri").value, c.jwks, now, fetch).result == Ok(jwks)
  }

  /** With no key for the token's `kid` (or an empty object as the match) the
      answer is 401 "Signing key not found" and the decoder is never consulted. */
  lemma KeyNotFoundSkipsDecode(settings: Settings, token: string, c: Caches, now: int, o: Oracles,
                               jwks: Json, header: Object, otherDecode: DecodeCall -> DecodeResult)
    requires ServesKeySet(settings, c, now, o.fetch, jwks)
    requires o.unverifiedHeader(token) == Some(header)
    requires SelectKeySpec(jwks, Get(header, "kid")) in {NotFound, Found(map[])}
    ensures DecodeAadTokenSpec(settings, token, c, now, o).result == Err(KeyNotFound)
    ensures DecodeAadTokenSpec(settings, token, c, now, o.(decode := otherDecode))
         == DecodeAadTokenSpec(settings, token, c, now, o)
  {
  }

  /** A token the decoder accepts yields its claims unchanged as the principal. */
  lemma DecodedClaimsArePrincipal(settings: Settings, token: string, c: Caches, now: int, o: Oracles,
                                  jwks: Json, header: Object, key: Object, claims: Claims)
    requires ServesKeySet(settings, c, now, o.fetch, jwks)
    requires o.unverifiedHeader(token) == Some(header)
    requires SelectKeySpec(jwks, Get(header, "kid")) == Found(key) && key != map[]
    requires o.decode(DecodeCallFor(settings, token, key)) == Decoded(claims)
    ensures DecodeAadTokenSpec(settings, token, c, now, o).result == Ok(claims)
  {
  }

  /** Any decoder failure (bad signature, expiry, audience, issuer,
      algorithm) is a 401 whose detail is "Invalid token: " and the reason. */
  lemma DecodeFailureIsInvalidToken(settings: Settings, token: string, c: Caches, now: int, o: Oracles,
                                    jwks: Json, header: Object, key: Object, reason: string)
    requires ServesKeySet(settings, c, now, o.fetch, jwks)
    requires o.unverifiedHeader(token) == Some(header)
    requires SelectKeySpec(jwks, Get(header, "kid")) == Found(key) && key != map[]
    requires o.decode(DecodeCallFor(settings, token, key)) == DecodeFailed(reason)
    ensures DecodeAadTokenSpec(settings, token, c, now, o).result == Err(HttpError(401, InvalidTokenPrefix + reason, map[]))
  {
  }

  /** A token whose header does not parse escapes as an exception; it is not turned into a 401. */
  lemma MalformedTokenIsUncaught(settings: Settings, token: string, c: Caches, now: int, o: Oracles, jwks: Json)
    requires ServesKeySet(settings, c, now, o.fetch, jwks)
    requires o.unverifiedHeader(token) == None
    ensures DecodeAadTokenSpec(settings, token, c, now, o).result == Err(Uncaught(JwtError))
  {
  }

  /** The decoder is asked to accept the key's own algorithm (or RS256 when
      the key names none) and the RS256/RS384/RS512 family, to check the
      configured audience and issuer, and to skip the at_hash check. */
  lemma DecodeCallChecks(settings: Settings, token: string, key: Object)
    ensures var d := DecodeCallFor(settings, token, key);
      && d.token == token && d.key == key
      && |d.algorithms| == 4
      && d.algorithms[0] == (if "alg" in key then key["alg"] else JStr("RS256"))
      && d.algorithms[1..] == [JStr("RS256"), JStr("RS384"), JStr("RS512")]
      && d.audience == settings.audience
      && d.issuer == settings.issuer
      && !d.verifyAtHash
  {
  }

  /** With settings derived in AAD mode the issuer the decoder checks is never empty. */
  lemma DerivedIssuerIsChecked(env: Env, token: string, key: Object)
    requires Derive(env).authMode == "AAD"
    ensures DecodeCallFor(Derive(env), token, key).issuer != ""
  {
    AadDerivation(env);
  }

  /** Metadata is fetched before the token is looked at: a failed metadata
      fetch is a 500 whatever the token and its header. */
  lemma MetadataFailurePrecedes(settings: Settings, token: string, c: Caches, now: int, o: Oracles,
                                otherToken: string, otherHeader: string -> Option<Object>)
    requires GetOidcSpec(settings, c.oidc, now, o.fetch).result.Err?
    ensures var r := DecodeAadTokenSpec(settings, token, c, now, o).result;
      r.Err? && r.error.HttpError? && r.error.status == 500 && Text.StartsWith(r.error.detail, OidcFailure)
    ensures DecodeAadTokenSpec(settings, otherToken, c, now, o.(unverifiedHeader := otherHeader))
         == DecodeAadTokenSpec(settings, token, c, now, o)
  {
    var cause :| GetOidcSpec(settings, c.oidc, now, o.fetch).result.error.detail == OidcFailure + cause;
    PrefixOfConcat(OidcFailure, cause);
  }

  /** Likewise a failed key-set fetch, for any hashable `jwks_uri`, is a 500 whatever the token. */
  lemma KeySetFailurePrecedes(settings: Settings, token: string, c: Caches, now: int, o: Oracles,
                              otherToken: string, otherHeader: string -> Option<Object>, uri: Json)
    requires GetOidcSpec(settings, c.oidc, now, o.fetch).result.Ok?
    requires Member(GetOidcSpec(settings, c.oidc, now, o.fetch).result.value, "jwks_uri") == Ok(uri)
    requires Hashable(uri) && GetJwksSpec(uri, c.jwks, now, o.fetch).result.Err?
    ensures var r := DecodeAadTokenSpec(settings, token, c, now, o).result;
      r.Err? && r.error.HttpError? && r.error.status == 500 && Text.StartsWith(r.error.detail, JwksFailure)
    ensures DecodeAadTokenSpec(settings, otherToken, c, now, o.(unverifiedHeader := otherHeader))
         == DecodeAadTokenSpec(settings, token, c, now, o)
  {
    var cause :| GetJwksSpec(uri, c.jwks, now, o.fetch).result.error.detail == JwksFailure + cause;
    PrefixOfConcat(JwksFailure, cause);
  }

  // ---------------------------------------------------------------------
  // The caches
  // ---------------------------------------------------------------------

  /** A live entry is returned as it is: nothing is fetched, whatever the network would say. */
  lemma HitDoesNotFetch(st: CacheState, url: Json, now: int, fetch: Json -> FetchResult,
                        otherFetch: Json -> FetchResult, failure: string)
    requires Lookup(st, url, now).Some?
    ensures CachedFetch(st, url, now, fetch, failure) == Fetch(Ok(st.values[url]), st, [])
    ensures CachedFetch(st, url, now, otherFetch, failure) == CachedFetch(st, url, now, fetch, failure)
  {
  }

  /** A miss fetches the URL once; a success becomes the cache's only entry
      and a failure is a 500 that leaves the cache as it was. */
  lemma MissFetchesOnce(st: CacheState, url: Json, now: int, fetch: Json -> FetchResult, failure: string)
    requires Lookup(st, url, now).None?
    ensures CachedFetch(st, url, now, fetch, failure).fetched == [url]
    ensures fetch(url).Fetched? ==>
      CachedFetch(st, url, now, fetch, failure) == Fetch(Ok(fetch(url).body), Stored(url, fetch(url).body, now), [url])
    ensures fetch(url).FetchFailed? ==>
      CachedFetch(st, url, now, fetch, failure) == Fetch(Err(HttpError(500, failure + fetch(url).cause, map[])), st, [url])
  {
  }

  /** Every read-through keeps the cache at one entry at most, and after a
      success the returned value is what the cache now holds for the URL. */
  lemma CachedFetchInvariant(st: CacheState, url: Json, now: int, fetch: Json -> FetchResult, failure: string)
    requires Bounded(st)
    ensures Bounded(CachedFetch(st, url, now, fetch, failure).state)
    ensures var f := CachedFetch(st, url, now, fetch, failure);
      f.result.Ok? ==> Lookup(f.state, url, now) == Some(f.result.value)
    ensures var f := CachedFetch(st, url, now, fetch, failure);
      f.result.Err? ==> f.state == st && f.fetched == [url]
  {
  }

  /** A value fetched at `t` is served, without a fetch and whatever the
      network says, to every later call before `t + Ttl`, and fetched again from then on. */
  lemma FreshEntryLifetime(st: CacheState, url: Json, t: int, fetch: Json -> FetchResult, failure: string,
                           t2: int, fetch2: Json -> FetchResult)
    requires Lookup(st, url, t).None? && fetch(url).Fetched?
    requires t <= t2
    ensures var f := CachedFetch(st, url, t, fetch, failure);
      t2 < t + Ttl ==> CachedFetch(f.state, url, t2, fetch2, failure) == Fetch(f.result, f.state, [])
    ensures var f := CachedFetch(st, url, t, fetch, failure);
      t2 >= t + Ttl ==> CachedFetch(f.state, url, t2, fetch2, failure).fetched == [url]
  {
  }

  /** Storing one URL evicts any other: a second URL always misses. */
  lemma CapacityOne(st: CacheState, url: Json, t: int, fetch: Json -> FetchResult, failure: string,
                    other: Json, t2: int)
    requires Lookup(st, url, t).None? && fetch(url).Fetched? && other != url
    ensures Lookup(CachedFetch(st, url, t, fetch, failure).state, other, t2).None?
  {
  }

  /** From cold caches a successful key-set lookup at `t1` fetches the
      metadata and the key set once each; any token checked before
      `t1 + Ttl` then sees the same key set with no fetch at all. */
  lemma WarmCachesServeWithoutFetch(settings: Settings, token1: string, token2: string, t1: int, t2: int,
                                    o1: Oracles, o2: Oracles, jwks: Json)
    requires ServesKeySet(settings, Caches(Empty, Empty), t1, o1.fetch, jwks)
    requires t1 <= t2 < t1 + Ttl
    ensures var r1 := DecodeAadTokenSpec(settings, token1, Caches(Empty, Empty), t1, o1);
      && r1.fetched == [OidcUrl(settings), Member(o1.fetch(OidcUrl(settings)).body, "jwks_uri").value]
      && ServesKeySet(settings, r1.caches, t2, o2.fetch, jwks)
      && DecodeAadTokenSpec(settings, token2, r1.caches, t2, o2).fetched == []
      && DecodeAadTokenSpec(settings, token2, r1.caches, t2, o2).caches == r1.caches
  {
    var url := OidcUrl(settings);
    var oidc := GetOidcSpec(settings, Caches(Empty, Empty).oidc, t1, o1.fetch);
    assert oidc.fetched == [url];
    var uri := Member(oidc.result.value, "jwks_uri").value;
    var jwksRun := GetJwksSpec(uri, Empty, t1, o1.fetch);
    assert jwksRun.fetched == [uri];
    var r1 := DecodeAadTokenSpec(settings, token1, Caches(Empty, Empty), t1, o1);
    assert r1.caches == Caches(oidc.state, jwksRun.state);
    assert Lookup(oidc.state, url, t2) == Some(oidc.result.value);
    assert Lookup(jwksRun.state, uri, t2) == Some(jwks);
  }

  // ---------------------------------------------------------------------
  // Dispatch on AUTH_MODE
  // ---------------------------------------------------------------------

  /** "AAD" takes the bearer path. */
  lemma AadModeTakesBearerPath(settings: Settings, request: Request, authorization: Option<string>,
                               c: Caches, now: int, o: Oracles)
    requires settings.authMode == "AAD"
    ensures AuthDependencySpec(settings, request, authorization, c, now, o)
         == AuthAadSpec(settings, authorization, c, now, o)
  {
  }

  /** "API_KEY" reads only the configured header: the `authorization`
      argument, the network and the token library are never consulted and
      the caches are left alone. */
  lemma ApiKeyModeIgnoresAuthorization(settings: Settings, request: Request, a1: Option<string>, a2: Option<string>,
                                       c: Caches, now: int, o1: Oracles, o2: Oracles)
    requires settings.authMode == "API_KEY"
    ensures AuthDependencySpec(settings, request, a1, c, now, o1) == AuthDependencySpec(settings, request, a2, c, now, o2)
    ensures AuthDependencySpec(settings, request, a1, c, now, o1).caches == c
    ensures AuthDependencySpec(settings, request, a1, c, now, o1).fetched == []
  {
  }

  /** In API-key mode a request is accepted exactly when the first header
      with the configured name (looked up without regard to case) is
      non-empty and equals the configured secret. A header name whose
      lower-cased form is not Latin-1 makes the lookup raise instead. */
  lemma ApiKeyModeAcceptsIff(settings: Settings, request: Request, authorization: Option<string>,
                             c: Caches, now: int, o: Oracles)
    requires settings.authMode == "API_KEY"
    ensures var r := AuthDependencySpec(settings, request, authorization, c, now, o).result;
      var provided := FirstHeader(request.headers, Text.Lower(settings.apiKeyHeader));
      Text.IsLatin1(Text.Lower(settings.apiKeyHeader)) ==>
        && (r.Ok? <==> provided.Some? && provided.value != "" && provided.value == settings.apiKeyValue)
        && (r.Ok? ==> r.value == ApiKeyPrincipal)
        && (r.Err? ==> r.error == InvalidApiKey)
    ensures !Text.IsLatin1(Text.Lower(settings.apiKeyHeader)) ==>
      AuthDependencySpec(settings, request, authorization, c, now, o) == Run(Err(Uncaught(UnicodeEncodeError)), c, [])
  {
  }

  /** A request that carries only a bearer token is refused in API-key mode
      (unless the API-key header is itself configured as "authorization"). */
  lemma BearerOnlyRequestRefusedInApiKeyMode(settings: Settings, token: string, c: Caches, now: int, o: Oracles)
    requires settings.authMode == "API_KEY"
    requires Text.IsLatin1(Text.Lower(settings.apiKeyHeader)) && Text.Lower(settings.apiKeyHeader) != "authorization"
    ensures var request := Request([Header("authorization", "Bearer " + token)]);
      AuthDependencySpec(settings, request, Some("Bearer " + token), c, now, o) == Run(Err(InvalidApiKey), c, [])
  {
  }

  /** Any other mode is a 500 "Unsupported AUTH_MODE", with nothing fetched. */
  lemma OtherModeIsUnsupported(settings: Settings, request: Request, authorization: Option<string>,
                               c: Caches, now: int, o: Oracles)
    requires settings.authMode != "AAD" && settings.authMode != "API_KEY"
    ensures AuthDependencySpec(settings, request, authorization, c, now, o) == Run(Err(UnsupportedMode), c, [])
  {
  }

  /** Every HTTP error is a 401 or a 500; a 500 is a fetch failure or an
      unsupported mode; only the missing-header 401 carries a header, the
      `WWW-Authenticate: Bearer` challenge. */
  lemma ErrorStatuses(settings: Settings, request: Request, authorization: Option<string>,
                      c: Caches, now: int, o: Oracles)
    ensures var r := AuthDependencySpec(settings, request, authorization, c, now, o).result;
      r.Err? && r.error.HttpError? ==>
        && (r.error.status == 401 || r.error.status == 500)
        && (r.error.status == 500 ==>
              || Text.StartsWith(r.error.detail, OidcFailure)
              || Text.StartsWith(r.error.detail, JwksFailure)
              || r.error == UnsupportedMode)
        && (r.error.headers != map[] ==> r.error == MissingBearer)
  {
    if settings.authMode == "AAD" {
      var a := authorization;
      if a.Some? && a.value != "" && HasBearerPrefix(a.value) {
        TokenIsStrippedRemainder(settings, a.value, c, now, o);
        DecodeErrors(settings, Text.Strip(a.value[7..]), c, now, o);
      }
    }
  }

  /** The GraphQL context exists exactly when authentication succeeds, and
      then holds the request and the principal unchanged. */
  lemma ContextBindsPrincipal(settings: Settings, request: Request, authorization: Option<string>,
                              c: Caches, now: int, o: Oracles)
    ensures var run := AuthDependencySpec(settings, request, authorization, c, now, o);
      var ctx := GraphqlContextSpec(settings, request, authorization, c, now, o);
      && (ctx.result.Ok? <==> run.result.Ok?)
      && (ctx.result.Ok? ==> ctx.result.value == Context(request, run.result.value))
      && (ctx.result.Err? ==> ctx.result.error == run.result.error)
      && ctx.caches == run.caches && ctx.fetched == run.fetched
  {
  }

  // ---------------------------------------------------------------------
  // Two end-to-end cases
  // ---------------------------------------------------------------------

  lemma DefaultHeaderLetters()
    ensures forall k :: 0 <= k < |"x-api-key"| ==> "x-api-key"[k] as int < 128 && !('A' <= "x-api-key"[k] <= 'Z')
  {
  }

  lemma DefaultHeaderIsLowerCase()
    ensures Text.Lower("x-api-key") == "x-api-key"
    ensures Text.IsLatin1(Text.Lower("x-api-key"))
  {
    DefaultHeaderLetters();
    Text.LowerOfAscii("x-api-key");
  }

  /** With `AUTH_MODE`, `API_KEY_HEADER` and `API_KEY_VALUE` unset, a request
      carrying `x-api-key: dev-secret` gets the API-key principal. */
  lemma DefaultApiKeyAccepted(env: Env, c: Caches, now: int, o: Oracles)
    requires "AUTH_MODE" !in env && "API_KEY_HEADER" !in env && "API_KEY_VALUE" !in env
    ensures AuthDependencySpec(Derive(env), Request([Header("x-api-key", "dev-secret")]), None, c, now, o)
         == Run(Ok(ApiKeyPrincipal), c, [])
  {
    var settings := Derive(env);
    Defaults(env);
    assert settings.authMode == "API_KEY" && settings.apiKeyHeader == "x-api-key" && settings.apiKeyValue == "dev-secret";
    DefaultHeaderIsLowerCase();
    var request := Request([Header("x-api-key", "dev-secret")]);
    assert FirstHeader(request.headers, Text.Lower(settings.apiKeyHeader)) == Some("dev-secret");
    ApiKeyModeAcceptsIff(settings, request, None, c, now, o);
    ApiKeyModeIgnoresAuthorization(settings, request, None, None, c, now, o, o);
  }

  /** A token with `kid` "abc", a key set whose only key has `kid` "abc",
      and a decoder that accepts it give the decoder's claims, with their `sub`. */
  lemma MatchingKidAccepted(settings: Settings, token: string, c: Caches, now: int, o: Oracles,
                            claims: Claims)
    requires var key := map["kid" := JStr("abc"), "alg" := JStr("RS256")];
      && ServesKeySet(settings, c, now, o.fetch, JObj(map["keys" := JArr([JObj(key)])]))
      && o.unverifiedHeader(token) == Some(map["kid" := JStr("abc")])
      && o.decode(DecodeCallFor(settings, token, key)) == Decoded(claims)
    ensures DecodeAadTokenSpec(settings, token, c, now, o).result == Ok(claims)
  {
  }
}
