/**
 * The cached Spotify access token and one call of the refresh-on-demand
 * operation, as a function from the cache before the call to the cache after
 * it. Time is whole seconds; ZeroTime stands for Go's zero time.Time, which
 * the cache holds until the first successful refresh.
 */
module TokenCache {
  import opened Wrappers
  import opened Http

  const ZeroTime: int := 0
  /** Seconds taken off the lifetime the token endpoint announces. */
  const SafetyMargin: int := 60
  const TokenUrl: string := "https://accounts.spotify.com/api/token"
  const FormContentType: string := "application/x-www-form-urlencoded"

  /** The token endpoint's JSON answer, as decoded into the cache. */
  datatype SpotifyAuth = SpotifyAuth(accessToken: string, tokenType: string, expiresIn: int)

  /** Go's zero value of the record, held before any refresh. */
  const ZeroAuth := SpotifyAuth("", "", 0)

  /** The fields a JSON decoding wrote; a field it did not write is None. */
  datatype Fields = Fields(accessToken: Option<string>, tokenType: Option<string>, expiresIn: Option<int>)

  /** The body of a status-200 token response: decoded, or malformed after writing some fields. */
  datatype Body = Decoded(fields: Fields) | Malformed(written: Fields)

  /** What happens to the token request: it cannot be built, it gets no response, or it gets one. */
  datatype Exchange =
    | TokenBuildFailure
    | TokenTransportFailure
    | TokenResponse(status: int, body: Body)

  /** The two environment variables read at each call. */
  datatype Env = Env(clientId: string, clientSecret: string)

  /** The client-credentials request handed to the HTTP client. */
  datatype TokenRequest = TokenRequest(url: string, userPass: string, contentType: string, form: seq<(string, string)>)

  datatype AuthError = MissingCredentials | RequestError | TransportError | BadStatus(status: int) | DecodeError

  datatype Outcome = Ok | Fail(error: AuthError)

  /** The two package globals: the decoded record and the expiry instant. */
  datatype Cache = Cache(auth: SpotifyAuth, expiry: int)

  /** The cache after one call, the call's result and the token request it sent, if any. */
  datatype Step = Step(cache: Cache, outcome: Outcome, sent: Option<TokenRequest>)

  /**
   * The cached token is used: the expiry is set and strictly later than now.
   * Until the next refresh, a stale cache stays stale as the clock advances.
   */
  predicate CacheHit(c: Cache, now: int)
  {
    c.expiry != ZeroTime && now < c.expiry
  }

  predicate HasCredentials(env: Env)
  {
    env.clientId != "" && env.clientSecret != ""
  }

  /** The exchange yields a usable token: status 200 and a body that decodes. */
  predicate Delivers(ex: Exchange)
  {
    ex.TokenResponse? && ex.status == StatusOK && ex.body.Decoded?
  }

  /** Decoding JSON into an existing record overwrites only the fields present. */
  function Merge(prior: SpotifyAuth, f: Fields): SpotifyAuth
  {
    SpotifyAuth(
      if f.accessToken.Some? then f.accessToken.value else prior.accessToken,
      if f.tokenType.Some? then f.tokenType.value else prior.tokenType,
      if f.expiresIn.Some? then f.expiresIn.value else prior.expiresIn)
  }

  /** The fields of `later`, with those of `earlier` where `later` has none. */
  function Combine(earlier: Fields, later: Fields): Fields
  {
    Fields(
      if later.accessToken.Some? then later.accessToken else earlier.accessToken,
      if later.tokenType.Some? then later.tokenType else earlier.tokenType,
      if later.expiresIn.Some? then later.expiresIn else earlier.expiresIn)
  }

  /**
   * Decoding two bodies in turn is decoding their combination; an empty body
   * keeps the record and a body with every field replaces it whatever it held.
   */
  lemma MergeLaws(prior: SpotifyAuth, other: SpotifyAuth, f: Fields, g: Fields)
    ensures Merge(Merge(prior, f), g) == Merge(prior, Combine(f, g))
    ensures Merge(prior, Fields(None, None, None)) == prior
    ensures f.accessToken.Some? && f.tokenType.Some? && f.expiresIn.Some? ==> Merge(prior, f) == Merge(other, f)
  {
  }

  /** The client-credentials grant (section 4.4.2 of RFC 6749) with Basic client authentication. */
  function RequestFor(env: Env): (r: TokenRequest)
    ensures r.form == [("grant_type", "client_credentials")]
    ensures ':' !in env.clientId ==> SplitAtFirst(r.userPass, ':') == Some((env.clientId, env.clientSecret))
  {
    TokenRequest(TokenUrl, BasicUserPass(env.clientId, env.clientSecret), FormContentType,
                 [("grant_type", "client_credentials")])
  }

  /**
   * One call of the token operation. `now` is the clock read before deciding,
   * `storeTime` the clock read after the response has been decoded.
   */
  function Refresh(c: Cache, now: int, storeTime: int, env: Env, ex: Exchange): (r: Step)
    // a hit is exactly a success without a request, and changes nothing
    ensures (r.outcome.Ok? && r.sent.None?) <==> CacheHit(c, now)
    ensures CacheHit(c, now) ==> r.cache == c
    // otherwise exactly one token request goes out, unless credentials are missing or it cannot be built
    ensures r.sent.Some? <==> !CacheHit(c, now) && HasCredentials(env) && !ex.TokenBuildFailure?
    ensures r.sent.Some? ==> r.sent.value == RequestFor(env)
    ensures !CacheHit(c, now) && !HasCredentials(env) ==> r == Step(c, Fail(MissingCredentials), None)
    // each failure after the credential check gets its own error kind
    ensures r.outcome == Fail(RequestError) <==> !CacheHit(c, now) && HasCredentials(env) && ex.TokenBuildFailure?
    ensures r.outcome == Fail(TransportError) <==> r.sent.Some? && ex.TokenTransportFailure?
    ensures r.sent.Some? && ex.TokenResponse? && ex.status != StatusOK ==> r.outcome == Fail(BadStatus(ex.status))
    ensures r.outcome.Fail? && r.outcome.error.BadStatus? ==> ex.TokenResponse? && r.outcome.error.status == ex.status
    ensures r.outcome == Fail(DecodeError) <==>
              r.sent.Some? && ex.TokenResponse? && ex.status == StatusOK && ex.body.Malformed?
    // success without a hit needs a delivered token
    ensures r.outcome.Ok? <==> CacheHit(c, now) || (r.sent.Some? && Delivers(ex))
    // a failure never moves the expiry; only a decode failure may touch the record
    ensures r.outcome.Fail? ==> r.cache.expiry == c.expiry
    ensures r.outcome.Fail? && r.outcome.error != DecodeError ==> r.cache == c
    ensures r.outcome == Fail(DecodeError) ==> ex.TokenResponse? && ex.body.Malformed? && r.cache.auth == Merge(c.auth, ex.body.written)
    // the record changes only by decoding a status-200 response
    ensures r.cache.auth != c.auth ==> r.sent.Some? && ex.TokenResponse? && ex.status == StatusOK
    // a fresh token expires its announced lifetime less the margin after the store time
    ensures r.outcome.Ok? && !CacheHit(c, now) ==>
              r.cache.auth == Merge(c.auth, ex.body.fields) &&
              r.cache.expiry == storeTime + (r.cache.auth.expiresIn - SafetyMargin)
  {
    if CacheHit(c, now) then Step(c, Ok, None)
    else if !HasCredentials(env) then Step(c, Fail(MissingCredentials), None)
    else match ex
      case TokenBuildFailure => Step(c, Fail(RequestError), None)
      case TokenTransportFailure => Step(c, Fail(TransportError), Some(RequestFor(env)))
      case TokenResponse(status, body) =>
        if status != StatusOK then Step(c, Fail(BadStatus(status)), Some(RequestFor(env)))
        else match body
          case Malformed(written) =>
            Step(Cache(Merge(c.auth, written), c.expiry), Fail(DecodeError), Some(RequestFor(env)))
          case Decoded(fields) =>
            var a := Merge(c.auth, fields);
            Step(Cache(a, storeTime + (a.expiresIn - SafetyMargin)), Ok, Some(RequestFor(env)))
  }

  /**
   * A token announced with a lifetime of at most the margin is stale at once:
   * every later call goes back to the token endpoint.
   */
  lemma ShortLifetimeRefreshesAgain(c: Cache, now: int, storeTime: int, env: Env, ex: Exchange, later: int)
    requires Refresh(c, now, storeTime, env, ex).sent.Some?
    requires Refresh(c, now, storeTime, env, ex).outcome.Ok?
    requires Refresh(c, now, storeTime, env, ex).cache.auth.expiresIn <= SafetyMargin
    requires storeTime <= later
    ensures !CacheHit(Refresh(c, now, storeTime, env, ex).cache, later)
  {
  }

  /** One call in a sequential run: its two clock readings, its environment and its exchange. */
  datatype Call = Call(now: int, storeTime: int, env: Env, exchange: Exchange)

  /** The cache after a run of calls and how many token requests the run sent. */
  datatype Summary = Summary(cache: Cache, exchanges: nat)

  /** The cache after the calls, and how many of them went to the token endpoint. */
  function Run(c: Cache, calls: seq<Call>): (s: Summary)
    // a moved expiry was set by a call whose exchange delivered a token
    ensures s.cache.expiry != c.expiry ==> exists i :: 0 <= i < |calls| && Delivers(calls[i].exchange)
    // a changed record was written by a call that got a status-200 response
    ensures s.cache.auth != c.auth ==>
              exists i :: 0 <= i < |calls| && calls[i].exchange.TokenResponse? && calls[i].exchange.status == StatusOK
    // a run with credentials in every call but no token request never left a set expiry
    ensures s.exchanges == 0 && c.expiry == ZeroTime &&
            (forall i :: 0 <= i < |calls| ==> HasCredentials(calls[i].env) && !calls[i].exchange.TokenBuildFailure?) ==>
              calls == []
    decreases |calls|
  {
    if calls == [] then Summary(c, 0)
    else
      var step := Refresh(c, calls[0].now, calls[0].storeTime, calls[0].env, calls[0].exchange);
      var rest := Run(step.cache, calls[1..]);
      assert forall i :: 0 <= i < |calls| - 1 ==> calls[1..][i] == calls[i + 1];
      Summary(rest.cache, rest.exchanges + if step.sent.Some? then 1 else 0)
  }

  /** Calls made before a set expiry send nothing and leave the cache as it was. */
  lemma {:induction false} HitsLeaveCacheAlone(c: Cache, calls: seq<Call>)
    requires c.expiry != ZeroTime
    requires forall i :: 0 <= i < |calls| ==> calls[i].now < c.expiry
    ensures Run(c, calls) == Summary(c, 0)
    decreases |calls|
  {
    if calls != [] {
      HitsLeaveCacheAlone(c, calls[1..]);
    }
  }

  /** Without a delivered token the expiry never moves, whatever the clock does. */
  lemma {:induction false} FailuresKeepExpiry(c: Cache, calls: seq<Call>)
    requires forall i :: 0 <= i < |calls| ==> !Delivers(calls[i].exchange)
    ensures Run(c, calls).cache.expiry == c.expiry
    decreases |calls|
  {
    if calls != [] {
      var step := Refresh(c, calls[0].now, calls[0].storeTime, calls[0].env, calls[0].exchange);
      FailuresKeepExpiry(step.cache, calls[1..]);
    }
  }

  /**
   * Until a token has been delivered, the expiry stays zero and every call
   * with credentials and a buildable request goes to the token endpoint.
   */
  lemma {:induction false} UnsetExpiryExchangesEveryCall(c: Cache, calls: seq<Call>)
    requires c.expiry == ZeroTime
    requires forall i :: 0 <= i < |calls| ==>
               HasCredentials(calls[i].env) && !calls[i].exchange.TokenBuildFailure? && !Delivers(calls[i].exchange)
    ensures Run(c, calls).exchanges == |calls|
    ensures Run(c, calls).cache.expiry == ZeroTime
    decreases |calls|
  {
    if calls != [] {
      var step := Refresh(c, calls[0].now, calls[0].storeTime, calls[0].env, calls[0].exchange);
      UnsetExpiryExchangesEveryCall(step.cache, calls[1..]);
    }
  }
}
