# Spotify search proxy: token cache and handler outcomes

A model of the core of a small Go HTTP proxy (`main.go`) that serves two
routes, `GET /api/search?q=...` and `GET /api/track/:id`, by forwarding them to
the Spotify Web API with a server-held access token.

- **Token cache.** Two package globals, `spotifyAuth` (access token, token type,
  announced lifetime) and `authExpiry`, are the cache. `getSpotifyToken` returns
  at once while `authExpiry` is set and strictly in the future. Otherwise it
  performs an OAuth 2.0 client-credentials exchange (section 4.4 of RFC 6749),
  with the client authenticated by HTTP Basic (scheme of section 2 of RFC 7617).
  Section 2.3.1 of RFC 6749 asks for the client id and secret to be
  form-urlencoded before they become the Basic user and password; main.go:86
  joins them raw with a colon, and the model follows the code. The JSON answer is decoded straight into
  `spotifyAuth`. `authExpiry` becomes `now + expires_in - 60` seconds, and only
  when every step succeeded.
  `TokenCache.Refresh` is that call as a function on the two globals.
  `Server.Globals.GetSpotifyToken` is the imperative method on the globals,
  proved equal to it. `TokenCache.Run` folds `Refresh` over a sequence of
  calls, so that properties of runs can be stated.
- **Handlers.** Each handler is a fixed chain of early returns. A missing
  parameter gives 400. A token failure, a request that cannot be built, a
  transport failure and a body that does not decode give 500. A catalog status
  other than 200 is passed through with "Spotify API error". Otherwise the
  reply is 200. `Handlers.Respond` is that chain as a total function; its
  reply is the status and body the handler hands to gin's `c.JSON`.
  `Server.Globals.SearchTracks` and `Server.Globals.GetTrackDetails` run the
  token call and the chain against the globals. They return the catalog
  request they send, whose `Authorization` header is `TokenType + " " + AccessToken`.

Clock, environment and network are parameters of each call:

- Time is whole seconds. `0` stands for Go's zero `time.Time`, and clock
  readings are positive, since the clock is always after the zero time. A
  successful refresh can compute an expiry of exactly `0` (when
  `storeTime + expires_in - 60 == 0`); such an expiry is already before
  `storeTime`, so reading it as "never set" changes no outcome: both lead to a
  refresh on the next call.
- `now` is the clock read at main.go:66. `storeTime` is the clock read at
  main.go:106, after the network call. Methods require `now <= storeTime`.
- The environment is `Env(clientId, clientSecret)`, read at each call as the
  source does.
- The token exchange is given as an `Exchange`: the request cannot be built,
  it gets no response, or it gets a status and a body. The body is a decoded or
  malformed JSON object, with the fields the decoder wrote (none for a syntax error). The catalog call is
  given as an `Upstream` in the same way.

JSON decoding into the existing `spotifyAuth` record is modelled as `Merge`.
Fields the JSON carries overwrite the record; the others keep their old
values, as Go's decoder does. A malformed body carries whichever fields the
decoder wrote: none on a syntax error or a truncated body, since the whole
value is read and checked before anything is stored; on a type mismatch such
as `"expires_in":"3600"`, every field of the right type. So after a decode
failure `spotifyAuth` may differ from before while `authExpiry` does not.

The receiver-side parser `Http.SplitAtFirst` splits a string at the first
separator. It is the reference for the two header builders: the Basic
user-pass string splits back into id and secret when the id has no colon
(RFC 7617 forbids one). Because the id is not form-encoded first, an id
holding a colon is split at that colon and read as a different id and secret
(`Http.BasicUserPassColonInId`). The Authorization value splits back into
token type and access token when the type has no space.

## Model

| member | source | states |
|---|---|---|
| `Http.Join` | main.go:86 | joining two parts with a separator is undone by splitting at the first separator whenever the first part does not contain it; both header values below are built this way |
| `Http.BasicUserPass` | main.go:86 | the string `clientID + ":" + clientSecret` given to base64 splits back at its first colon into exactly the id and the secret whenever the id has no colon |
| `Http.BasicUserPassColonInId` | main.go:86 | since the id is not escaped, the id `a:b` with secret `c` is split by the receiver into id `a` and secret `b:c` |
| `Http.Authorization` | main.go:136 | the header value `TokenType + " " + AccessToken` (the same expression at main.go:181) splits back at its first space into token type and access token whenever the type has no space |
| `TokenCache.MergeLaws` | main.go:101 | decoding two bodies into the record in turn equals decoding their combination, later fields winning; a body with no fields keeps the record; a body with every field gives the same record whatever the record held before |
| `TokenCache.RequestFor` | main.go:77-88 | the token request carries the single form pair `grant_type=client_credentials`, and its Basic user-pass gives back the client id and secret whenever the id has no colon |
| `TokenCache.Refresh` | main.go:65-108 | a call succeeds without a request exactly when the expiry is set and strictly after `now`, and then nothing changes; otherwise exactly one client-credentials request is sent unless credentials are missing (error, nothing changes, nothing sent) or the request cannot be built; success otherwise needs a status-200 body that decodes; each failure gets its own kind: a request that cannot be built, no response, a non-200 status carrying that status, a malformed status-200 body; no failure moves the expiry; transport, status and credential failures change nothing; a decode failure leaves the record as merged with the fields written; the record changes only through a status-200 response; a success after a request sets the expiry to store time plus announced lifetime minus 60 |
| `TokenCache.ShortLifetimeRefreshesAgain` | main.go:106 | after a refresh whose record announces a lifetime of at most 60 seconds, the cache is stale at every instant from the store time on |
| `TokenCache.Run` | main.go:65-108 | over a run of sequential calls, an expiry that moved was set by a call whose exchange delivered a token; a record that changed was written by a call that got a status-200 response; from the zero expiry, a non-empty run of calls with credentials and buildable requests sends at least one token request |
| `TokenCache.HitsLeaveCacheAlone` | main.go:66-68 | any run of calls whose clock readings are all before a set expiry sends no token request and leaves both globals unchanged |
| `TokenCache.FailuresKeepExpiry` | main.go:97-106 | in a run where no exchange delivers a status-200 decodable body, the expiry at the end equals the expiry at the start, whatever the clock readings |
| `TokenCache.UnsetExpiryExchangesEveryCall` | main.go:66-91 | while the expiry is the zero time and no token has been delivered, every call with both credentials and a buildable request sends a token request, whatever the clock says, and the expiry stays zero |
| `Handlers.Respond` | main.go:110-204 | an empty parameter gives 400 whatever else happened; the reply is the payload exactly when every stage passed; the body handed to `c.JSON` is an error object for every status but 200 and never for 200; statuses are 400, 500, 200 or the catalog's own; a token failure gives 500 "Failed to authenticate with Spotify"; the authentication, request-building, transport and parse failures all answer 500; each later message appears exactly when every earlier stage passed and its own failed, and "Spotify API error" carries the catalog's status |
| `Handlers.EndpointsAgree` | main.go:110-204 | the two handlers give the same status for the same stage outcomes and the same reply except for the missing-parameter and transport messages |
| `Handlers.UpstreamRequest` | main.go:123-136 | both routes send the Authorization value of the cached record, which splits back into type and token whenever the type has no space; a search sends its term as the only `q` pair to the search endpoint; a track lookup adds no query pairs and its URL is the tracks path followed by the id, unescaped (main.go:174-181) |
| `Server.Globals.constructor` | main.go:44-45 | before any call both globals hold Go's zero values |
| `Server.Globals.GetSpotifyToken` | main.go:65-108 | the new globals, the result and the request sent are those `Refresh` gives for the old globals; a hit changes nothing and sends nothing; a failure leaves `authExpiry` as it was |
| `Server.Globals.Handle` | main.go:110-204 | an empty parameter leaves the globals alone and sends no token request; otherwise the token request sent and the new globals are those of the token call; the reply is `Respond` of the stage outcomes; a catalog request is sent exactly when parameter, token and request building passed, and carries the Authorization value of the record after the token call |
| `Server.Globals.SearchTracks` | main.go:110-159 | as `Handle` for the search route: an empty `q` sends no token request; the catalog request goes to the search endpoint with `q`, `type=track`, `limit=10` in the order they are added |
| `Server.Globals.GetTrackDetails` | main.go:161-204 | as `Handle` for the track route: an empty id sends no token request; the catalog request goes to the tracks path with the id appended unescaped, and no query pairs are added |

## Left out

- HTTP serving, gin routing and context, `.env` loading and the `PORT` default (main.go:47-63): framework plumbing. The handlers take their parameter as a string, and gin's "missing" and "empty" both arrive as `""`.
- The HTTP client, base64 encoding and `url.Values` encoding (main.go:78-91, 130-134): library code. The model keeps the strings before encoding: the user-pass string, the form pair `grant_type=client_credentials` and the query pairs in the order they are added. `url.Values.Encode` would sort the pairs by key on the wire.
- JSON decoding of the search result and of the raw track object, and the response body shapes (main.go:23-42, 151-158, 196-203): third-party schema. Their decoding is a boolean and a successful body is the opaque `Payload`.
- The unguarded globals under concurrent requests: calls are modelled one after another, so redundant parallel refreshes and torn reads of `spotifyAuth` are not captured.
- `Server.Globals.GetSpotifyToken`: `time.Duration` arithmetic is in nanoseconds on 64-bit integers, so `(ExpiresIn-60) * time.Second` wraps for lifetimes beyond about 292 years. The model uses unbounded seconds and does not capture that wrap-around.
- `TokenCache.Refresh`: the same unbounded-seconds expiry, without the 64-bit nanosecond wrap-around.
- The track id is appended to the path unescaped (main.go:174). gin takes it from the decoded path, so an id such as `abc?market=US` (sent as `abc%3Fmarket=US`) makes `http.NewRequest` parse a query out of it. The model keeps the URL as a string and does not parse it, so it does not capture that query.
- `Handlers.Respond`: the reply is what the handler hands to gin's `c.JSON`; for a passed-through 1xx, 204 or 304 status gin writes no body, which the model does not capture.
- Error texts returned by the token call (`fmt.Errorf` messages, wrapped transport errors) are reduced to the `AuthError` kinds; the handlers only test whether the call failed.
