/**
 * The proxy's package-level state and the three functions that use it: the
 * token call and the two route handlers. Environment variables, the clock
 * and the network are parameters of each call.
 */
module Server {
  import opened Wrappers
  import opened Http
  import opened TokenCache
  import opened Handlers

  /** The globals spotifyAuth and authExpiry, shared by every request. */
  class Globals {
    var spotifyAuth: SpotifyAuth
    var authExpiry: int

    /** Package initialisation: both globals hold Go's zero values. */
    constructor ()
      ensures spotifyAuth == ZeroAuth && authExpiry == ZeroTime
    {
      spotifyAuth := ZeroAuth;
      authExpiry := ZeroTime;
    }

    function State(): Cache
      reads this
    {
      Cache(spotifyAuth, authExpiry)
    }

    /**
     * Returns at once while the cached token is unexpired; otherwise asks the
     * token endpoint, decodes straight into spotifyAuth and sets authExpiry
     * only when everything succeeded.
     */
    method GetSpotifyToken(now: int, storeTime: int, env: Env, exchange: Exchange)
      returns (outcome: Outcome, sent: Option<TokenRequest>)
      requires now <= storeTime
      modifies this
      ensures Step(State(), outcome, sent) == Refresh(old(State()), now, storeTime, env, exchange)
      ensures CacheHit(old(State()), now) ==> outcome.Ok? && sent.None? && State() == old(State())
      ensures outcome.Fail? ==> authExpiry == old(authExpiry)
    {
      if authExpiry != ZeroTime && now < authExpiry {
        return Ok, None;
      }
      if env.clientId == "" || env.clientSecret == "" {
        return Fail(MissingCredentials), None;
      }
      if exchange.TokenBuildFailure? {
        return Fail(RequestError), None;
      }
      sent := Some(RequestFor(env));
      if exchange.TokenTransportFailure? {
        return Fail(TransportError), sent;
      }
      if exchange.status != StatusOK {
        return Fail(BadStatus(exchange.status)), sent;
      }
      match exchange.body {
        case Malformed(written) =>
          spotifyAuth := Merge(spotifyAuth, written);
          return Fail(DecodeError), sent;
        case Decoded(fields) =>
          spotifyAuth := Merge(spotifyAuth, fields);
      }
      authExpiry := storeTime + (spotifyAuth.expiresIn - SafetyMargin);
      outcome := Ok;
    }

    /** The chain shared by both handlers: parameter, token, request, response, decoding. */
    method Handle(ep: Endpoint, param: string, now: int, storeTime: int, env: Env, exchange: Exchange, up: Upstream)
      returns (reply: Reply, request: Option<ApiRequest>, tokenSent: Option<TokenRequest>)
      requires now <= storeTime
      modifies this
      ensures var step := Refresh(old(State()), now, storeTime, env, exchange);
              && State() == (if param == "" then old(State()) else step.cache)
              && tokenSent == (if param == "" then None else step.sent)
              && reply == Respond(ep, param, step.outcome, up)
              && request == (if param != "" && step.outcome.Ok? && !up.ApiBuildFailure?
                             then Some(UpstreamRequest(ep, param, State().auth)) else None)
    {
      if param == "" {
        return Reply(StatusBadRequest, ErrorBody(MissingParameterMessage(ep))), None, None;
      }
      var token;
      token, tokenSent := GetSpotifyToken(now, storeTime, env, exchange);
      if token.Fail? {
        return Reply(StatusInternalServerError, ErrorBody(AuthFailedMessage)), None, tokenSent;
      }
      if up.ApiBuildFailure? {
        return Reply(StatusInternalServerError, ErrorBody(BuildFailedMessage)), None, tokenSent;
      }
      request := Some(UpstreamRequest(ep, param, spotifyAuth));
      if up.ApiTransportFailure? {
        return Reply(StatusInternalServerError, ErrorBody(TransportFailedMessage(ep))), request, tokenSent;
      }
      if up.status != StatusOK {
        return Reply(up.status, ErrorBody(UpstreamErrorMessage)), request, tokenSent;
      }
      if !up.decodes {
        return Reply(StatusInternalServerError, ErrorBody(ParseFailedMessage)), request, tokenSent;
      }
      reply := Reply(StatusOK, Payload);
    }

    /** GET /api/search?q=... */
    method SearchTracks(q: string, now: int, storeTime: int, env: Env, exchange: Exchange, up: Upstream)
      returns (reply: Reply, request: Option<ApiRequest>, tokenSent: Option<TokenRequest>)
      requires now <= storeTime
      modifies this
      ensures var step := Refresh(old(State()), now, storeTime, env, exchange);
              && State() == (if q == "" then old(State()) else step.cache)
              && tokenSent == (if q == "" then None else step.sent)
              && reply == Respond(SearchEndpoint, q, step.outcome, up)
              && request == (if q != "" && step.outcome.Ok? && !up.ApiBuildFailure?
                             then Some(ApiRequest(SearchUrl, [("q", q), ("type", "track"), ("limit", "10")],
                                                  Authorization(spotifyAuth.tokenType, spotifyAuth.accessToken)))
                             else None)
    {
      reply, request, tokenSent := Handle(SearchEndpoint, q, now, storeTime, env, exchange, up);
    }

    /** GET /api/track/:id */
    method GetTrackDetails(id: string, now: int, storeTime: int, env: Env, exchange: Exchange, up: Upstream)
      returns (reply: Reply, request: Option<ApiRequest>, tokenSent: Option<TokenRequest>)
      requires now <= storeTime
      modifies this
      ensures var step := Refresh(old(State()), now, storeTime, env, exchange);
              && State() == (if id == "" then old(State()) else step.cache)
              && tokenSent == (if id == "" then None else step.sent)
              && reply == Respond(TrackEndpoint, id, step.outcome, up)
              && request == (if id != "" && step.outcome.Ok? && !up.ApiBuildFailure?
                             then Some(ApiRequest(TrackUrlPrefix + id, [],
                                                  Authorization(spotifyAuth.tokenType, spotifyAuth.accessToken)))
                             else None)
    {
      reply, request, tokenSent := Handle(TrackEndpoint, id, now, storeTime, env, exchange, up);
    }
  }
}
