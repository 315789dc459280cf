/**
 * The two route handlers' decision chains: which status and error message a
 * request ends with, given how each stage went, and the request each sends
 * to the catalog API.
 */
module Handlers {
  import opened Wrappers
  import opened Http
  import TokenCache

  datatype Endpoint = SearchEndpoint | TrackEndpoint

  /** How the catalog call went: not built, no response, or a status and whether its body decoded. */
  datatype Upstream = ApiBuildFailure | ApiTransportFailure | ApiResponse(status: int, decodes: bool)

  /** The JSON the handler passes to c.JSON: an error object or the (opaque) decoded payload. */
  datatype ReplyBody = ErrorBody(message: string) | Payload

  datatype Reply = Reply(status: int, body: ReplyBody)

  /** The request handed to the HTTP client; query pairs in the order they are added. */
  datatype ApiRequest = ApiRequest(url: string, query: seq<(string, string)>, authorization: string)

  const SearchUrl: string := "https://api.spotify.com/v1/search"
  const TrackUrlPrefix: string := "https://api.spotify.com/v1/tracks/"

  const AuthFailedMessage: string := "Failed to authenticate with Spotify"
  const BuildFailedMessage: string := "Failed to create request"
  const UpstreamErrorMessage: string := "Spotify API error"
  const ParseFailedMessage: string := "Failed to parse response"

  function MissingParameterMessage(ep: Endpoint): string
  {
    match ep
    case SearchEndpoint => "query parameter 'q' is required"
    case TrackEndpoint => "track ID is required"
  }

  function TransportFailedMessage(ep: Endpoint): string
  {
    match ep
    case SearchEndpoint => "Failed to search tracks"
    case TrackEndpoint => "Failed to get track details"
  }

  /**
   * The reply of a handler whose parameter is `param`, whose token call ended
   * with `token` and whose catalog call went as `up`. Each stage is consulted
   * only when every earlier one passed.
   */
  function Respond(ep: Endpoint, param: string, token: TokenCache.Outcome, up: Upstream): (r: Reply)
    // a missing parameter decides alone
    ensures param == "" ==> r == Reply(StatusBadRequest, ErrorBody(MissingParameterMessage(ep)))
    // success exactly when every stage passed
    ensures r.body == Payload <==> param != "" && token.Ok? && up == ApiResponse(StatusOK, true)
    // an error is never sent with 200, and every other status carries an error
    ensures r.body.ErrorBody? <==> r.status != StatusOK
    // the only statuses: 400, 500, 200, or the catalog's own status passed through
    ensures r.status in {StatusBadRequest, StatusInternalServerError, StatusOK}
            || (up.ApiResponse? && r.status == up.status)
    // precedence of the failures after the parameter check
    ensures param != "" && token.Fail? ==> r == Reply(StatusInternalServerError, ErrorBody(AuthFailedMessage))
    ensures r.body == ErrorBody(BuildFailedMessage) <==> param != "" && token.Ok? && up.ApiBuildFailure?
    ensures r.body == ErrorBody(TransportFailedMessage(ep)) <==> param != "" && token.Ok? && up.ApiTransportFailure?
    ensures r.body == ErrorBody(UpstreamErrorMessage) <==>
              param != "" && token.Ok? && up.ApiResponse? && up.status != StatusOK
    ensures r.body == ErrorBody(UpstreamErrorMessage) ==> r.status == up.status
    ensures r.body == ErrorBody(ParseFailedMessage) <==> param != "" && token.Ok? && up == ApiResponse(StatusOK, false)
    // the server's own failures after the parameter check all answer 500
    ensures r.body in {ErrorBody(AuthFailedMessage), ErrorBody(BuildFailedMessage),
                       ErrorBody(TransportFailedMessage(ep)), ErrorBody(ParseFailedMessage)} ==>
              r.status == StatusInternalServerError
  {
    if param == "" then Reply(StatusBadRequest, ErrorBody(MissingParameterMessage(ep)))
    else if token.Fail? then Reply(StatusInternalServerError, ErrorBody(AuthFailedMessage))
    else match up
      case ApiBuildFailure => Reply(StatusInternalServerError, ErrorBody(BuildFailedMessage))
      case ApiTransportFailure => Reply(StatusInternalServerError, ErrorBody(TransportFailedMessage(ep)))
      case ApiResponse(status, decodes) =>
        if status != StatusOK then Reply(status, ErrorBody(UpstreamErrorMessage))
        else if !decodes then Reply(StatusInternalServerError, ErrorBody(ParseFailedMessage))
        else Reply(StatusOK, Payload)
  }

  /** Both handlers map the same stage outcomes to the same status; only two messages differ. */
  lemma EndpointsAgree(param: string, token: TokenCache.Outcome, up: Upstream)
    ensures Respond(SearchEndpoint, param, token, up).status == Respond(TrackEndpoint, param, token, up).status
    ensures param != "" && !(token.Ok? && up.ApiTransportFailure?) ==>
              Respond(SearchEndpoint, param, token, up) == Respond(TrackEndpoint, param, token, up)
  {
  }

  /**
   * The catalog request a handler sends with the record `auth` in the cache:
   * search by query with fixed type and limit, or the track path with the id
   * appended unescaped and no query pairs added.
   */
  function UpstreamRequest(ep: Endpoint, param: string, auth: TokenCache.SpotifyAuth): (r: ApiRequest)
    // both routes present the cached token the same way, and it can be read back
    ensures ' ' !in auth.tokenType ==> SplitAtFirst(r.authorization, ' ') == Some((auth.tokenType, auth.accessToken))
    ensures r.authorization == Authorization(auth.tokenType, auth.accessToken)
    // the search term is the value of the one `q` pair; the id is what follows the tracks path
    ensures ep.SearchEndpoint? ==>
              && r.url == SearchUrl && |r.query| == 3 && r.query[0] == ("q", param)
              && forall i :: 0 < i < |r.query| ==> r.query[i].0 != "q"
    ensures ep.TrackEndpoint? ==>
              && r.query == [] && |r.url| == |TrackUrlPrefix| + |param|
              && r.url[..|TrackUrlPrefix|] == TrackUrlPrefix && r.url[|TrackUrlPrefix|..] == param
  {
    match ep
    case SearchEndpoint =>
      ApiRequest(SearchUrl, [("q", param), ("type", "track"), ("limit", "10")],
                 Authorization(auth.tokenType, auth.accessToken))
    case TrackEndpoint =>
      ApiRequest(TrackUrlPrefix + param, [], Authorization(auth.tokenType, auth.accessToken))
  }
}
