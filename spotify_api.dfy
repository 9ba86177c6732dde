/**
 * The Web API facade (`SpotifyApiService`): the request each player
 * operation sends, how its reply becomes an outcome, the volume clamp, the
 * search-limit cap with its fallback for missing results, and the
 * auto-refresh wrappers, which hand each raw operation to the token
 * coordinator's retry.
 *
 * The Web API is an oracle `upstream` from requests to outcomes: `Ok(body)`
 * for a 2xx reply with its body, `Fail(e)` for an error reply or a transport
 * failure.
 */
module SpotifyApi {
  import opened Wrappers
  import opened Text
  import opened Upstream
  import opened TokenStorage
  import opened SpotifyAuth
  import opened TokenManagement

  datatype Verb = Get | Put | Post

  /** The JSON bodies the player operations send. */
  datatype JsonBody =
    | PlayBody(uris: seq<string>)
    | TransferBody(deviceIds: seq<string>, play: bool)

  /** A Web API request; `authorization` is the header value, `body` is sent as application/json. */
  datatype ApiRequest = ApiRequest(verb: Verb, path: string, query: seq<(string, string)>, authorization: string, body: Option<JsonBody>)

  /** The user-scoped player operations. */
  datatype ApiCall =
    | Play(trackUri: string)
    | Pause
    | Resume
    | CurrentPlayback
    | Devices
    | Transfer(deviceId: string)
    | SetVolume(volumePercent: int)
    | Queue
    | AddToQueue(uri: string)
    | Next
    | Previous
  {
    /** The operations read as a string body; the others complete empty. */
    predicate ReturnsBody() {
      CurrentPlayback? || Devices? || Queue?
    }
  }

  /** `Math.max(0, Math.min(100, v))`. */
  function VolumePercent(v: int): (r: int)
    ensures 0 <= r <= 100
    ensures 0 <= v <= 100 ==> r == v
    ensures v < 0 ==> r == 0
    ensures v > 100 ==> r == 100
  {
    if v < 0 then 0 else if v > 100 then 100 else v
  }

  /** `Math.min(limit, 50)`: only the upper bound is enforced. */
  function SearchLimit(limit: int): (r: int)
    ensures r <= 50
    ensures limit <= 50 ==> r == limit
    ensures limit > 50 ==> r == 50
  {
    if limit < 50 then limit else 50
  }

  function Bearer(accessToken: string): string {
    "Bearer " + accessToken
  }

  /** The request a player operation sends with a given access token. */
  function CallRequest(call: ApiCall, accessToken: string): (req: ApiRequest)
    ensures req.authorization == Bearer(accessToken)
    ensures req.verb == Get <==> call.ReturnsBody()
    ensures req.body.Some? <==> call.Play? || call.Transfer?
  {
    var auth := Bearer(accessToken);
    match call
    case Play(uri) => ApiRequest(Put, "/me/player/play", [], auth, Some(PlayBody([uri])))
    case Pause => ApiRequest(Put, "/me/player/pause", [], auth, None)
    case Resume => ApiRequest(Put, "/me/player/play", [], auth, None)
    case CurrentPlayback => ApiRequest(Get, "/me/player", [], auth, None)
    case Devices => ApiRequest(Get, "/me/player/devices", [], auth, None)
    case Transfer(id) => ApiRequest(Put, "/me/player", [], auth, Some(TransferBody([id], true)))
    case SetVolume(v) => ApiRequest(Put, "/me/player/volume", [("volume_percent", IntToString(VolumePercent(v)))], auth, None)
    case Queue => ApiRequest(Get, "/me/player/queue", [], auth, None)
    case AddToQueue(uri) => ApiRequest(Post, "/me/player/queue", [("uri", uri)], auth, None)
    case Next => ApiRequest(Post, "/me/player/next", [], auth, None)
    case Previous => ApiRequest(Post, "/me/player/previous", [], auth, None)
  }

  /** The volume a server reads from the request is in [0,100], and equals the requested one when that is already in range. */
  lemma VolumeSent(v: int, accessToken: string)
    ensures var value := FormValue(CallRequest(SetVolume(v), accessToken).query, "volume_percent");
            && value.Some? && ParseInt(value.value) == Some(VolumePercent(v))
            && 0 <= ParseInt(value.value).value <= 100
            && (0 <= v <= 100 ==> ParseInt(value.value) == Some(v))
  {
    ParseIntToString(VolumePercent(v));
  }

  /**
   * How a reply becomes the operation's outcome: errors pass through; a
   * bodiless operation completes empty on success; a body operation yields
   * its body, or completes empty when the body is empty.
   */
  function Complete(call: ApiCall, reply: Outcome<string>): (r: Outcome<string>)
    ensures reply.Fail? <==> r.Fail?
    ensures r.Fail? ==> r == reply
    ensures r.Ok? <==> call.ReturnsBody() && reply.Ok? && reply.value != ""
    ensures r.Ok? ==> r == reply
  {
    match reply
    case Fail(e) => Fail(e)
    case Empty => Empty
    case Ok(body) => if call.ReturnsBody() && body != "" then Ok(body) else Empty
  }

  /** The raw operation for `call`: given an access token, send its request and complete its reply. */
  function RawOp(call: ApiCall, upstream: ApiRequest -> Outcome<string>): string -> Outcome<string> {
    accessToken => Complete(call, upstream(CallRequest(call, accessToken)))
  }

  /**
   * A 401 from the Web API reaches the coordinator as a 401, so an auto-refresh
   * wrapper refreshes once and re-sends the same operation with the new token.
   */
  lemma AutoRefreshResendsWithNewToken(t: Tokens, u: string, call: ApiCall, upstream: ApiRequest -> Outcome<string>, cfg: Config, endpoint: TokenRequest -> TokenReply)
    requires AccessOf(t, u).Some?
    requires var reply := upstream(CallRequest(call, AccessOf(t, u).value)); reply.Fail? && IsUnauthorized(reply.error)
    requires RefreshSpec(t, u, cfg, endpoint).result.Ok?
    ensures var renewed := RefreshSpec(t, u, cfg, endpoint).result.value;
            var run := RetrySpec(t, u, RawOp(call, upstream), cfg, endpoint);
            && run.invocations == [AccessOf(t, u).value, renewed]
            && CallRequest(call, run.invocations[1]).authorization == Bearer(renewed)
            && run.result == Complete(call, upstream(CallRequest(call, renewed)))
  {
    var op := RawOp(call, upstream);
    assert op(AccessOf(t, u).value) == upstream(CallRequest(call, AccessOf(t, u).value));
    RetryAfterUnauthorized(t, u, op, cfg, endpoint);
  }

  /**
   * Through the retry, only a body operation can yield a value, and that value
   * is never the empty string: an empty reply completes empty.
   */
  lemma RetryValuesCarryBody(t: Tokens, u: string, call: ApiCall, upstream: ApiRequest -> Outcome<string>, cfg: Config, endpoint: TokenRequest -> TokenReply)
    ensures var r := RetrySpec(t, u, RawOp(call, upstream), cfg, endpoint).result;
            r.Ok? ==> call.ReturnsBody() && r.value != ""
  {
    var op := RawOp(call, upstream);
    if AccessOf(t, u).Some? {
      var a := AccessOf(t, u).value;
      assert op(a) == Complete(call, upstream(CallRequest(call, a)));
      var rr := RefreshSpec(t, u, cfg, endpoint);
      if rr.result.Ok? {
        var renewed := rr.result.value;
        assert op(renewed) == Complete(call, upstream(CallRequest(call, renewed)));
      }
    }
  }

  // ---------------------------------------------------------------- search

  datatype Track = Track(id: string, name: string, uri: string)
  datatype TrackPage = TrackPage(items: Option<seq<Track>>)
  /** The search reply; a missing `tracks` or `items` is `None`. */
  datatype SearchResponse = SearchResponse(tracks: Option<TrackPage>)

  /** The search request: `q`, `type=track` and the capped limit. */
  function SearchRequest(query: string, limit: int, accessToken: string): ApiRequest {
    ApiRequest(Get, "/search", [("q", query), ("type", "track"), ("limit", IntToString(SearchLimit(limit)))], Bearer(accessToken), None)
  }

  /** The limit a server reads from the search request is min(limit, 50). */
  lemma SearchLimitSent(query: string, limit: int, accessToken: string)
    ensures var value := FormValue(SearchRequest(query, limit, accessToken).query, "limit");
            && value.Some? && ParseInt(value.value) == Some(SearchLimit(limit))
            && ParseInt(value.value).value <= 50
            && (limit <= 50 ==> ParseInt(value.value) == Some(limit))
  {
    var q := SearchRequest(query, limit, accessToken).query;
    assert FormValue(q[1..][1..], "limit") == Some(IntToString(SearchLimit(limit)));
    assert FormValue(q[1..], "limit") == Some(IntToString(SearchLimit(limit)));
    ParseIntToString(SearchLimit(limit));
  }

  /** The tracks of a search reply, or the empty list when `tracks` or `items` is missing. */
  function SearchItems(resp: SearchResponse): (r: seq<Track>)
    ensures resp.tracks.None? ==> r == []
    ensures resp.tracks.Some? && resp.tracks.value.items.None? ==> r == []
    ensures resp.tracks.Some? && resp.tracks.value.items.Some? ==> r == resp.tracks.value.items.value
  {
    if resp.tracks.Some? && resp.tracks.value.items.Some? then resp.tracks.value.items.value else []
  }

  class SpotifyApiService {
    const auth: SpotifyAuthService
    const manager: TokenManagerService

    constructor (auth: SpotifyAuthService, manager: TokenManagerService)
      ensures this.auth == auth && this.manager == manager
    {
      this.auth := auth;
      this.manager := manager;
    }

    /**
     * `searchTracks`: a client-credentials token, then one search request;
     * the reply's tracks, or the empty list when the reply has none. A reply
     * without a body skips the mapping, so the success hook receives null and
     * its `size()` call throws: the search then fails.
     */
    method SearchTracks(query: string, limit: int, endpoint: TokenRequest -> TokenReply, search: ApiRequest -> Outcome<SearchResponse>)
      returns (r: Outcome<seq<Track>>)
      modifies auth
      ensures var reply := endpoint(Request(auth.config, ClientCredentialsForm()));
              && auth.tokenCache == CacheAfter(old(auth.tokenCache), ClientCredentialsKey, reply)
              && (reply.Rejected? ==> r == Fail(reply.error))
              && (reply.Granted? ==>
                    match search(SearchRequest(query, limit, reply.response.accessToken))
                    case Ok(resp) => r == Ok(SearchItems(resp))
                    case Empty => r == Fail(Transport(None))
                    case Fail(e) => r == Fail(e))
    {
      var token := auth.GetClientCredentialsToken(endpoint);
      match token
      case Fail(e) =>
        r := Fail(e);
      case Empty =>
        r := Empty;
      case Ok(accessToken) =>
        var reply := search(SearchRequest(query, limit, accessToken));
        match reply
        case Ok(resp) => r := Ok(SearchItems(resp));
        case Empty => r := Fail(Transport(None));
        case Fail(e) => r := Fail(e);
    }

    /**
     * The `*WithAutoRefresh` operations: each hands its raw operation, with
     * its own arguments, and the caller's user id to `retryWithTokenRefresh`.
     */
    method WithAutoRefresh(call: ApiCall, userId: string, upstream: ApiRequest -> Outcome<string>, endpoint: TokenRequest -> TokenReply)
      returns (r: Outcome<string>, ghost invocations: seq<string>)
      modifies manager.storage, manager.auth
      ensures var run := RetrySpec(old(manager.storage.State()), userId, RawOp(call, upstream), manager.auth.config, endpoint);
              && r == run.result && invocations == run.invocations
              && manager.storage.State() == run.tokens
              && manager.auth.tokenCache == CacheAfterRetry(old(manager.auth.tokenCache), run)
    {
      r, invocations := manager.RetryWithTokenRefresh(userId, RawOp(call, upstream), endpoint);
    }
  }
}
