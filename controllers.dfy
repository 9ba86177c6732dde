/**
 * The REST controller (`SpotifyController`): body validation before the
 * authentication guard on the control endpoints, the plain-text control
 * endpoints with their error classification, the token previews of the
 * status and admin endpoints, manual token entry, the playback-probe report
 * with its `tokenChanged` flag, the OAuth code exchange, and the cached
 * endpoints. Every endpoint acts for the default user.
 */
module Controllers {
  import opened Wrappers
  import opened Text
  import opened Upstream
  import opened TokenStorage
  import opened SpotifyAuth
  import opened TokenManagement
  import SpotifyApi
  import StateCache
  import opened Callback

  /** A response body: a one-entry JSON object, plain text, or nothing. */
  datatype Body = Json(key: string, value: string) | Plain(text: string) | NoBody

  datatype Response = Response(status: int, body: Body)

  const DefaultUser := StateCache.DefaultUser
  const NotAuthenticated := "Not authenticated - please login first"

  // ---------------------------------------------------------------- control endpoints

  /** The JSON control endpoints, with the body fields they read (`None` when absent). */
  datatype ControlRequest =
    | PlayTrack(trackUri: Option<string>)
    | PausePlayback
    | ResumePlayback
    | SetVolumeTo(volume: Option<int>)
    | TransferTo(deviceId: Option<string>)
    | AddTrackToQueue(trackUri: Option<string>)
    | SkipNext
    | SkipPrevious
  {
    /** The 400 message when a required body field is absent. */
    function MissingField(): Option<string> {
      match this
      case PlayTrack(None) => Some("Missing trackUri")
      case AddTrackToQueue(None) => Some("Missing trackUri")
      case SetVolumeTo(None) => Some("Missing volume")
      case TransferTo(None) => Some("Missing deviceId")
      case _ => None
    }

    /** The player operation the endpoint performs. */
    function Call(): SpotifyApi.ApiCall
      requires MissingField().None?
    {
      match this
      case PlayTrack(uri) => SpotifyApi.Play(uri.value)
      case PausePlayback => SpotifyApi.Pause
      case ResumePlayback => SpotifyApi.Resume
      case SetVolumeTo(v) => SpotifyApi.SetVolume(v.value)
      case TransferTo(id) => SpotifyApi.Transfer(id.value)
      case AddTrackToQueue(uri) => SpotifyApi.AddToQueue(uri.value)
      case SkipNext => SpotifyApi.Next
      case SkipPrevious => SpotifyApi.Previous
    }

    function SuccessMessage(): string
      requires MissingField().None?
    {
      match this
      case PlayTrack(_) => "Track playing"
      case PausePlayback => "Playback paused"
      case ResumePlayback => "Playback resumed"
      case SetVolumeTo(v) => "Volume set to " + IntToString(v.value) + "%"
      case TransferTo(_) => "Playback transferred"
      case AddTrackToQueue(_) => "Track added to queue"
      case SkipNext => "Skipped to next track"
      case SkipPrevious => "Skipped to previous track"
    }

    function FailureMessage(): string {
      match this
      case PlayTrack(_) => "Failed to play track"
      case PausePlayback => "Failed to pause playback"
      case ResumePlayback => "Failed to resume playback"
      case SetVolumeTo(_) => "Failed to set volume"
      case TransferTo(_) => "Failed to transfer playback"
      case AddTrackToQueue(_) => "Failed to add track to queue"
      case SkipNext => "Failed to skip to next track"
      case SkipPrevious => "Failed to skip to previous track"
    }
  }

  /**
   * The response of a control endpoint: a missing field is a 400 whatever the
   * authentication state; then an unauthenticated user gets 401; then the
   * operation's outcome decides between 200 and 500 (an empty completion is
   * a success).
   */
  function ControlResponse(req: ControlRequest, authenticated: bool, result: Outcome<string>): (r: Response)
    ensures req.MissingField().Some? ==> r == Response(400, Json("error", req.MissingField().value))
    ensures req.MissingField().None? && !authenticated ==> r == Response(401, Json("error", NotAuthenticated))
    ensures r.status == 200 <==> req.MissingField().None? && authenticated && !result.Fail?
    ensures r.status == 200 ==> r.body == Json("message", req.SuccessMessage())
    ensures req.MissingField().None? && authenticated && result.Fail? ==> r == Response(500, Json("error", req.FailureMessage()))
  {
    if req.MissingField().Some? then Response(400, Json("error", req.MissingField().value))
    else if !authenticated then Response(401, Json("error", NotAuthenticated))
    else if result.Fail? then Response(500, Json("error", req.FailureMessage()))
    else Response(200, Json("message", req.SuccessMessage()))
  }

  /**
   * The volume endpoint reports the volume it was asked for, not the one sent:
   * above 100 the message names the requested value while 100 is sent.
   */
  lemma VolumeReportedUnclamped(v: int, accessToken: string)
    requires v > 100
    ensures SetVolumeTo(Some(v)).SuccessMessage() == "Volume set to " + IntToString(v) + "%"
    ensures var sent := FormValue(SpotifyApi.CallRequest(SpotifyApi.SetVolume(v), accessToken).query, "volume_percent");
            sent.Some? && ParseInt(sent.value) == Some(100) && v != 100
  {
    SpotifyApi.VolumeSent(v, accessToken);
  }

  /** The plain-text control endpoints under /control. */
  datatype SimpleRequest =
    | SimplePause
    | SimpleNext
    | SimplePrevious
    | SimpleResume
    | SimpleAddToQueue(uri: Option<string>)
  {
    /**
     * A missing or blank `trackUri` is rejected; the other endpoints take no
     * input. The parameter is required, so the framework already answers a
     * missing one with its own 400: the handler's check sees only blank values.
     */
    predicate Invalid() {
      SimpleAddToQueue? && (uri.None? || Trim(uri.value) == [])
    }

    function Call(): SpotifyApi.ApiCall
      requires !Invalid()
    {
      match this
      case SimplePause => SpotifyApi.Pause
      case SimpleNext => SpotifyApi.Next
      case SimplePrevious => SpotifyApi.Previous
      case SimpleResume => SpotifyApi.Resume
      case SimpleAddToQueue(uri) => SpotifyApi.AddToQueue(uri.value)
    }
  }

  /** The error classification of the previous-track endpoint, on the error's message. */
  function ClassifyPreviousError(message: Option<string>): (r: Response)
    ensures r.status == 200 <==> message.Some? && (Contains(message.value, "403") || Contains(message.value, "404"))
    ensures message.Some? && Contains(message.value, "403") ==> r.body == Plain("FORBIDDEN")
    ensures message.Some? && !Contains(message.value, "403") && Contains(message.value, "404") ==> r.body == Plain("NO_PREVIOUS")
    ensures r.status != 200 ==> r == Response(500, Plain("ERROR"))
  {
    if message.Some? && Contains(message.value, "403") then Response(200, Plain("FORBIDDEN"))
    else if message.Some? && Contains(message.value, "404") then Response(200, Plain("NO_PREVIOUS"))
    else Response(500, Plain("ERROR"))
  }

  /** The response of a /control endpoint. */
  function SimpleResponse(req: SimpleRequest, authenticated: bool, result: Outcome<string>): (r: Response)
    ensures req.Invalid() ==> r == Response(400, Plain("Missing trackUri parameter"))
    ensures !req.Invalid() && !authenticated ==> r == Response(401, Plain("Not authenticated"))
    ensures !req.Invalid() && authenticated && !result.Fail? ==> r == Response(200, Plain("OK"))
    ensures !req.Invalid() && authenticated && result.Fail? ==>
              r == if req.SimplePrevious? then ClassifyPreviousError(Message(result.error)) else Response(500, Plain("ERROR"))
  {
    if req.Invalid() then Response(400, Plain("Missing trackUri parameter"))
    else if !authenticated then Response(401, Plain("Not authenticated"))
    else if !result.Fail? then Response(200, Plain("OK"))
    else if req.SimplePrevious? then ClassifyPreviousError(Message(result.error))
    else Response(500, Plain("ERROR"))
  }

  /** A whitespace-only track URI is rejected like a missing one. */
  lemma BlankUriRejected(uri: string)
    requires forall i :: 0 <= i < |uri| ==> IsTrimmed(uri[i])
    ensures SimpleAddToQueue(Some(uri)).Invalid()
  {
    TrimEmptyIffBlank(uri);
  }

  /** The pass-through reads (/player, /devices, /queue). */
  datatype ReadRequest = ReadPlayback | ReadDevices | ReadQueue {
    function Call(): SpotifyApi.ApiCall {
      match this
      case ReadPlayback => SpotifyApi.CurrentPlayback
      case ReadDevices => SpotifyApi.Devices
      case ReadQueue => SpotifyApi.Queue
    }

    function FailureText(): string {
      match this
      case ReadPlayback => "Failed to get playback state"
      case ReadDevices => "Failed to get available devices"
      case ReadQueue => "Failed to get queue"
    }
  }

  /** The response of a pass-through read: the body as received; an empty completion leaves the response without a body. */
  function ReadResponse(req: ReadRequest, authenticated: bool, result: Outcome<string>): (r: Response)
    ensures !authenticated ==> r == Response(401, Plain(NotAuthenticated))
    ensures authenticated ==> (r.status == 200 <==> !result.Fail?)
    ensures authenticated && result.Ok? ==> r.body == Plain(result.value)
    ensures authenticated && result.Fail? ==> r.body == Plain(req.FailureText())
  {
    if !authenticated then Response(401, Plain(NotAuthenticated))
    else match result
      case Ok(body) => Response(200, Plain(body))
      case Empty => Response(200, NoBody)
      case Fail(_) => Response(500, Plain(req.FailureText()))
  }

  // ---------------------------------------------------------------- token previews

  function Min(a: int, b: int): int {
    if a < b then a else b
  }

  /** The status preview: the first 20 characters at most, then "...". */
  function StatusPreview(token: string): (r: string)
    ensures |r| == Min(20, |token|) + 3
    ensures r == token[..Min(20, |token|)] + "..."
  {
    token[..Min(20, |token|)] + "..."
  }

  /** The admin preview: the first 10 and the last 10 characters at most, around "...". */
  function AdminPreview(token: string): (r: string)
    ensures |r| == 2 * Min(10, |token|) + 3
    ensures r == token[..Min(10, |token|)] + "..." + token[|token| - Min(10, |token|)..]
  {
    var n := |token|;
    token[..Min(10, n)] + "..." + token[(if n - 10 < 0 then 0 else n - 10)..]
  }

  /**
   * What the admin preview exposes: from 10 characters up, exactly the first
   * and the last 10; a token of 10 or fewer is shown whole, twice; and up to
   * 20 characters the two shown parts cover the whole token, which can be
   * rebuilt from the preview.
   */
  lemma AdminPreviewExposure(token: string)
    ensures |token| >= 10 ==> AdminPreview(token) == token[..10] + "..." + token[|token| - 10..]
    ensures |token| <= 10 ==> AdminPreview(token) == token + "..." + token
    ensures var n, m, p := |token|, Min(10, |token|), AdminPreview(token);
            n <= 20 ==> token == p[..m] + p[|p| - (n - m)..]
  {
    var n, m, p := |token|, Min(10, |token|), AdminPreview(token);
    if n <= 10 {
      assert token[..n] == token;
      assert token[n - m..] == token;
    }
    if n <= 20 {
      assert p[..m] == token[..m];
      assert p[|p| - (n - m)..] == token[m..];
      assert token == token[..m] + token[m..];
    }
  }

  /** The 10-character preview used to report a token change; "null" when there is no token. */
  function TokenPreview(token: Option<string>): (r: string)
    ensures token.Some? ==> r == token.value[..Min(10, |token.value|)] + "..."
    ensures token.None? ==> r == "null"
  {
    if token.Some? then token.value[..Min(10, |token.value|)] + "..." else "null"
  }

  /** `tokenChanged`: the previews differ. */
  predicate TokenChanged(before: Option<string>, after: Option<string>) {
    TokenPreview(before) != TokenPreview(after)
  }

  /**
   * Two tokens count as changed exactly when their first ten characters
   * differ, so a new token sharing its first ten characters with the old one
   * is reported unchanged; gaining or losing a token always counts.
   */
  lemma TokenChangedIff(a: string, b: string)
    ensures TokenChanged(Some(a), Some(b)) <==> a[..Min(10, |a|)] != b[..Min(10, |b|)]
    ensures TokenChanged(None, Some(b)) && TokenChanged(Some(a), None)
  {
    var x, y := a[..Min(10, |a|)], b[..Min(10, |b|)];
    if x + "..." == y + "..." {
      assert |x| == |y|;
      assert x == (x + "...")[..|x|] == (y + "...")[..|y|] == y;
    }
    var p := TokenPreview(Some(b));
    assert p[|p| - 1] == '.';
    var q := TokenPreview(Some(a));
    assert q[|q| - 1] == '.';
  }

  /** The body of /auth/status. */
  datatype AuthStatusBody = AuthStatusBody(authenticated: bool, hasAccessToken: bool, hasRefreshToken: bool, accessTokenPreview: Option<string>)

  function AuthStatus(t: Tokens): (r: AuthStatusBody)
    ensures r.authenticated == r.hasAccessToken == AccessOf(t, DefaultUser).Some?
    ensures r.hasRefreshToken == RefreshOf(t, DefaultUser).Some?
    ensures r.accessTokenPreview.Some? <==> r.hasAccessToken
    ensures r.accessTokenPreview.Some? ==> r.accessTokenPreview.value == StatusPreview(AccessOf(t, DefaultUser).value)
    ensures Valid(t) && r.hasRefreshToken ==> r.authenticated
  {
    var access := AccessOf(t, DefaultUser);
    AuthStatusBody(access.Some?, access.Some?, RefreshOf(t, DefaultUser).Some?,
                   if access.Some? then Some(StatusPreview(access.value)) else None)
  }

  /** The body of /admin/get-token. */
  datatype AdminTokenBody = AdminTokenBody(hasAccessToken: bool, hasRefreshToken: bool, accessTokenPreview: Option<string>)

  function AdminTokenStatus(t: Tokens): (r: AdminTokenBody)
    ensures r.hasAccessToken == AccessOf(t, DefaultUser).Some?
    ensures r.hasRefreshToken == RefreshOf(t, DefaultUser).Some?
    ensures r.accessTokenPreview.Some? <==> r.hasAccessToken
    ensures r.accessTokenPreview.Some? ==> r.accessTokenPreview.value == AdminPreview(AccessOf(t, DefaultUser).value)
  {
    var access := AccessOf(t, DefaultUser);
    AdminTokenBody(access.Some?, RefreshOf(t, DefaultUser).Some?,
                   if access.Some? then Some(AdminPreview(access.value)) else None)
  }

  /** GET /token: the raw access token, or 401 without one. */
  function AccessTokenResponse(t: Tokens): (r: Response)
    ensures r.status == 200 <==> AccessOf(t, DefaultUser).Some?
    ensures r.status == 200 ==> r.body == Json("access_token", AccessOf(t, DefaultUser).value)
    ensures r.status != 200 ==> r == Response(401, Json("error", "No access token available"))
  {
    match AccessOf(t, DefaultUser)
    case Some(a) => Response(200, Json("access_token", a))
    case None => Response(401, Json("error", "No access token available"))
  }

  /** The report of /admin/simulate-refresh. */
  datatype SimulateReport =
    | NoTokenStored
    | Completed(oldTokenPreview: string, newTokenPreview: string, tokenChanged: bool, hasPlayback: bool)
    | CallFailed(details: Option<string>, oldTokenPreview: string)
    | NoReply

  /** The cached endpoints: 200 with the payload, 204 when there is none. */
  function CachedResponse(cached: Option<string>): (r: Response)
    ensures cached.Some? <==> r.status == 200
    ensures cached.Some? ==> r.body == Plain(cached.value)
    ensures cached.None? ==> r == Response(204, NoBody)
  {
    if cached.Some? then Response(200, Plain(cached.value)) else Response(204, NoBody)
  }

  const SiteUrl := "https://cadebeckers.com/"

  class SpotifyController {
    const api: SpotifyApi.SpotifyApiService
    const cache: StateCache.SpotifyStateCache

    constructor (api: SpotifyApi.SpotifyApiService, cache: StateCache.SpotifyStateCache)
      ensures this.api == api && this.cache == cache
    {
      this.api := api;
      this.cache := cache;
    }

    /**
     * A JSON control endpoint: validate the body, then check authentication,
     * then run the operation with automatic refresh. Neither a 400 nor a 401
     * calls the Web API or changes any state.
     */
    method Control(req: ControlRequest, upstream: SpotifyApi.ApiRequest -> Outcome<string>, endpoint: TokenRequest -> TokenReply)
      returns (resp: Response, ghost invocations: seq<string>)
      modifies api.manager.storage, api.manager.auth
      ensures var t := old(api.manager.storage.State());
              var authenticated := AccessOf(t, DefaultUser).Some?;
              if req.MissingField().Some? || !authenticated then
                && resp == ControlResponse(req, authenticated, Empty)
                && invocations == []
                && api.manager.storage.State() == t
                && api.manager.auth.tokenCache == old(api.manager.auth.tokenCache)
              else
                var run := RetrySpec(t, DefaultUser, SpotifyApi.RawOp(req.Call(), upstream), api.manager.auth.config, endpoint);
                && resp == ControlResponse(req, true, run.result)
                && invocations == run.invocations
                && api.manager.storage.State() == run.tokens
                && api.manager.auth.tokenCache == CacheAfterRetry(old(api.manager.auth.tokenCache), run)
    {
      var missing := req.MissingField();
      if missing.Some? {
        return Response(400, Json("error", missing.value)), [];
      }
      var authenticated := api.manager.IsUserAuthenticated(DefaultUser);
      if !authenticated {
        return Response(401, Json("error", NotAuthenticated)), [];
      }
      var result;
      result, invocations := api.WithAutoRefresh(req.Call(), DefaultUser, upstream, endpoint);
      resp := ControlResponse(req, true, result);
    }

    /** A plain-text /control endpoint. */
    method SimpleControl(req: SimpleRequest, upstream: SpotifyApi.ApiRequest -> Outcome<string>, endpoint: TokenRequest -> TokenReply)
      returns (resp: Response, ghost invocations: seq<string>)
      modifies api.manager.storage, api.manager.auth
      ensures var t := old(api.manager.storage.State());
              var authenticated := AccessOf(t, DefaultUser).Some?;
              if req.Invalid() || !authenticated then
                && resp == SimpleResponse(req, authenticated, Empty)
                && invocations == []
                && api.manager.storage.State() == t
                && api.manager.auth.tokenCache == old(api.manager.auth.tokenCache)
              else
                var run := RetrySpec(t, DefaultUser, SpotifyApi.RawOp(req.Call(), upstream), api.manager.auth.config, endpoint);
                && resp == SimpleResponse(req, true, run.result)
                && invocations == run.invocations
                && api.manager.storage.State() == run.tokens
                && api.manager.auth.tokenCache == CacheAfterRetry(old(api.manager.auth.tokenCache), run)
    {
      if req.Invalid() {
        return Response(400, Plain("Missing trackUri parameter")), [];
      }
      var authenticated := api.manager.IsUserAuthenticated(DefaultUser);
      if !authenticated {
        return Response(401, Plain("Not authenticated")), [];
      }
      var result;
      result, invocations := api.WithAutoRefresh(req.Call(), DefaultUser, upstream, endpoint);
      resp := SimpleResponse(req, true, result);
    }

    /** A pass-through read (/player, /devices, /queue). */
    method Read(req: ReadRequest, upstream: SpotifyApi.ApiRequest -> Outcome<string>, endpoint: TokenRequest -> TokenReply)
      returns (resp: Response, ghost invocations: seq<string>)
      modifies api.manager.storage, api.manager.auth
      ensures var t := old(api.manager.storage.State());
              if AccessOf(t, DefaultUser).None? then
                && resp == ReadResponse(req, false, Empty)
                && invocations == []
                && api.manager.storage.State() == t
                && api.manager.auth.tokenCache == old(api.manager.auth.tokenCache)
              else
                var run := RetrySpec(t, DefaultUser, SpotifyApi.RawOp(req.Call(), upstream), api.manager.auth.config, endpoint);
                && resp == ReadResponse(req, true, run.result)
                && invocations == run.invocations
                && api.manager.storage.State() == run.tokens
                && api.manager.auth.tokenCache == CacheAfterRetry(old(api.manager.auth.tokenCache), run)
    {
      var authenticated := api.manager.IsUserAuthenticated(DefaultUser);
      if !authenticated {
        return Response(401, Plain(NotAuthenticated)), [];
      }
      var result;
      result, invocations := api.WithAutoRefresh(req.Call(), DefaultUser, upstream, endpoint);
      resp := ReadResponse(req, true, result);
    }

    /**
     * POST /admin/set-token: a missing or whitespace-only access token is a
     * 400 and stores nothing; otherwise both tokens are stored for the
     * default user (an absent refresh token keeps the stored one).
     */
    method SetTokenManually(accessToken: Option<string>, refreshToken: Option<string>) returns (resp: Response)
      modifies api.manager.storage
      ensures var blank := accessToken.None? || forall i :: 0 <= i < |accessToken.value| ==> IsTrimmed(accessToken.value[i]);
              && (blank ==> resp == Response(400, Json("error", "Access token is required"))
                            && api.manager.storage.State() == old(api.manager.storage.State()))
              && (!blank ==> resp == Response(200, Json("message", "Tokens set successfully"))
                             && api.manager.storage.State() == Store(old(api.manager.storage.State()), DefaultUser, accessToken.value, refreshToken))
    {
      if accessToken.Some? {
        TrimEmptyIffBlank(accessToken.value);
      }
      if accessToken.None? || Trim(accessToken.value) == [] {
        return Response(400, Json("error", "Access token is required"));
      }
      api.manager.storage.StoreTokens(DefaultUser, accessToken.value, refreshToken);
      resp := Response(200, Json("message", "Tokens set successfully"));
    }

    method GetAuthStatus() returns (body: AuthStatusBody)
      ensures body == AuthStatus(api.manager.storage.State())
    {
      var authenticated := api.manager.IsUserAuthenticated(DefaultUser);
      var access := api.manager.storage.GetAccessToken(DefaultUser);
      var refresh := api.manager.storage.GetRefreshToken(DefaultUser);
      var preview := if access.Some? then Some(StatusPreview(access.value)) else None;
      body := AuthStatusBody(authenticated, access.Some?, refresh.Some?, preview);
    }

    method GetCurrentToken() returns (body: AdminTokenBody)
      ensures body == AdminTokenStatus(api.manager.storage.State())
    {
      var access := api.manager.storage.GetAccessToken(DefaultUser);
      var refresh := api.manager.storage.GetRefreshToken(DefaultUser);
      var preview := if access.Some? then Some(AdminPreview(access.value)) else None;
      body := AdminTokenBody(access.Some?, refresh.Some?, preview);
    }

    method GetAccessToken() returns (resp: Response)
      ensures resp == AccessTokenResponse(api.manager.storage.State())
    {
      var access := api.manager.storage.GetAccessToken(DefaultUser);
      if access.None? {
        return Response(401, Json("error", "No access token available"));
      }
      resp := Response(200, Json("access_token", access.value));
    }

    /**
     * POST /admin/simulate-refresh: probe the playback state with automatic
     * refresh and compare the token previews before and after. Since an empty
     * reply completes empty, `hasPlayback` is true whenever a report is made,
     * and a probe that needed no refresh reports no token change.
     */
    method SimulateTokenRefresh(upstream: SpotifyApi.ApiRequest -> Outcome<string>, endpoint: TokenRequest -> TokenReply)
      returns (report: SimulateReport, ghost invocations: seq<string>)
      modifies api.manager.storage, api.manager.auth
      ensures var t := old(api.manager.storage.State());
              if AccessOf(t, DefaultUser).None? then
                report == NoTokenStored && invocations == [] && api.manager.storage.State() == t
                && api.manager.auth.tokenCache == old(api.manager.auth.tokenCache)
              else
                var run := RetrySpec(t, DefaultUser, SpotifyApi.RawOp(SpotifyApi.CurrentPlayback, upstream), api.manager.auth.config, endpoint);
                var before := TokenPreview(AccessOf(t, DefaultUser));
                && invocations == run.invocations
                && api.manager.storage.State() == run.tokens
                && api.manager.auth.tokenCache == CacheAfterRetry(old(api.manager.auth.tokenCache), run)
                && (run.result.Ok? ==>
                      && report.Completed? && report.hasPlayback
                      && report.oldTokenPreview == before
                      && report.newTokenPreview == TokenPreview(AccessOf(run.tokens, DefaultUser))
                      && (report.tokenChanged <==> TokenChanged(AccessOf(t, DefaultUser), AccessOf(run.tokens, DefaultUser)))
                      && (run.refresh.None? ==> !report.tokenChanged))
                && (run.result.Empty? ==> report == NoReply)
                && (run.result.Fail? ==> report == CallFailed(Message(run.result.error), before))
    {
      var hasToken := api.manager.storage.HasToken(DefaultUser);
      if !hasToken {
        return NoTokenStored, [];
      }
      var oldToken := api.manager.storage.GetAccessToken(DefaultUser);
      var oldTokenPreview := TokenPreview(oldToken);
      ghost var t := api.manager.storage.State();
      var result;
      result, invocations := api.WithAutoRefresh(SpotifyApi.CurrentPlayback, DefaultUser, upstream, endpoint);
      SpotifyApi.RetryValuesCarryBody(t, DefaultUser, SpotifyApi.CurrentPlayback, upstream, api.manager.auth.config, endpoint);
      match result
      case Ok(playbackState) =>
        var newToken := api.manager.storage.GetAccessToken(DefaultUser);
        var newTokenPreview := TokenPreview(newToken);
        report := Completed(oldTokenPreview, newTokenPreview, oldTokenPreview != newTokenPreview, playbackState != "");
      case Empty =>
        report := NoReply;
      case Fail(e) =>
        report := CallFailed(Message(e), oldTokenPreview);
    }

    /**
     * GET /api/spotify/callback: exchange the code; a granted reply stores the
     * default user's tokens (an absent refresh token keeps the stored one)
     * and redirects to the site, any failure redirects with "auth_failed".
     */
    method HandleOAuthCallback(code: string, endpoint: TokenRequest -> TokenReply) returns (r: Redirect)
      modifies api.manager.storage, api.manager.auth
      ensures var reply := endpoint(Request(api.manager.auth.config, CodeExchangeForm(code, api.manager.auth.config.redirectUri)));
              && api.manager.auth.tokenCache == CacheAfter(old(api.manager.auth.tokenCache), UserTokenKey, reply)
              && (reply.Granted? ==>
                    && r == Redirect(Found, SiteUrl)
                    && api.manager.storage.State() == Store(old(api.manager.storage.State()), DefaultUser, reply.response.accessToken, reply.response.refreshToken))
              && (reply.Rejected? ==>
                    && r == Redirect(Found, SiteUrl + "?error=auth_failed")
                    && api.manager.storage.State() == old(api.manager.storage.State()))
    {
      var reply := api.manager.auth.ExchangeCodeForToken(code, endpoint);
      match reply
      case Granted(resp) =>
        api.manager.storage.StoreTokensWithExpiry(DefaultUser, resp.accessToken, resp.refreshToken, resp.expiresIn);
        r := Redirect(Found, SiteUrl);
      case Rejected(_) =>
        r := Redirect(Found, SiteUrl + "?error=auth_failed");
    }

    /** GET /cached/playback: the cache always holds a string, so the answer is always 200 with it. */
    method GetCachedPlayback() returns (resp: Response)
      ensures resp == Response(200, Plain(cache.PlaybackSlot().payload))
    {
      var cached := cache.GetCachedPlaybackState();
      resp := CachedResponse(Some(cached));
    }

    /** GET /cached/queue: likewise always 200. */
    method GetCachedQueue() returns (resp: Response)
      ensures resp == Response(200, Plain(cache.QueueSlot().payload))
    {
      var cached := cache.GetCachedQueueState();
      resp := CachedResponse(Some(cached));
    }
  }
}
