# music-player core, modelled in Dafny

This project models the core of the music-player backend (a Spring WebFlux
service in front of the Spotify Web API) and two small functions of its React
UI, and proves properties of that model.

- **Token store** (`token_storage.dfy`): the two per-user maps, access token
  and refresh token. The value-level effects `Store` and `Remove` are proved
  to touch only their own user and to keep the invariant "every user with a
  refresh token also has an access token". The class `TokenStorageService`
  is proved to act as those functions say.
- **Token lifecycle** (`token_management.dfy`): the operations are first
  defined on store values. `RefreshSpec` refreshes one user. `RetrySpec` runs
  an operation, and on an HTTP 401 refreshes once and retries once.
  `SweepSpec` refreshes every user with a token. The class
  `TokenManagerService` is proved against these functions, including the
  ghost trace of the tokens each operation was called with. The sweep is
  proved to treat every user independently and to give the same store in
  any visiting order.
- **OAuth client** (`spotify_auth.dfy`):
  - the authorisation URL, proved equal to the query of section 4.1.1 of
    RFC 6749 with values inserted verbatim;
  - the token-endpoint forms (sections 4.1.3, 4.4.2 and 6 of RFC 6749);
  - the Basic credential string of section 2 of RFC 7617, with its
    round trip;
  - the token-reply cache.
- **Web API facade** (`spotify_api.dfy`): the request each player operation
  sends, the volume clamp and the search-limit cap (both read back from the
  query), how replies complete (an empty body completes empty), and the
  auto-refresh wrappers, which delegate to the retry.
- **Diff-gated state cache** (`state_cache.dfy`): the playback and queue
  slots, the poll ticks, a ghost log of broadcasts, and freshness.
- **Controllers and handlers** (`controllers.dfy`, `callback.dfy`,
  `exceptions.dfy`):
  - validation before the authentication guard;
  - error classification;
  - token previews and `tokenChanged`;
  - manual token entry;
  - the OAuth redirects;
  - the exception-to-response mapping.
- **UI helpers** (`album_art.dfy`, `player_controls.dfy`): album-art
  selection, and the `m:ss` time formatter with a read-back lemma.

The Web API and the token endpoint are oracle parameters. `upstream` maps a
request to an outcome. `endpoint` maps a token request to a reply. An
operation `op` maps the access token it is given to an outcome. Outcomes
follow a reactive `Mono`: a value (`Ok`), an empty completion (`Empty`), or
an error (`Fail`). The clock is the parameter `now`.

A failed refresh during the periodic sweep removes that user's tokens. The
sweep calls `refreshTokenForUser`, whose error handler removes both tokens
(src/main/java/com/example/music_player/service/TokenManagerService.java:82-86).
`TokenManagement.SweepTwoUsers` proves this: the rejected user ends with no
tokens.

## Model

| member | source | states |
|---|---|---|
| TokenStorage.Store | src/main/java/com/example/music_player/service/TokenStorageService.java:17-22 | the access token is always set to the given one; the refresh token is set only when one is given, otherwise the previous one stays; every other user's entry is unchanged; the refresh-implies-access invariant is preserved |
| TokenStorage.Remove | src/main/java/com/example/music_player/service/TokenStorageService.java:41-44 | afterwards the user has neither token; every other user's entry is unchanged; the invariant is preserved |
| TokenStorage.EntriesDetermineTokens | src/main/java/com/example/music_player/service/TokenStorageService.java:14-15 | two stores in which every user sees the same pair of tokens are the same store |
| TokenStorage.TokenStorageService.constructor | src/main/java/com/example/music_player/service/TokenStorageService.java:14-15 | both maps start empty, so the invariant holds |
| TokenStorage.TokenStorageService.StoreTokens | src/main/java/com/example/music_player/service/TokenStorageService.java:17-22 | the new store is `Store` of the old one |
| TokenStorage.TokenStorageService.StoreTokensWithExpiry | src/main/java/com/example/music_player/service/TokenStorageService.java:24-27 | exactly the effect of the three-argument overload; the expiry is ignored |
| TokenStorage.TokenStorageService.GetAccessToken | src/main/java/com/example/music_player/service/TokenStorageService.java:29-31 | the stored access token if there is one, none otherwise |
| TokenStorage.TokenStorageService.GetRefreshToken | src/main/java/com/example/music_player/service/TokenStorageService.java:33-35 | the stored refresh token if there is one, none otherwise |
| TokenStorage.TokenStorageService.HasToken | src/main/java/com/example/music_player/service/TokenStorageService.java:37-39 | true exactly when an access token is stored; a refresh token alone does not count |
| TokenStorage.TokenStorageService.RemoveTokens | src/main/java/com/example/music_player/service/TokenStorageService.java:41-44 | the new store is `Remove` of the old one |
| TokenStorage.TokenStorageService.GetAllActiveUserIds | src/main/java/com/example/music_player/service/TokenStorageService.java:49-51 | the returned set is exactly the users with an access token |
| Text.Contains | src/main/java/com/example/music_player/controller/SpotifyController.java:634-637 | `String.contains`: true exactly when the substring occurs at some position |
| Text.Trim | src/main/java/com/example/music_player/controller/SpotifyController.java:170 | no contract of its own; see `Text.TrimEmptyIffBlank` (`trim()` is empty exactly when every character is at or below U+0020) |
| Text.IntToString | src/main/java/com/example/music_player/controller/SpotifyController.java:448 | the decimal text of an integer, with a leading '-' exactly for negatives; `Text.ParseIntToString` reads it back |
| Text.TrimEmptyIffBlank | src/main/java/com/example/music_player/controller/SpotifyController.java:170 | `trim().isEmpty()` holds exactly when every character is at or below U+0020 |
| SpotifyAuth.EncodeSpaces | src/main/java/com/example/music_player/service/SpotifyAuthService.java:106 | the result has no space, and decoding "%20" restores any input without '%' |
| SpotifyAuth.AuthorizationUrl | src/main/java/com/example/music_player/service/SpotifyAuthService.java:100-108 | no contract of its own; see `SpotifyAuth.AuthorizationUrlIsQuery` (the URL is the section 4.1.1 query with values verbatim) and `SpotifyAuth.ScopeEncoding` |
| SpotifyAuth.AuthorizationUrlIsQuery | src/main/java/com/example/music_player/service/SpotifyAuthService.java:100-108 | the URL is the authorize URL, "?", then response_type, client_id, scope, redirect_uri and state in that order (section 4.1.1 of RFC 6749); client id, redirect URI and state are inserted verbatim |
| SpotifyAuth.ScopeEncoding | src/main/java/com/example/music_player/service/SpotifyAuthService.java:101-106 | the scope value sent has no space, and decoding it gives the three configured scopes back |
| SpotifyAuth.CodeExchangeForm | src/main/java/com/example/music_player/service/SpotifyAuthService.java:56-59 | the fields are grant_type=authorization_code, code and redirect_uri, in that order (section 4.1.3 of RFC 6749) |
| SpotifyAuth.RefreshForm | src/main/java/com/example/music_player/service/SpotifyAuthService.java:79-81 | the fields are grant_type=refresh_token and refresh_token (section 6 of RFC 6749) |
| SpotifyAuth.ClientCredentialsForm | src/main/java/com/example/music_player/service/SpotifyAuthService.java:130-134 | the only field is grant_type=client_credentials (section 4.4.2 of RFC 6749) |
| SpotifyAuth.BasicCredentials | src/main/java/com/example/music_player/service/SpotifyAuthService.java:125-126 | no contract of its own; see `SpotifyAuth.BasicCredentialsRoundTrip` (id and secret split back out of `id:secret`) |
| SpotifyAuth.BasicCredentialsRoundTrip | src/main/java/com/example/music_player/service/SpotifyAuthService.java:125-126 | splitting `clientId:clientSecret` at the first colon gives back the id and the secret when the id has no colon (section 2 of RFC 7617) |
| SpotifyAuth.SpotifyAuthService.constructor | src/main/java/com/example/music_player/service/SpotifyAuthService.java:26-31 | the token cache starts empty |
| SpotifyAuth.SpotifyAuthService.GetClientCredentialsToken | src/main/java/com/example/music_player/service/SpotifyAuthService.java:36-50 | one client-credentials request; a granted reply yields its access token and is cached under "client_credentials"; a rejection passes on its error and leaves the cache alone |
| SpotifyAuth.SpotifyAuthService.ExchangeCodeForToken | src/main/java/com/example/music_player/service/SpotifyAuthService.java:55-73 | the reply to the code-exchange request; a granted reply is cached under "user_token" |
| SpotifyAuth.SpotifyAuthService.RefreshToken | src/main/java/com/example/music_player/service/SpotifyAuthService.java:78-95 | the reply to the refresh request; a granted reply is cached under "user_token" |
| SpotifyAuth.SpotifyAuthService.GetCachedUserToken | src/main/java/com/example/music_player/service/SpotifyAuthService.java:114-116 | the reply cached under "user_token", if any |
| SpotifyAuth.SpotifyAuthService.ClearTokenCache | src/main/java/com/example/music_player/service/SpotifyAuthService.java:121-123 | the cache is empty afterwards |
| TokenManagement.RefreshSpec | src/main/java/com/example/music_player/service/TokenManagerService.java:63-87 | only the refreshed user's entry can change; the invariant is preserved; at most one token request is sent, exactly when the provider replies; the outcome is a value or an error, never empty |
| TokenManagement.RefreshWithoutRefreshToken | src/main/java/com/example/music_player/service/TokenManagerService.java:64-69 | without a refresh token: fails with "No refresh token available", sends nothing and leaves the store unchanged |
| TokenManagement.RefreshWithRefreshToken | src/main/java/com/example/music_player/service/TokenManagerService.java:71-86 | exactly one refresh grant is sent with the stored token; if granted, the new access token is stored and returned and the refresh token is the reply's or else the old one; if rejected, both tokens are removed and the error is returned |
| TokenManagement.RefreshTokenSurvivesOmission | src/main/java/com/example/music_player/service/TokenManagerService.java:76 | after a reply without a refresh token, the next refresh sends the same refresh token again |
| TokenManagement.RefreshDependsOnOwnEntry | src/main/java/com/example/music_player/service/TokenManagerService.java:63-87 | outcome, requests and the user's new entry depend only on that user's old entry |
| Upstream.Message | src/main/java/com/example/music_player/controller/SpotifyController.java:633 | no contract of its own; see `Controllers.ClassifyPreviousError` (a null message is 500 ERROR) and `Controllers.SpotifyController.SimulateTokenRefresh` |
| Upstream.IsUnauthorized | src/main/java/com/example/music_player/service/TokenManagerService.java:47 | no contract of its own; see `TokenManagement.RetryAfterUnauthorized` and `TokenManagement.RetryFirstAttemptFinal` (only an HTTP 401 triggers the refresh) |
| TokenManagement.RetrySpec | src/main/java/com/example/music_player/service/TokenManagerService.java:38-58 | the operation is called at most twice; without a refresh the store is unchanged; with one the store is the refresh's; the invariant is preserved |
| TokenManagement.RetryWithoutAccessToken | src/main/java/com/example/music_player/service/TokenManagerService.java:39-42 | without an access token: fails with "No access token available", no call and no refresh |
| TokenManagement.RetryFirstAttemptFinal | src/main/java/com/example/music_player/service/TokenManagerService.java:44-57 | a first outcome other than a 401 (success, empty, or another error) is returned unchanged after one call; no refresh and the store is untouched |
| TokenManagement.RetryAfterUnauthorized | src/main/java/com/example/music_player/service/TokenManagerService.java:45-53 | a 401 triggers exactly one refresh; if it yields a token, exactly one more call with that token, whose outcome is final; otherwise the refresh error with no second call |
| TokenManagement.RetryAlwaysUnauthorized | src/main/java/com/example/music_player/service/TokenManagerService.java:44-53 | when every call answers 401 and the refresh succeeds: one refresh, two calls, and the final outcome is the 401 |
| TokenManagement.SweepSpec | src/main/java/com/example/music_player/service/TokenManagerService.java:112-130 | no contract of its own; see `TokenManagement.SweepPerUser` (each visited user's entry is its own refresh) and `TokenManagement.SweepOrderIrrelevant` |
| TokenManagement.SweepPerUser | src/main/java/com/example/music_player/service/TokenManagerService.java:104-130 | after the sweep every visited user's entry is what that user's own refresh gives (a failure removes its tokens) and every other user is untouched |
| TokenManagement.SweepOrderIrrelevant | src/main/java/com/example/music_player/service/TokenManagerService.java:112-130 | any two visiting orders of the same users give the same store |
| TokenManagement.SweepTwoUsers | src/main/java/com/example/music_player/service/TokenManagerService.java:104-130 | with one granted and one rejected refresh, the first user holds the new access token, the second has none, in either order |
| TokenManagement.TokenManagerService.constructor | src/main/java/com/example/music_player/service/TokenManagerService.java:15-21 | keeps the injected store and OAuth client |
| TokenManagement.TokenManagerService.GetAccessToken | src/main/java/com/example/music_player/service/TokenManagerService.java:26-33 | the stored token, or an empty result without one; no refresh |
| TokenManagement.TokenManagerService.IsUserAuthenticated | src/main/java/com/example/music_player/service/TokenManagerService.java:92-94 | exactly `hasToken` |
| TokenManagement.TokenManagerService.RefreshTokenForUser | src/main/java/com/example/music_player/service/TokenManagerService.java:63-87 | outcome, requests sent and new store are those of `RefreshSpec`; the OAuth client caches the reply |
| TokenManagement.TokenManagerService.RetryWithTokenRefresh | src/main/java/com/example/music_player/service/TokenManagerService.java:38-58 | outcome, the tokens the operation was called with, and the new store are those of `RetrySpec` |
| TokenManagement.TokenManagerService.RefreshAllActiveTokens | src/main/java/com/example/music_player/service/TokenManagerService.java:101-133 | visits each user holding an access token exactly once; the new store is `SweepSpec` over that order; with no users nothing changes |
| SpotifyApi.VolumePercent | src/main/java/com/example/music_player/service/SpotifyApiService.java:187 | the result is in [0,100]; an in-range volume is unchanged; below 0 gives 0 and above 100 gives 100 |
| SpotifyApi.VolumeSent | src/main/java/com/example/music_player/service/SpotifyApiService.java:183-188 | the volume_percent a server reads from the request is the clamped volume, so it lies in [0,100] |
| SpotifyApi.SearchLimit | src/main/java/com/example/music_player/service/SpotifyApiService.java:47 | at most 50; any limit up to 50, negative ones included, is unchanged |
| SpotifyApi.SearchRequest | src/main/java/com/example/music_player/service/SpotifyApiService.java:42-50 | no contract of its own; see `SpotifyApi.SearchLimitSent` (the limit read back is min(limit, 50)) |
| SpotifyApi.SearchLimitSent | src/main/java/com/example/music_player/service/SpotifyApiService.java:43-48 | the limit a server reads from the search request is min(limit, 50) |
| SpotifyApi.SearchItems | src/main/java/com/example/music_player/service/SpotifyApiService.java:52-57 | the empty list when `tracks` or `items` is missing, the items otherwise |
| SpotifyApi.CallRequest | src/main/java/com/example/music_player/service/SpotifyApiService.java:81-253 | every request carries "Bearer " + the token; only the three reads use GET; only play and transfer send a JSON body |
| SpotifyApi.Complete | src/main/java/com/example/music_player/service/SpotifyApiService.java:86-144 | errors pass through unchanged; a value comes out only from a body operation with a non-empty body, and it is that body |
| SpotifyApi.RawOp | src/main/java/com/example/music_player/service/SpotifyApiService.java:81-253 | no contract of its own; see `SpotifyApi.AutoRefreshResendsWithNewToken` (a retry re-sends the same request with the new bearer token) and `SpotifyApi.RetryValuesCarryBody` |
| SpotifyApi.AutoRefreshResendsWithNewToken | src/main/java/com/example/music_player/service/SpotifyApiService.java:260-264 | after a 401 and a successful refresh, the same operation is sent again with the new bearer token, and its reply is the result |
| SpotifyApi.RetryValuesCarryBody | src/main/java/com/example/music_player/service/SpotifyApiService.java:287-291 | through the retry, only a body operation yields a value, and never the empty string |
| SpotifyApi.SpotifyApiService.constructor | src/main/java/com/example/music_player/service/SpotifyApiService.java:28-34 | keeps the injected OAuth client and coordinator |
| SpotifyApi.SpotifyApiService.SearchTracks | src/main/java/com/example/music_player/service/SpotifyApiService.java:39-60 | a client-credentials token, then one search with the capped limit; the result is the reply's items or the empty list; a reply without a body fails, because the success hook calls `size()` on null; a token failure is passed on |
| SpotifyApi.SpotifyApiService.WithAutoRefresh | src/main/java/com/example/music_player/service/SpotifyApiService.java:260-354 | each auto-refresh operation is `RetrySpec` of the same user with the matching raw operation and its own arguments |
| StateCache.Absorb | src/main/java/com/example/music_player/service/SpotifyStateCache.java:46-61 | a broadcast happens exactly when a value different from the cached payload arrives; then the slot becomes (value, now) and the broadcast carries that value; otherwise the slot is unchanged |
| StateCache.AbsorbSameTwice | src/main/java/com/example/music_player/service/SpotifyStateCache.java:47-50 | a second identical fetch changes nothing and broadcasts nothing |
| StateCache.NeverRevertsToEmpty | src/main/java/com/example/music_player/service/SpotifyStateCache.java:45-51 | once a slot holds a payload it never goes back to "" |
| StateCache.BroadcastsAlternate | src/main/java/com/example/music_player/service/SpotifyStateCache.java:46-58 | over any series of fetches, the first broadcast differs from the initial payload, each differs from the one before, and the slot ends with the last one |
| StateCache.Fresh | src/main/java/com/example/music_player/service/SpotifyStateCache.java:131-135 | no contract of its own; see `StateCache.FreshnessFollowsChanges` and `StateCache.SpotifyStateCache.IsCacheFresh` |
| StateCache.FreshnessFollowsChanges | src/main/java/com/example/music_player/service/SpotifyStateCache.java:131-135 | a change makes the cache fresh for exactly 30 000 ms; an unchanged poll does not renew freshness |
| StateCache.SpotifyStateCache.constructor | src/main/java/com/example/music_player/service/SpotifyStateCache.java:20-23 | both payloads are "" and both timestamps 0; no broadcast yet |
| StateCache.SpotifyStateCache.UpdatePlaybackCache | src/main/java/com/example/music_player/service/SpotifyStateCache.java:38-66 | without a token nothing is fetched and nothing changes; otherwise the playback slot and the log follow `Absorb` of the auto-refreshed fetch; the queue slot is never touched |
| StateCache.SpotifyStateCache.UpdateQueueCache | src/main/java/com/example/music_player/service/SpotifyStateCache.java:72-98 | the same for the queue slot; the playback slot is never touched |
| StateCache.SpotifyStateCache.GetCachedPlaybackState | src/main/java/com/example/music_player/service/SpotifyStateCache.java:103-105 | the stored playback payload, with no upstream call |
| StateCache.SpotifyStateCache.GetCachedQueueState | src/main/java/com/example/music_player/service/SpotifyStateCache.java:110-112 | the stored queue payload, with no upstream call |
| StateCache.SpotifyStateCache.GetLastPlaybackUpdate | src/main/java/com/example/music_player/service/SpotifyStateCache.java:117-119 | the stored playback timestamp |
| StateCache.SpotifyStateCache.GetLastQueueUpdate | src/main/java/com/example/music_player/service/SpotifyStateCache.java:124-126 | the stored queue timestamp |
| StateCache.SpotifyStateCache.IsCacheFresh | src/main/java/com/example/music_player/service/SpotifyStateCache.java:131-135 | true exactly when now minus the playback timestamp is below 30 000; the queue timestamp plays no part |
| Controllers.ControlRequest.MissingField | src/main/java/com/example/music_player/controller/SpotifyController.java:330-559 | no contract of its own; see `Controllers.ControlResponse` (a missing field is a 400 with this message, before the authentication check) |
| Controllers.ControlRequest.SuccessMessage | src/main/java/com/example/music_player/controller/SpotifyController.java:330-559 | no contract of its own; see `Controllers.ControlResponse` (the 200 body) and `Controllers.VolumeReportedUnclamped` |
| Controllers.ControlRequest.FailureMessage | src/main/java/com/example/music_player/controller/SpotifyController.java:330-559 | no contract of its own; see `Controllers.ControlResponse` (the 500 body) |
| Controllers.ControlResponse | src/main/java/com/example/music_player/controller/SpotifyController.java:330-559 | a missing body field gives 400 whatever the authentication state; then no token gives 401; then 200 with the success message exactly when the operation did not fail, else 500 |
| Controllers.VolumeReportedUnclamped | src/main/java/com/example/music_player/controller/SpotifyController.java:445-448 | above 100 the success message names the requested volume while 100 is sent |
| Controllers.ClassifyPreviousError | src/main/java/com/example/music_player/controller/SpotifyController.java:630-644 | 200 exactly when the message contains "403" or "404"; "403" gives FORBIDDEN and wins over "404" (NO_PREVIOUS); anything else, a null message included, is 500 ERROR |
| Controllers.SimpleResponse | src/main/java/com/example/music_player/controller/SpotifyController.java:567-694 | a blank or missing track URI is 400; then 401 "Not authenticated"; then "OK" unless the operation failed; a failure is classified for previous-track and is 500 "ERROR" otherwise |
| Controllers.BlankUriRejected | src/main/java/com/example/music_player/controller/SpotifyController.java:678-681 | a whitespace-only track URI is rejected |
| Controllers.ReadResponse | src/main/java/com/example/music_player/controller/SpotifyController.java:393-496 | 401 without a token; otherwise 200 exactly when the fetch did not fail, with the body as received; 500 with the endpoint's failure text |
| Controllers.StatusPreview | src/main/java/com/example/music_player/controller/SpotifyController.java:151-153 | the first min(20, length) characters, then "..." |
| Controllers.AdminPreview | src/main/java/com/example/music_player/controller/SpotifyController.java:195-199 | the first min(10, length) characters, "...", then the last min(10, length); the length is 2·min(10, length) + 3 |
| Controllers.AdminPreviewExposure | src/main/java/com/example/music_player/controller/SpotifyController.java:195-199 | from 10 characters up, exactly the first and last 10 are shown; a token of 10 or fewer is shown whole, twice; up to 20 characters the whole token can be rebuilt from the preview |
| Controllers.TokenPreview | src/main/java/com/example/music_player/controller/SpotifyController.java:295-306 | the first min(10, length) characters then "...", or "null" without a token |
| Controllers.TokenChanged | src/main/java/com/example/music_player/controller/SpotifyController.java:313 | no contract of its own; see `Controllers.TokenChangedIff` (changed exactly when the first 10 characters differ, or a token is gained or lost) |
| Controllers.TokenChangedIff | src/main/java/com/example/music_player/controller/SpotifyController.java:296-313 | two tokens count as changed exactly when their first 10 characters differ; gaining or losing a token always counts |
| Controllers.AuthStatus | src/main/java/com/example/music_player/controller/SpotifyController.java:141-158 | authenticated equals hasAccessToken; the preview is present exactly when an access token is; hasRefreshToken implies authenticated on a valid store |
| Controllers.AdminTokenStatus | src/main/java/com/example/music_player/controller/SpotifyController.java:186-204 | the flags mirror the store and the masked preview is present exactly with an access token |
| Controllers.AccessTokenResponse | src/main/java/com/example/music_player/controller/SpotifyController.java:210-219 | 200 with the raw token exactly when one is stored, else 401 "No access token available" |
| Controllers.CachedResponse | src/main/java/com/example/music_player/controller/SpotifyController.java:783-790 | 200 with the payload when there is one, 204 otherwise |
| Controllers.SpotifyController.constructor | src/main/java/com/example/music_player/controller/SpotifyController.java:39-48 | keeps the injected services |
| Controllers.SpotifyController.Control | src/main/java/com/example/music_player/controller/SpotifyController.java:330-559 | a 400 or 401 calls nothing and changes nothing; otherwise the response is `ControlResponse` of the auto-refreshed operation and the store is the retry's |
| Controllers.SpotifyController.SimpleControl | src/main/java/com/example/music_player/controller/SpotifyController.java:567-694 | the same for the plain-text /control endpoints with `SimpleResponse` |
| Controllers.SpotifyController.Read | src/main/java/com/example/music_player/controller/SpotifyController.java:393-496 | the same for the pass-through reads with `ReadResponse` |
| Controllers.SpotifyController.SetTokenManually | src/main/java/com/example/music_player/controller/SpotifyController.java:163-180 | a missing or whitespace-only access token gives 400 and stores nothing; otherwise both tokens are stored for the default user |
| Controllers.SpotifyController.GetAuthStatus | src/main/java/com/example/music_player/controller/SpotifyController.java:141-158 | the body is `AuthStatus` of the store |
| Controllers.SpotifyController.GetCurrentToken | src/main/java/com/example/music_player/controller/SpotifyController.java:185-204 | the body is `AdminTokenStatus` of the store |
| Controllers.SpotifyController.GetAccessToken | src/main/java/com/example/music_player/controller/SpotifyController.java:209-219 | the response is `AccessTokenResponse` of the store |
| Controllers.SpotifyController.SimulateTokenRefresh | src/main/java/com/example/music_player/controller/SpotifyController.java:286-325 | without a token nothing is called; a successful probe always reports hasPlayback; tokenChanged is `TokenChanged` of the stored token before and after; with no refresh it is false |
| Controllers.SpotifyController.HandleOAuthCallback | src/main/java/com/example/music_player/controller/SpotifyController.java:110-135 | a granted code exchange stores the reply's tokens for the default user and redirects to the site; a failure redirects with error=auth_failed and stores nothing |
| Controllers.SpotifyController.GetCachedPlayback | src/main/java/com/example/music_player/controller/SpotifyController.java:781-791 | always 200 with the cached playback payload; the 204 branch cannot be reached |
| Controllers.SpotifyController.GetCachedQueue | src/main/java/com/example/music_player/controller/SpotifyController.java:796-806 | always 200 with the cached queue payload |
| Callback.HandleCallback | src/main/java/com/example/music_player/controller/CallbackController.java:17-42 | every branch is a 302; an error parameter wins and is appended verbatim; with a code and a state the location is the API callback with both inserted verbatim; a missing code or state gives error=missing_params |
| Callback.ForwardRoundTrip | src/main/java/com/example/music_player/controller/CallbackController.java:29-35 | the forwarded location gives back the code and the state when the code has no '&' |
| Callback.ErrorRedirectsCanCoincide | src/main/java/com/example/music_player/controller/CallbackController.java:22-41 | a provider error named "missing_params" redirects exactly like missing parameters |
| Exceptions.FromMessage | src/main/java/com/example/music_player/exception/SpotifyApiException.java:8-12 | status 500 and error code "SPOTIFY_API_ERROR" |
| Exceptions.FromStatus | src/main/java/com/example/music_player/exception/SpotifyApiException.java:14-18 | the given status and "SPOTIFY_API_ERROR" |
| Exceptions.FromCode | src/main/java/com/example/music_player/exception/SpotifyApiException.java:20-24 | the given status and error code |
| Exceptions.FromCause | src/main/java/com/example/music_player/exception/SpotifyApiException.java:26-30 | status 500, "SPOTIFY_API_ERROR" and the cause kept |
| Exceptions.SpotifyErrorMessage | src/main/java/com/example/music_player/exception/GlobalExceptionHandler.java:78-89 | 400 gives "Invalid request to Spotify API: " + the reply body; codes other than 400, 401, 403, 404 and 429 give "Spotify API error: " + the message |
| Exceptions.Handle | src/main/java/com/example/music_player/exception/GlobalExceptionHandler.java:21-76 | path is always "/api/spotify"; an application exception keeps its status and error code; an API error reply keeps its status with "EXTERNAL_API_ERROR"; a bad argument is 400 "INVALID_ARGUMENT"; anything else is 500 with a fixed message |
| Exceptions.DefaultsReachClient | src/main/java/com/example/music_player/exception/GlobalExceptionHandler.java:21-33 | an exception built with the defaults reaches the client as 500 "SPOTIFY_API_ERROR" with its message, with or without a cause |
| Exceptions.UnexpectedHidesDetails | src/main/java/com/example/music_player/exception/GlobalExceptionHandler.java:64-76 | every unexpected exception gets the same response, whatever its details |
| Exceptions.WebClientMessageSources | src/main/java/com/example/music_player/exception/GlobalExceptionHandler.java:78-89 | for 401, 403, 404 and 429 neither the message nor the body shows; for 400 only the body; otherwise only the message |
| AlbumArt.FindMedium | src/frontend/music-player/src/components/shared/types.ts:55 | the index of the first image with height in [250,350], or none when no image qualifies |
| AlbumArt.GetAlbumArtUrl | src/frontend/music-player/src/components/shared/types.ts:51-60 | a missing or empty list gives null; any result is the URL of an image of the list |
| AlbumArt.PrefersFirstMedium | src/frontend/music-player/src/components/shared/types.ts:55-56 | the URL of the first medium image, when there is one |
| AlbumArt.FallsBackToFirst | src/frontend/music-player/src/components/shared/types.ts:59 | with no medium image, the first image's URL, or null when it is empty |
| AlbumArt.MediumEmptyUrlReturned | src/frontend/music-player/src/components/shared/types.ts:55-59 | a medium image with an empty URL is returned as "" rather than null |
| PlayerControls.Minutes | src/frontend/music-player/src/SpotifyPlayerControls.tsx:86 | `Math.floor(ms / 60000)`: the largest m with m·60000 ≤ ms, for either sign |
| PlayerControls.FormatTime | src/frontend/music-player/src/SpotifyPlayerControls.tsx:85-89 | no contract of its own; see `PlayerControls.FormatTimeReadsBack` (the text reads back as minutes and seconds) and `PlayerControls.DisplayBracketsTime` |
| PlayerControls.JsRemainder | src/frontend/music-player/src/SpotifyPlayerControls.tsx:87 | JavaScript's `%`: the remainder takes the dividend's sign and has the magnitude of the dividend's magnitude modulo the divisor |
| PlayerControls.Seconds | src/frontend/music-player/src/SpotifyPlayerControls.tsx:87 | in [0,59] for a non-negative count, and never below -60 |
| PlayerControls.DisplayBracketsTime | src/frontend/music-player/src/SpotifyPlayerControls.tsx:85-89 | minutes·60000 + seconds·1000 ≤ ms < that + 1000 for ms ≥ 0 |
| PlayerControls.SecondsField | src/frontend/music-player/src/SpotifyPlayerControls.tsx:88 | the padded seconds are exactly two digits that read back as the seconds |
| PlayerControls.FormatTimeReadsBack | src/frontend/music-player/src/SpotifyPlayerControls.tsx:85-89 | for ms ≥ 0 the text is a minutes numeral, one colon and two digits, and reading them back gives ms div 60000 and the seconds |

## Left out

- HTTP transport and reactive plumbing are not modelled: WebClient requests, `Mono` composition and `subscribe`. Upstream calls are oracle parameters, and each request, tick and sweep is one sequential method call.
- Scheduling and concurrency are not modelled: the `@Scheduled` rates, the 30 s `timeout` on each sweep refresh, the asynchronous completion of sweep refreshes, and the thread safety of `ConcurrentHashMap` and `AtomicReference`.
- The sweep visits a snapshot of the active users. In the source, the loop iterates the live key set while refreshes complete asynchronously.
- Clocks are not read: `System.currentTimeMillis` is the parameter `now`. The `LocalDateTime` timestamp of error responses is omitted.
- The `UUID` state generation of `/auth/login` and `/login` is not modelled, so those two endpoints are left out. `SpotifyAuth.AuthorizationUrl` covers the URL they return.
- Base64 encoding of the client credentials is a library call. Only the `id:secret` string is modelled.
- WebSocket messaging is reduced to the ghost log of playback and queue updates. Not modelled: the control-action broadcasts and the playback re-broadcast of the /control pause, next and resume endpoints, and the test broadcast.
- Controllers.SpotifyController.SimpleControl: the playback re-broadcast of /control pause, next and resume fetches the playback state with automatic refresh after the response is sent (src/main/java/com/example/music_player/controller/SpotifyController.java:753-764). That fetch can refresh or remove the stored tokens, so the contract's final token store holds only until it runs.
- The token endpoint always answers with a token reply or an error. An empty 2xx body is not modelled. On that path the token cache, a `ConcurrentHashMap`, rejects the null value with a NullPointerException, so the token Mono fails. On the refresh path the error handler would then remove the user's tokens.
- `getTrack` and the controller's search and get-track endpoints are not modelled. They are thin wrappers around the client-credentials token and are outside the modelled core.
- Several admin endpoints are not modelled: `/admin/test-token`, `/admin/refresh-token`, `/control/refresh-token` and `/control/simulate-refresh`. They reuse the guard and delegation already modelled in `Controllers.SpotifyController.SimulateTokenRefresh` and `Controllers.SpotifyController.Control`.
- `/control/seek` is not modelled. It calls `seekToPositionWithAutoRefresh`, which `SpotifyApiService` does not declare.
- Controllers.SimpleResponse: the missing-`trackUri` branch is reachable only with a blank value. `addToQueueSimple` declares `trackUri` as a required request parameter, so Spring answers a missing one with its own 400 before the handler runs.
- Java integer widths are not modelled: volumes, limits and timestamps are unbounded integers, so `long` overflow in `now - lastUpdate` does not arise.
- Java nulls appear as `Option` only where the code tests for null, and for the message of a transport error (`Upstream.Transport`), which can be null. Other exception messages and cached payloads are non-null strings.
- Strings are sequences of Unicode scalar values. Java's `length()`, `substring` and `trim` count UTF-16 code units, as in the token previews (src/main/java/com/example/music_player/controller/SpotifyController.java:151-153, 195-199, 295-297). The two agree only on text without supplementary characters, which holds for ASCII tokens.
- JavaScript numbers are integers here. A fractional or NaN `ms` in `formatTime` and fractional image heights are not modelled.
- The `getAlbumArtUrl` copy in MusicSidebar.tsx is the same function and is not modelled twice.
- The progress-bar percentage of the player controls uses floating-point division and is not modelled.
- Oracles are functions, so equal requests get equal replies. If a refresh returned the same access token, the retry would see the same reply again.
- Logging and the React UI components are not modelled.
- Exceptions.SpotifyErrorMessage: the contract does not spell out the four fixed texts for 401, 403, 404 and 429. `Exceptions.WebClientMessageSources` proves only that they ignore the message and the body.
