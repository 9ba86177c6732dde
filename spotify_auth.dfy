/**
 * The OAuth client (`SpotifyAuthService`): the authorisation URL the user is
 * sent to, the three form bodies posted to the token endpoint (authorisation
 * code, refresh token and client credentials grants of RFC 6749), the HTTP
 * Basic client credentials (RFC 7617) and the cache of the last token replies.
 */
module SpotifyAuth {
  import opened Wrappers
  import opened Text
  import opened Upstream

  /** The configured endpoints and client registration (`SpotifyConfig`). */
  datatype Config = Config(authUrl: string, authorizeUrl: string, clientId: string, clientSecret: string, redirectUri: string)

  /** An `application/x-www-form-urlencoded` body, in insertion order (`LinkedMultiValueMap`). */
  type Form = seq<(string, string)>

  /** A POST to the token endpoint: the URL, the Basic credentials before Base64 encoding, and the form. */
  datatype TokenRequest = TokenRequest(url: string, basicCredentials: string, form: Form)

  /** The JSON token reply (`SpotifyTokenResponse`); a refresh reply may omit the refresh token. */
  datatype TokenResponse = TokenResponse(accessToken: string, refreshToken: Option<string>, expiresIn: int)

  /** What the token endpoint answers: a token reply or an error. */
  datatype TokenReply = Granted(response: TokenResponse) | Rejected(error: Error)

  const Scopes: string := "user-read-playback-state" + " " + "user-modify-playback-state" + " " + "user-read-currently-playing"
  const UserTokenKey: string := "user_token"
  const ClientCredentialsKey: string := "client_credentials"

  // ---------------------------------------------------------------- URL

  /** `String.replace(" ", "%20")`. */
  function EncodeSpaces(s: string): (r: string)
    ensures ' ' !in r
    ensures '%' !in s ==> DecodeSpaces(r) == s
    decreases |s|
  {
    if s == [] then []
    else
      var rest := EncodeSpaces(s[1..]);
      if s[0] == ' ' then
        assert ('%' !in s ==> '%' !in s[1..]);
        "%20" + rest
      else
        assert ('%' !in s ==> '%' !in s[1..]);
        [s[0]] + rest
  }

  /** Turns each "%20" back into a space: the inverse of `EncodeSpaces` on strings without '%'. */
  function DecodeSpaces(s: string): string
    decreases |s|
  {
    if |s| >= 3 && s[..3] == "%20" then " " + DecodeSpaces(s[3..])
    else if s == [] then []
    else [s[0]] + DecodeSpaces(s[1..])
  }

  /** `k1=v1&k2=v2&...`: a query string whose values are inserted as they are, without percent-encoding. */
  function QueryString(params: seq<(string, string)>): string {
    if params == [] then ""
    else
      var (k, v) := params[|params| - 1];
      if |params| == 1 then k + "=" + v
      else QueryString(params[..|params| - 1]) + "&" + k + "=" + v
  }

  /** `getAuthorizationUrl(state)`. */
  function AuthorizationUrl(cfg: Config, state: string): string {
    cfg.authorizeUrl +
    "?response_type=code" +
    "&client_id=" + cfg.clientId +
    "&scope=" + EncodeSpaces(Scopes) +
    "&redirect_uri=" + cfg.redirectUri +
    "&state=" + state
  }

  /** The parameters of the authorisation request (section 4.1.1 of RFC 6749), in the order the URL lists them. */
  function AuthorizationParams(cfg: Config, state: string): seq<(string, string)> {
    [("response_type", "code"), ("client_id", cfg.clientId), ("scope", EncodeSpaces(Scopes)),
     ("redirect_uri", cfg.redirectUri), ("state", state)]
  }

  /** One more parameter on a query string. */
  lemma ExtendQuery(params: seq<(string, string)>, k: string, v: string)
    requires params != []
    ensures QueryString(params + [(k, v)]) == QueryString(params) + "&" + k + "=" + v
  {
    assert (params + [(k, v)])[..|params|] == params;
  }

  /** The five-part regrouping behind the URL: concatenation is associative. */
  lemma Regroup(a: string, q: string, s1: string, v1: string, s2: string, v2: string, s3: string, v3: string, s4: string, v4: string)
    ensures a + ("?" + q) + s1 + v1 + s2 + v2 + s3 + v3 + s4 + v4
         == a + "?" + (q + s1 + v1 + s2 + v2 + s3 + v3 + s4 + v4)
  {
  }

  /**
   * The authorisation URL is the authorize endpoint followed by the query of
   * section 4.1.1 of RFC 6749, with client id, redirect URI and state inserted
   * verbatim.
   */
  lemma AuthorizationUrlIsQuery(cfg: Config, state: string)
    ensures AuthorizationUrl(cfg, state) == cfg.authorizeUrl + "?" + QueryString(AuthorizationParams(cfg, state))
  {
    var id, sc, uri := cfg.clientId, EncodeSpaces(Scopes), cfg.redirectUri;
    var q1 := "response_type=code";
    var q5 := q1 + "&client_id=" + id + "&scope=" + sc + "&redirect_uri=" + uri + "&state=" + state;
    assert QueryString(AuthorizationParams(cfg, state)) == q5 by {
      AuthorizationQuery(id, sc, uri, state);
    }
    assert AuthorizationUrl(cfg, state) == cfg.authorizeUrl + "?" + q5 by {
      assert "?response_type=code" == "?" + q1;
      Regroup(cfg.authorizeUrl, q1, "&client_id=", id, "&scope=", sc, "&redirect_uri=", uri, "&state=", state);
    }
  }

  /** The query string of the authorisation parameters, spelled out. */
  lemma AuthorizationQuery(id: string, sc: string, uri: string, state: string)
    ensures QueryString([("response_type", "code"), ("client_id", id), ("scope", sc), ("redirect_uri", uri), ("state", state)])
         == "response_type=code" + "&client_id=" + id + "&scope=" + sc + "&redirect_uri=" + uri + "&state=" + state
  {
    var p1 := [("response_type", "code")];
    var p2 := p1 + [("client_id", id)];
    var p3 := p2 + [("scope", sc)];
    var p4 := p3 + [("redirect_uri", uri)];
    var p5 := p4 + [("state", state)];
    assert QueryString(p1) == "response_type=code" by {
      assert "response_type" + "=" + "code" == "response_type=code";
    }
    assert QueryString(p2) == QueryString(p1) + "&client_id=" + id by {
      ExtendQuery(p1, "client_id", id);
      assert "&" + "client_id" + "=" == "&client_id=";
    }
    assert QueryString(p3) == QueryString(p2) + "&scope=" + sc by {
      ExtendQuery(p2, "scope", sc);
      assert "&" + "scope" + "=" == "&scope=";
    }
    assert QueryString(p4) == QueryString(p3) + "&redirect_uri=" + uri by {
      ExtendQuery(p3, "redirect_uri", uri);
      assert "&" + "redirect_uri" + "=" == "&redirect_uri=";
    }
    assert QueryString(p5) == QueryString(p4) + "&state=" + state by {
      ExtendQuery(p4, "state", state);
      assert "&" + "state" + "=" == "&state=";
    }
    assert p5 == [("response_type", "code"), ("client_id", id), ("scope", sc), ("redirect_uri", uri), ("state", state)];
  }

  /** The scope list sent in the URL carries no space, and decoding "%20" gives the configured list back. */
  lemma ScopeEncoding()
    ensures ' ' !in EncodeSpaces(Scopes) && DecodeSpaces(EncodeSpaces(Scopes)) == Scopes
  {
    assert '%' !in "user-read-playback-state";
    assert '%' !in "user-modify-playback-state";
    assert '%' !in "user-read-currently-playing";
  }

  // ---------------------------------------------------------------- forms

  /** The value of the first field named `key`, as a form parser reads it. */
  function FormValue(form: Form, key: string): Option<string> {
    if form == [] then None
    else if form[0].0 == key then Some(form[0].1)
    else FormValue(form[1..], key)
  }

  function FormKeys(form: Form): seq<string> {
    seq(|form|, i requires 0 <= i < |form| => form[i].0)
  }

  /** The authorisation-code grant (section 4.1.3 of RFC 6749); the client authenticates by Basic credentials instead of a client_id field. */
  function CodeExchangeForm(code: string, redirectUri: string): (f: Form)
    ensures FormKeys(f) == ["grant_type", "code", "redirect_uri"]
    ensures FormValue(f, "grant_type") == Some("authorization_code")
    ensures FormValue(f, "code") == Some(code)
    ensures FormValue(f, "redirect_uri") == Some(redirectUri)
  {
    var f := [("grant_type", "authorization_code"), ("code", code), ("redirect_uri", redirectUri)];
    assert FormValue(f[1..][1..], "redirect_uri") == Some(redirectUri);
    assert FormValue(f[1..], "redirect_uri") == Some(redirectUri);
    f
  }

  /** The refresh grant (section 6 of RFC 6749), without a scope field. */
  function RefreshForm(refreshToken: string): (f: Form)
    ensures FormKeys(f) == ["grant_type", "refresh_token"]
    ensures FormValue(f, "grant_type") == Some("refresh_token")
    ensures FormValue(f, "refresh_token") == Some(refreshToken)
  {
    [("grant_type", "refresh_token"), ("refresh_token", refreshToken)]
  }

  /** The client-credentials grant (section 4.4.2 of RFC 6749), without a scope field. */
  function ClientCredentialsForm(): (f: Form)
    ensures FormKeys(f) == ["grant_type"]
    ensures FormValue(f, "grant_type") == Some("client_credentials")
  {
    [("grant_type", "client_credentials")]
  }

  // ---------------------------------------------------------------- client authentication

  /** The user-pass string of the Basic scheme before Base64 encoding (section 2 of RFC 7617). */
  function BasicCredentials(cfg: Config): string {
    cfg.clientId + ":" + cfg.clientSecret
  }

  /** How a server splits a user-pass string: at the first colon. */
  function SplitUserPass(s: string): (string, string) {
    var k := IndexOf(s, ':');
    if k < 0 then (s, "") else (s[..k], s[k + 1..])
  }

  /** Client id and secret are recovered from the credentials when the id has no colon, as RFC 7617 requires of a user-id. */
  lemma BasicCredentialsRoundTrip(cfg: Config)
    requires ':' !in cfg.clientId
    ensures SplitUserPass(BasicCredentials(cfg)) == (cfg.clientId, cfg.clientSecret)
  {
    var s := BasicCredentials(cfg);
    var n := |cfg.clientId|;
    assert s[n] == ':';
    assert s[..n] == cfg.clientId;
    assert s[n + 1..] == cfg.clientSecret;
  }

  /** Every call to the token endpoint: its URL, the Basic credentials and the form. */
  function Request(cfg: Config, form: Form): TokenRequest {
    TokenRequest(cfg.authUrl, BasicCredentials(cfg), form)
  }

  /** The cache after a reply: a granted reply is stored under `key`, an error leaves it alone. */
  function CacheAfter(cache: map<string, TokenResponse>, key: string, reply: TokenReply): map<string, TokenResponse> {
    if reply.Granted? then cache[key := reply.response] else cache
  }

  class SpotifyAuthService {
    const config: Config
    var tokenCache: map<string, TokenResponse>

    constructor (config: Config)
      ensures this.config == config && tokenCache == map[]
    {
      this.config := config;
      tokenCache := map[];
    }

    /** `getClientCredentialsToken`: the access token of a client-credentials grant, cached under "client_credentials". */
    method GetClientCredentialsToken(endpoint: TokenRequest -> TokenReply) returns (r: Outcome<string>)
      modifies this
      ensures var reply := endpoint(Request(config, ClientCredentialsForm()));
              && r == (if reply.Granted? then Ok(reply.response.accessToken) else Fail(reply.error))
              && tokenCache == CacheAfter(old(tokenCache), ClientCredentialsKey, reply)
    {
      var reply := endpoint(Request(config, ClientCredentialsForm()));
      if reply.Granted? {
        tokenCache := tokenCache[ClientCredentialsKey := reply.response];
        r := Ok(reply.response.accessToken);
      } else {
        r := Fail(reply.error);
      }
    }

    /** `exchangeCodeForToken`: a granted reply is cached under "user_token". */
    method ExchangeCodeForToken(code: string, endpoint: TokenRequest -> TokenReply) returns (reply: TokenReply)
      modifies this
      ensures reply == endpoint(Request(config, CodeExchangeForm(code, config.redirectUri)))
      ensures tokenCache == CacheAfter(old(tokenCache), UserTokenKey, reply)
    {
      reply := endpoint(Request(config, CodeExchangeForm(code, config.redirectUri)));
      if reply.Granted? {
        tokenCache := tokenCache[UserTokenKey := reply.response];
      }
    }

    /** `refreshToken`: a granted reply is cached under "user_token". */
    method RefreshToken(refreshToken: string, endpoint: TokenRequest -> TokenReply) returns (reply: TokenReply)
      modifies this
      ensures reply == endpoint(Request(config, RefreshForm(refreshToken)))
      ensures tokenCache == CacheAfter(old(tokenCache), UserTokenKey, reply)
    {
      reply := endpoint(Request(config, RefreshForm(refreshToken)));
      if reply.Granted? {
        tokenCache := tokenCache[UserTokenKey := reply.response];
      }
    }

    method GetCachedUserToken() returns (r: Option<TokenResponse>)
      ensures r.Some? <==> UserTokenKey in tokenCache
      ensures r.Some? ==> r.value == tokenCache[UserTokenKey]
    {
      r := if UserTokenKey in tokenCache then Some(tokenCache[UserTokenKey]) else None;
    }

    method ClearTokenCache()
      modifies this
      ensures tokenCache == map[]
    {
      tokenCache := map[];
    }
  }
}
