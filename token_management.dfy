/**
 * The token lifecycle coordinator (`TokenManagerService`): run an upstream
 * operation with the stored access token, and on a 401 refresh once and
 * retry once; refresh one user's token; sweep every user with a token.
 *
 * Upstream behaviour enters as oracles: `op` maps the access token it is
 * called with to the outcome of the provider call, and `endpoint` maps a
 * token-endpoint request to the provider's reply. Each operation is first
 * defined on store values (`RefreshSpec`, `RetrySpec`, `SweepSpec`); the
 * methods of the class are proved to act as those functions say.
 */
module TokenManagement {
  import opened Wrappers
  import opened Upstream
  import opened TokenStorage
  import opened SpotifyAuth

  // ---------------------------------------------------------------- refresh

  /** One run of `refreshTokenForUser`: its outcome, the new store, and the token-endpoint requests made with their reply. */
  datatype RefreshRun = RefreshRun(result: Outcome<string>, tokens: Tokens, sent: seq<TokenRequest>, reply: Option<TokenReply>)

  /**
   * `refreshTokenForUser(u)`: without a refresh token, fail and touch nothing;
   * otherwise post the refresh grant once. A granted reply stores its access
   * token and its refresh token, or the old one when the reply has none; an
   * error reply removes both tokens of `u` and is passed on.
   */
  function RefreshSpec(t: Tokens, u: string, cfg: Config, endpoint: TokenRequest -> TokenReply): (run: RefreshRun)
    ensures forall v :: v != u ==> Entry(run.tokens, v) == Entry(t, v)
    ensures Valid(t) ==> Valid(run.tokens)
    ensures |run.sent| == (if run.reply.Some? then 1 else 0)
    ensures run.result.Ok? || run.result.Fail?
  {
    if u !in t.refresh then RefreshRun(Fail(NoRefreshToken), t, [], None)
    else
      var rt := t.refresh[u];
      var req := Request(cfg, RefreshForm(rt));
      var reply := endpoint(req);
      match reply
      case Granted(resp) =>
        RefreshRun(Ok(resp.accessToken), Store(t, u, resp.accessToken, Some(resp.refreshToken.GetOr(rt))), [req], Some(reply))
      case Rejected(e) =>
        RefreshRun(Fail(e), Remove(t, u), [req], Some(reply))
  }

  /** Without a stored refresh token the provider is not contacted and the store is unchanged. */
  lemma RefreshWithoutRefreshToken(t: Tokens, u: string, cfg: Config, endpoint: TokenRequest -> TokenReply)
    requires RefreshOf(t, u).None?
    ensures RefreshSpec(t, u, cfg, endpoint) == RefreshRun(Fail(NoRefreshToken), t, [], None)
  {
  }

  /**
   * With a stored refresh token exactly one refresh grant carrying it is sent.
   * A granted reply's access token is stored and returned, and the stored
   * refresh token is the reply's, or the previous one when the reply omits it.
   * A rejection removes both tokens and is returned unchanged.
   */
  lemma RefreshWithRefreshToken(t: Tokens, u: string, cfg: Config, endpoint: TokenRequest -> TokenReply)
    requires RefreshOf(t, u).Some?
    ensures var rt := RefreshOf(t, u).value;
            var req := Request(cfg, RefreshForm(rt));
            var run := RefreshSpec(t, u, cfg, endpoint);
            && run.sent == [req] && run.reply == Some(endpoint(req))
            && (endpoint(req).Granted? ==>
                  var resp := endpoint(req).response;
                  && run.result == Ok(resp.accessToken)
                  && AccessOf(run.tokens, u) == Some(resp.accessToken)
                  && RefreshOf(run.tokens, u) == Some(if resp.refreshToken.Some? then resp.refreshToken.value else rt))
            && (endpoint(req).Rejected? ==>
                  && run.result == Fail(endpoint(req).error)
                  && Entry(run.tokens, u) == (None, None))
  {
  }

  /**
   * A refresh whose reply omits the refresh token leaves the old one in place,
   * so the next refresh of the same user sends the same refresh token again.
   */
  lemma RefreshTokenSurvivesOmission(t: Tokens, u: string, cfg: Config, endpoint: TokenRequest -> TokenReply)
    requires RefreshOf(t, u).Some?
    requires var reply := endpoint(Request(cfg, RefreshForm(RefreshOf(t, u).value)));
             reply.Granted? && reply.response.refreshToken.None?
    ensures RefreshSpec(RefreshSpec(t, u, cfg, endpoint).tokens, u, cfg, endpoint).sent
         == [Request(cfg, RefreshForm(RefreshOf(t, u).value))]
  {
    var t1 := RefreshSpec(t, u, cfg, endpoint).tokens;
    assert RefreshOf(t1, u) == RefreshOf(t, u);
  }

  /** What a refresh does depends only on the refreshed user's own entry. */
  lemma RefreshDependsOnOwnEntry(t1: Tokens, t2: Tokens, u: string, cfg: Config, endpoint: TokenRequest -> TokenReply)
    requires Entry(t1, u) == Entry(t2, u)
    ensures var r1, r2 := RefreshSpec(t1, u, cfg, endpoint), RefreshSpec(t2, u, cfg, endpoint);
            r1.result == r2.result && r1.sent == r2.sent && r1.reply == r2.reply && Entry(r1.tokens, u) == Entry(r2.tokens, u)
  {
    assert RefreshOf(t1, u) == RefreshOf(t2, u);
  }

  /** The token cache after a refresh run: a reply from the provider is cached as `refreshToken` caches it. */
  function CacheAfterRefresh(cache: map<string, TokenResponse>, run: RefreshRun): map<string, TokenResponse> {
    if run.reply.Some? then CacheAfter(cache, UserTokenKey, run.reply.value) else cache
  }

  // ---------------------------------------------------------------- retry

  /** One run of `retryWithTokenRefresh`: its outcome, the new store, the tokens `op` was called with, and the refresh run if one happened. */
  datatype RetryRun<T> = RetryRun(result: Outcome<T>, tokens: Tokens, invocations: seq<string>, refresh: Option<RefreshRun>)

  /**
   * `retryWithTokenRefresh(u, op)`: without an access token fail with
   * "No access token available"; otherwise call `op` with it. Only a 401
   * triggers one refresh and, if that yields a token, one more call whose
   * outcome is final.
   */
  function RetrySpec<T>(t: Tokens, u: string, op: string -> Outcome<T>, cfg: Config, endpoint: TokenRequest -> TokenReply): (run: RetryRun<T>)
    ensures |run.invocations| <= 2
    ensures run.refresh.None? ==> run.tokens == t
    ensures run.refresh.Some? ==> run.tokens == run.refresh.value.tokens
    ensures Valid(t) ==> Valid(run.tokens)
  {
    if u !in t.access then RetryRun(Fail(NoAccessToken), t, [], None)
    else
      var a := t.access[u];
      var first := op(a);
      if first.Fail? && IsUnauthorized(first.error) then
        var rr := RefreshSpec(t, u, cfg, endpoint);
        match rr.result
        case Ok(renewed) => RetryRun(op(renewed), rr.tokens, [a, renewed], Some(rr))
        case Empty => RetryRun(Empty, rr.tokens, [a], Some(rr))
        case Fail(e) => RetryRun(Fail(e), rr.tokens, [a], Some(rr))
      else RetryRun(first, t, [a], None)
  }

  /** No access token: fail with `NoAccessToken`, never call `op`, never refresh. */
  lemma RetryWithoutAccessToken<T>(t: Tokens, u: string, op: string -> Outcome<T>, cfg: Config, endpoint: TokenRequest -> TokenReply)
    requires AccessOf(t, u).None?
    ensures RetrySpec(t, u, op, cfg, endpoint) == RetryRun(Fail(NoAccessToken), t, [], None)
    ensures Message(RetrySpec(t, u, op, cfg, endpoint).result.error) == Some("No access token available")
  {
  }

  /** Any first outcome other than a 401 (a value, an empty reply, another error) is returned as it is after one call, with no refresh and the store untouched. */
  lemma RetryFirstAttemptFinal<T>(t: Tokens, u: string, op: string -> Outcome<T>, cfg: Config, endpoint: TokenRequest -> TokenReply)
    requires AccessOf(t, u).Some?
    requires var first := op(AccessOf(t, u).value); !(first.Fail? && IsUnauthorized(first.error))
    ensures var a := AccessOf(t, u).value;
            RetrySpec(t, u, op, cfg, endpoint) == RetryRun(op(a), t, [a], None)
  {
  }

  /**
   * A 401 on the first call triggers exactly one refresh. If it yields a new
   * token, `op` is called exactly once more, with that token, and its outcome
   * is final, even another 401; otherwise the refresh failure is returned and
   * `op` is not called again.
   */
  lemma RetryAfterUnauthorized<T>(t: Tokens, u: string, op: string -> Outcome<T>, cfg: Config, endpoint: TokenRequest -> TokenReply)
    requires AccessOf(t, u).Some?
    requires var first := op(AccessOf(t, u).value); first.Fail? && IsUnauthorized(first.error)
    ensures var a := AccessOf(t, u).value;
            var rr := RefreshSpec(t, u, cfg, endpoint);
            var run := RetrySpec(t, u, op, cfg, endpoint);
            && run.refresh == Some(rr) && run.tokens == rr.tokens
            && (rr.result.Ok? ==> run.invocations == [a, rr.result.value] && run.result == op(rr.result.value))
            && (rr.result.Fail? ==> run.invocations == [a] && run.result == Fail(rr.result.error))
  {
  }

  /**
   * The scenario of an operation that always answers 401 while the refresh
   * succeeds: one refresh, two calls, and the final outcome is the 401.
   */
  lemma RetryAlwaysUnauthorized<T>(t: Tokens, u: string, op: string -> Outcome<T>, cfg: Config, endpoint: TokenRequest -> TokenReply)
    requires AccessOf(t, u).Some? && RefreshOf(t, u).Some?
    requires forall a :: op(a).Fail? && IsUnauthorized(op(a).error)
    requires endpoint(Request(cfg, RefreshForm(RefreshOf(t, u).value))).Granted?
    ensures var run := RetrySpec(t, u, op, cfg, endpoint);
            |run.invocations| == 2 && run.refresh.Some? && |run.refresh.value.sent| == 1
            && run.result.Fail? && IsUnauthorized(run.result.error)
  {
    var a := AccessOf(t, u).value;
    assert op(a).Fail? && IsUnauthorized(op(a).error);
    var rr := RefreshSpec(t, u, cfg, endpoint);
    assert op(rr.result.value).Fail? && IsUnauthorized(op(rr.result.value).error);
  }

  /** The token cache after a retry: only a refresh run can change it. */
  function CacheAfterRetry<T>(cache: map<string, TokenResponse>, run: RetryRun<T>): map<string, TokenResponse> {
    if run.refresh.Some? then CacheAfterRefresh(cache, run.refresh.value) else cache
  }

  // ---------------------------------------------------------------- sweep

  predicate Distinct<X(==)>(s: seq<X>) {
    forall i, j :: 0 <= i < j < |s| ==> s[i] != s[j]
  }

  /** The store after refreshing the users of `order`, one after the other. */
  function SweepSpec(t: Tokens, order: seq<string>, cfg: Config, endpoint: TokenRequest -> TokenReply): Tokens
    decreases |order|
  {
    if order == [] then t
    else RefreshSpec(SweepSpec(t, order[..|order| - 1], cfg, endpoint), order[|order| - 1], cfg, endpoint).tokens
  }

  /** The token cache after refreshing the users of `order`, one after the other. */
  function SweepCache(cache: map<string, TokenResponse>, t: Tokens, order: seq<string>, cfg: Config, endpoint: TokenRequest -> TokenReply): map<string, TokenResponse>
    decreases |order|
  {
    if order == [] then cache
    else
      var prefix := order[..|order| - 1];
      CacheAfterRefresh(SweepCache(cache, t, prefix, cfg, endpoint),
                        RefreshSpec(SweepSpec(t, prefix, cfg, endpoint), order[|order| - 1], cfg, endpoint))
  }

  /**
   * The sweep refreshes each listed user independently: every listed user ends
   * as its own refresh leaves it (a failure removes that user's tokens), no
   * failure affects another user, and unlisted users are untouched.
   */
  lemma {:induction false} SweepPerUser(t: Tokens, order: seq<string>, cfg: Config, endpoint: TokenRequest -> TokenReply, v: string)
    requires Distinct(order)
    ensures Entry(SweepSpec(t, order, cfg, endpoint), v)
         == if v in order then Entry(RefreshSpec(t, v, cfg, endpoint).tokens, v) else Entry(t, v)
    decreases |order|
  {
    if order != [] {
      var prefix, w := order[..|order| - 1], order[|order| - 1];
      assert Distinct(prefix);
      var before := SweepSpec(t, prefix, cfg, endpoint);
      SweepPerUser(t, prefix, cfg, endpoint, v);
      assert order == prefix + [w];
      if v == w {
        assert v !in prefix;
        RefreshDependsOnOwnEntry(before, t, v, cfg, endpoint);
      }
    }
  }

  /** The order in which the sweep visits the users does not matter. */
  lemma SweepOrderIrrelevant(t: Tokens, o1: seq<string>, o2: seq<string>, cfg: Config, endpoint: TokenRequest -> TokenReply)
    requires Distinct(o1) && Distinct(o2)
    requires forall u :: u in o1 <==> u in o2
    ensures SweepSpec(t, o1, cfg, endpoint) == SweepSpec(t, o2, cfg, endpoint)
  {
    forall v ensures Entry(SweepSpec(t, o1, cfg, endpoint), v) == Entry(SweepSpec(t, o2, cfg, endpoint), v) {
      SweepPerUser(t, o1, cfg, endpoint, v);
      SweepPerUser(t, o2, cfg, endpoint, v);
    }
    EntriesDetermineTokens(SweepSpec(t, o1, cfg, endpoint), SweepSpec(t, o2, cfg, endpoint));
  }

  /**
   * Two users, one refresh granted and one rejected: u1 ends with the granted
   * access token and u2 with no tokens, whatever the order of the sweep.
   */
  lemma SweepTwoUsers(t: Tokens, u1: string, u2: string, cfg: Config, endpoint: TokenRequest -> TokenReply)
    requires u1 != u2 && RefreshOf(t, u1).Some? && RefreshOf(t, u2).Some?
    requires endpoint(Request(cfg, RefreshForm(RefreshOf(t, u1).value))).Granted?
    requires endpoint(Request(cfg, RefreshForm(RefreshOf(t, u2).value))).Rejected?
    ensures var t' := SweepSpec(t, [u1, u2], cfg, endpoint);
            && AccessOf(t', u1) == Some(endpoint(Request(cfg, RefreshForm(RefreshOf(t, u1).value))).response.accessToken)
            && Entry(t', u2) == (None, None)
            && t' == SweepSpec(t, [u2, u1], cfg, endpoint)
  {
    SweepPerUser(t, [u1, u2], cfg, endpoint, u1);
    SweepPerUser(t, [u1, u2], cfg, endpoint, u2);
    RefreshWithRefreshToken(t, u1, cfg, endpoint);
    RefreshWithRefreshToken(t, u2, cfg, endpoint);
    SweepOrderIrrelevant(t, [u1, u2], [u2, u1], cfg, endpoint);
  }

  // ---------------------------------------------------------------- the service

  class TokenManagerService {
    const storage: TokenStorageService
    const auth: SpotifyAuthService

    constructor (storage: TokenStorageService, auth: SpotifyAuthService)
      ensures this.storage == storage && this.auth == auth
    {
      this.storage := storage;
      this.auth := auth;
    }

    /** `getAccessToken`: the stored token, without any refresh; empty when there is none. */
    method GetAccessToken(userId: string) returns (r: Option<string>)
      ensures r == AccessOf(storage.State(), userId)
    {
      r := storage.GetAccessToken(userId);
    }

    /** `isUserAuthenticated`: exactly `hasToken`. */
    method IsUserAuthenticated(userId: string) returns (b: bool)
      ensures b <==> AccessOf(storage.State(), userId).Some?
    {
      b := storage.HasToken(userId);
    }

    method RefreshTokenForUser(userId: string, endpoint: TokenRequest -> TokenReply)
      returns (r: Outcome<string>, ghost sent: seq<TokenRequest>)
      modifies storage, auth
      ensures var run := RefreshSpec(old(storage.State()), userId, auth.config, endpoint);
              && r == run.result && sent == run.sent
              && storage.State() == run.tokens
              && auth.tokenCache == CacheAfterRefresh(old(auth.tokenCache), run)
    {
      var rt := storage.GetRefreshToken(userId);
      if rt.None? {
        return Fail(NoRefreshToken), [];
      }
      var reply := auth.RefreshToken(rt.value, endpoint);
      sent := [Request(auth.config, RefreshForm(rt.value))];
      match reply
      case Granted(resp) =>
        var keep := if resp.refreshToken.Some? then resp.refreshToken.value else rt.value;
        storage.StoreTokensWithExpiry(userId, resp.accessToken, Some(keep), resp.expiresIn);
        r := Ok(resp.accessToken);
      case Rejected(e) =>
        storage.RemoveTokens(userId);
        r := Fail(e);
    }

    method RetryWithTokenRefresh<T>(userId: string, op: string -> Outcome<T>, endpoint: TokenRequest -> TokenReply)
      returns (r: Outcome<T>, ghost invocations: seq<string>)
      modifies storage, auth
      ensures var run := RetrySpec(old(storage.State()), userId, op, auth.config, endpoint);
              && r == run.result && invocations == run.invocations
              && storage.State() == run.tokens
              && auth.tokenCache == CacheAfterRetry(old(auth.tokenCache), run)
    {
      var accessToken := storage.GetAccessToken(userId);
      if accessToken.None? {
        return Fail(NoAccessToken), [];
      }
      r := op(accessToken.value);
      invocations := [accessToken.value];
      if r.Fail? && IsUnauthorized(r.error) {
        var refreshed, sent := RefreshTokenForUser(userId, endpoint);
        match refreshed
        case Ok(renewed) =>
          r := op(renewed);
          invocations := invocations + [renewed];
        case Empty =>
          r := Empty;
        case Fail(e) =>
          r := Fail(e);
      }
    }

    /**
     * `refreshAllActiveTokens`: refresh every user holding an access token,
     * each on its own, in some order; an empty set of users does nothing.
     */
    method RefreshAllActiveTokens(endpoint: TokenRequest -> TokenReply) returns (ghost order: seq<string>)
      modifies storage, auth
      ensures Distinct(order) && forall u :: u in order <==> AccessOf(old(storage.State()), u).Some?
      ensures storage.State() == SweepSpec(old(storage.State()), order, auth.config, endpoint)
      ensures auth.tokenCache == SweepCache(old(auth.tokenCache), old(storage.State()), order, auth.config, endpoint)
    {
      ghost var t0 := storage.State();
      var activeUserIds := storage.GetAllActiveUserIds();
      order := [];
      if activeUserIds == {} {
        forall u | AccessOf(t0, u).Some? ensures u in activeUserIds {
        }
        return;
      }
      var remaining := activeUserIds;
      while remaining != {}
        invariant remaining <= activeUserIds
        invariant Distinct(order)
        invariant forall u :: u in order <==> u in activeUserIds && u !in remaining
        invariant storage.State() == SweepSpec(old(storage.State()), order, auth.config, endpoint)
        invariant auth.tokenCache == SweepCache(old(auth.tokenCache), old(storage.State()), order, auth.config, endpoint)
        decreases remaining
      {
        var userId :| userId in remaining;
        var _, _ := RefreshTokenForUser(userId, endpoint);
        assert (order + [userId])[..|order|] == order;
        order := order + [userId];
        remaining := remaining - {userId};
      }
    }
  }
}
