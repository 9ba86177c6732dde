/**
 * The in-memory token store (`TokenStorageService`): one map from user id
 * to access token and one from user id to refresh token.
 */
module TokenStorage {
  import opened Wrappers

  /** The store's contents as a value: the two maps. */
  datatype Tokens = Tokens(access: map<string, string>, refresh: map<string, string>)

  /** A store that has never been written. */
  const Empty: Tokens := Tokens(map[], map[])

  /** `Map.get`: the access token stored for `u`, or none. */
  function AccessOf(t: Tokens, u: string): Option<string> {
    if u in t.access then Some(t.access[u]) else None
  }

  /** `Map.get`: the refresh token stored for `u`, or none. */
  function RefreshOf(t: Tokens, u: string): Option<string> {
    if u in t.refresh then Some(t.refresh[u]) else None
  }

  /** Both tokens of one user: what `u` can observe of the store. */
  function Entry(t: Tokens, u: string): (Option<string>, Option<string>) {
    (AccessOf(t, u), RefreshOf(t, u))
  }

  /** No user holds a refresh token without an access token. */
  predicate Valid(t: Tokens) {
    t.refresh.Keys <= t.access.Keys
  }

  /** The effect of `storeTokens`: the access token is always written, the refresh token only when given. */
  function Store(t: Tokens, u: string, accessToken: string, refreshToken: Option<string>): (t': Tokens)
    ensures AccessOf(t', u) == Some(accessToken)
    ensures RefreshOf(t', u) == if refreshToken.Some? then refreshToken else RefreshOf(t, u)
    ensures forall v :: v != u ==> Entry(t', v) == Entry(t, v)
    ensures Valid(t) ==> Valid(t')
  {
    Tokens(t.access[u := accessToken],
           if refreshToken.Some? then t.refresh[u := refreshToken.value] else t.refresh)
  }

  /** The effect of `removeTokens`: both tokens of `u` are gone. */
  function Remove(t: Tokens, u: string): (t': Tokens)
    ensures Entry(t', u) == (None, None)
    ensures forall v :: v != u ==> Entry(t', v) == Entry(t, v)
    ensures Valid(t) ==> Valid(t')
  {
    Tokens(t.access - {u}, t.refresh - {u})
  }

  /** Stores are equal when every user observes the same entry. */
  lemma EntriesDetermineTokens(t1: Tokens, t2: Tokens)
    requires forall v :: Entry(t1, v) == Entry(t2, v)
    ensures t1 == t2
  {
    forall v ensures v in t1.access <==> v in t2.access {
      assert Entry(t1, v) == Entry(t2, v);
    }
    forall v ensures v in t1.refresh <==> v in t2.refresh {
      assert Entry(t1, v) == Entry(t2, v);
    }
    forall v | v in t1.access ensures t1.access[v] == t2.access[v] {
      assert Entry(t1, v) == Entry(t2, v);
    }
    forall v | v in t1.refresh ensures t1.refresh[v] == t2.refresh[v] {
      assert Entry(t1, v) == Entry(t2, v);
    }
  }

  class TokenStorageService {
    var userTokens: map<string, string>
    var refreshTokens: map<string, string>

    function State(): Tokens
      reads this
    {
      Tokens(userTokens, refreshTokens)
    }

    constructor ()
      ensures State() == Empty && Valid(State())
    {
      userTokens := map[];
      refreshTokens := map[];
    }

    /** `storeTokens(userId, accessToken, refreshToken)`; a null refresh token is `None`. */
    method StoreTokens(userId: string, accessToken: string, refreshToken: Option<string>)
      modifies this
      ensures State() == Store(old(State()), userId, accessToken, refreshToken)
    {
      userTokens := userTokens[userId := accessToken];
      if refreshToken.Some? {
        refreshTokens := refreshTokens[userId := refreshToken.value];
      }
    }

    /** The overload with an expiry: the expiry is ignored. */
    method StoreTokensWithExpiry(userId: string, accessToken: string, refreshToken: Option<string>, expiresInSeconds: int)
      modifies this
      ensures State() == Store(old(State()), userId, accessToken, refreshToken)
    {
      StoreTokens(userId, accessToken, refreshToken);
    }

    method GetAccessToken(userId: string) returns (r: Option<string>)
      ensures r.Some? <==> userId in userTokens
      ensures r.Some? ==> r.value == userTokens[userId]
    {
      r := if userId in userTokens then Some(userTokens[userId]) else None;
    }

    method GetRefreshToken(userId: string) returns (r: Option<string>)
      ensures r.Some? <==> userId in refreshTokens
      ensures r.Some? ==> r.value == refreshTokens[userId]
    {
      r := if userId in refreshTokens then Some(refreshTokens[userId]) else None;
    }

    /** `hasToken`: an access token is stored; a refresh token alone does not count. */
    method HasToken(userId: string) returns (b: bool)
      ensures b <==> AccessOf(State(), userId).Some?
    {
      b := userId in userTokens;
    }

    method RemoveTokens(userId: string)
      modifies this
      ensures State() == Remove(old(State()), userId)
    {
      userTokens := userTokens - {userId};
      refreshTokens := refreshTokens - {userId};
    }

    /** `getAllActiveUserIds`: the users holding an access token. */
    method GetAllActiveUserIds() returns (ids: set<string>)
      ensures forall u :: u in ids <==> AccessOf(State(), u).Some?
    {
      ids := userTokens.Keys;
    }
  }
}
