/**
 * The root-level OAuth redirect endpoint (`CallbackController`): the
 * authorization server redirects the browser here (section 4.1.2 of
 * RFC 6749), and the endpoint forwards it with a 302, either to the API's own
 * callback with the code and state or back to the site with an error.
 */
module Callback {
  import opened Wrappers
  import opened Text

  /** A 302 response and its Location header. */
  datatype Redirect = Redirect(status: int, location: string)

  const Found := 302
  const SiteErrorUrl := "https://cadebeckers.com/?error="
  const ApiCallbackUrl := "/api/spotify/callback?code="
  const StateSeparator := "&state="

  /**
   * `handleCallback`: an `error` parameter wins over everything; with a code
   * and a state, forward both to the API callback; otherwise report
   * missing parameters. Values are inserted without any encoding.
   */
  function HandleCallback(code: Option<string>, state: Option<string>, error: Option<string>): (r: Redirect)
    ensures r.status == Found
    ensures error.Some? ==> r.location == SiteErrorUrl + error.value
    ensures error.None? && code.Some? && state.Some? ==> r.location == ApiCallbackUrl + code.value + StateSeparator + state.value
    ensures error.None? && (code.None? || state.None?) ==> r.location == SiteErrorUrl + "missing_params"
  {
    if error.Some? then Redirect(Found, SiteErrorUrl + error.value)
    else if code.Some? && state.Some? then Redirect(Found, ApiCallbackUrl + code.value + StateSeparator + state.value)
    else Redirect(Found, SiteErrorUrl + "missing_params")
  }

  /** How the API callback reads a forwarded location: the code runs up to the first '&'. */
  function ReadForwarded(location: string): Option<(string, string)> {
    if |location| < |ApiCallbackUrl| || location[..|ApiCallbackUrl|] != ApiCallbackUrl then None
    else
      var rest := location[|ApiCallbackUrl|..];
      var k := IndexOf(rest, '&');
      if k < 0 || |rest| - k < |StateSeparator| || rest[k..k + |StateSeparator|] != StateSeparator then None
      else Some((rest[..k], rest[k + |StateSeparator|..]))
  }

  /**
   * With no error, a code and a state, the forwarded location carries both:
   * reading it back gives the same code and state, provided the code has no '&'
   * (authorization codes from the provider never do; nothing is encoded).
   */
  lemma ForwardRoundTrip(code: string, state: string)
    requires '&' !in code
    ensures var r := HandleCallback(Some(code), Some(state), None);
            ReadForwarded(r.location) == Some((code, state))
  {
    var location := ApiCallbackUrl + code + StateSeparator + state;
    assert location[..|ApiCallbackUrl|] == ApiCallbackUrl;
    var rest := location[|ApiCallbackUrl|..];
    assert rest == code + StateSeparator + state;
    var k := IndexOf(rest, '&');
    assert rest[|code|] == '&';
    assert rest[..|code|] == code;
    assert k == |code| by {
      assert '&' in rest;
    }
    assert rest[k..k + |StateSeparator|] == StateSeparator;
    assert rest[k + |StateSeparator|..] == state;
  }

  /**
   * Because the error value is inserted verbatim, a provider error named
   * "missing_params" produces the same redirect as a request missing its
   * parameters: the site cannot tell the two apart.
   */
  lemma ErrorRedirectsCanCoincide(code: Option<string>, state: Option<string>)
    ensures HandleCallback(code, state, Some("missing_params")) == HandleCallback(None, None, None)
  {
  }
}
