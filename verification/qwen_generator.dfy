/**
 * The Qwen content generator (packages/core/dist/src/qwen/qwenContentGenerator.js): the
 * endpoint it talks to, which errors count as authentication failures, and the token it keeps
 * for the OpenAI-compatible client, with one silent refresh-and-retry on an authentication
 * failure. The OAuth client's answers and the API call itself are inputs.
 */
module QwenContentGenerator {
  import opened Wrappers
  import opened Text
  import opened QwenOAuth2

  const DASHSCOPE_PATH: string := "dashscope.aliyuncs.com/compatible-mode"
  const DEFAULT_QWEN_BASE_URL: string := "https://" + DASHSCOPE_PATH + "/v1"
  const FAILED_TOKEN_MESSAGE: string := "Failed to obtain valid Qwen access token. Please re-authenticate."
  const NO_TOKEN_RETURNED_MESSAGE: string := "Failed to refresh access token: no token returned"

  /**
   * A thrown value: `Falsy` for null, undefined and the like; otherwise the text `isAuthError`
   * inspects (the message of an Error, `String(error)` of anything else) and its `status` and
   * `code` properties.
   */
  datatype Thrown = Falsy | Raised(text: string, status: Option<int>, code: Option<int>)

  /** The token fields of the generator: currentToken, currentEndpoint, and whether refreshPromise is set. */
  datatype TokenState = TokenState(currentToken: Option<string>, currentEndpoint: Option<string>, refreshInFlight: bool)

  const INITIAL_STATE := TokenState(None, None, false)

  /**
   * What the OAuth client answers during one `getValidToken`: the outcome of a refresh already
   * in flight, `getAccessToken`'s token or failure, the credentials' `resource_url`, and
   * `refreshAccessToken`'s response or failure.
   */
  datatype TokenSource = TokenSource(
    inFlight: Result<string, string>, access: Result<Option<string>, string>,
    resourceUrl: Option<string>, refresh: Result<TokenResponse, string>)

  // ---------------------------------------------------------------------------
  // Endpoint

  lemma StartsWithAppend(s: string, t: string, u: string)
    requires StartsWith(s, t)
    ensures StartsWith(s + u, t)
  {
    assert (s + u)[..|t|] == s[..|t|];
  }

  /** getCurrentEndpoint: the current endpoint or the DashScope default, with a protocol and a `/v1` suffix. */
  function Endpoint(current: Option<string>): (r: string)
    ensures StartsWith(r, "http") && EndsWith(r, "/v1")
    ensures !Truthy(current) ==> r == DEFAULT_QWEN_BASE_URL
    ensures Truthy(current) && StartsWith(current.value, "http") && EndsWith(current.value, "/v1") ==> r == current.value
    ensures Truthy(current) && StartsWith(current.value, "http") && !EndsWith(current.value, "/v1") ==>
      r == current.value + "/v1"
    ensures Truthy(current) && !StartsWith(current.value, "http") && !EndsWith("https://" + current.value, "/v1") ==>
      r == "https://" + current.value + "/v1"
    ensures Truthy(current) && !StartsWith(current.value, "http") && EndsWith("https://" + current.value, "/v1") ==>
      r == "https://" + current.value
  {
    assert StartsWith(DEFAULT_QWEN_BASE_URL, "http") by {
      StartsWithAppend("https://" + DASHSCOPE_PATH, "http", "/v1");
    }
    assert EndsWith(DEFAULT_QWEN_BASE_URL, "/v1");
    var base := if Truthy(current) then current.value else DEFAULT_QWEN_BASE_URL;
    var normalized := if StartsWith(base, "http") then base else "https://" + base;
    assert StartsWith(normalized, "http") by {
      if !StartsWith(base, "http") {
        StartsWithAppend("https://", "http", base);
      }
    }
    if EndsWith(normalized, "/v1") then normalized
    else
      StartsWithAppend(normalized, "http", "/v1");
      normalized + "/v1"
  }

  /** The endpoint of an endpoint is itself: normalising twice changes nothing. */
  lemma EndpointIdempotent(current: Option<string>)
    ensures Endpoint(Some(Endpoint(current))) == Endpoint(current)
  {
  }

  /** A bare host gets the protocol and the suffix. */
  lemma EndpointOfBareHost()
    ensures Endpoint(Some("custom-endpoint.com")) == "https://custom-endpoint.com/v1"
  {
    var h := "custom-endpoint.com";
    assert !StartsWith(h, "http") by {
      assert h[..4] == "cust";
    }
    var u := "https://" + h;
    assert u == "https://custom-endpoint.com";
    assert !EndsWith(u, "/v1") by {
      assert u[|u| - 3..] == "com";
    }
    assert u + "/v1" == "https://custom-endpoint.com/v1";
  }

  /** A bare host that already ends in `/v1` only gains the protocol. */
  lemma EndpointOfBareHostWithSuffix(v: string)
    requires !StartsWith(v, "http") && EndsWith(v, "/v1")
    ensures Endpoint(Some(v)) == "https://" + v
  {
    var u := "https://" + v;
    assert u[|u| - 3..] == v[|v| - 3..];
  }

  /** A URL with a protocol but without `/v1` keeps its protocol and gains the suffix. */
  lemma EndpointOfUrlWithoutSuffix()
    ensures Endpoint(Some("https://custom-endpoint.com")) == "https://custom-endpoint.com/v1"
  {
    var v := "https://custom-endpoint.com";
    assert StartsWith(v, "http") by {
      assert v[0] == 'h' && v[1] == 't' && v[2] == 't' && v[3] == 'p';
      assert v[..4] == "http";
    }
    assert !EndsWith(v, "/v1") by { assert v[|v| - 1] == 'm'; }
    assert v + "/v1" == "https://custom-endpoint.com/v1";
  }

  /** A complete URL is kept as it is. */
  lemma EndpointOfCompleteUrl()
    ensures Endpoint(Some("https://custom-endpoint.com/v1")) == "https://custom-endpoint.com/v1"
  {
    var v := "https://custom-endpoint.com/v1";
    assert StartsWith(v, "http") by {
      assert v[0] == 'h' && v[1] == 't' && v[2] == 't' && v[3] == 'p';
      assert v[..4] == "http";
    }
    assert EndsWith(v, "/v1") by {
      assert v[|v| - 3] == '/' && v[|v| - 2] == 'v' && v[|v| - 1] == '1';
      assert v[|v| - 3..] == "/v1";
    }
  }

  // ---------------------------------------------------------------------------
  // Authentication errors

  /** `status || code`. */
  function ErrorCode(e: Thrown): Option<int>
    requires e.Raised?
  {
    if e.status.Some? && e.status.value != 0 then e.status else e.code
  }

  /** isAuthError. */
  predicate IsAuthError(e: Thrown) {
    if e.Falsy? then false
    else
      ErrorCode(e) == Some(400) || ErrorCode(e) == Some(401) || ErrorCode(e) == Some(403)
      || AuthMessage(Lower(e.text))
  }

  /** The lower-cased message mentions an authentication failure. */
  predicate AuthMessage(message: string) {
    Contains(message, "unauthorized") || Contains(message, "forbidden")
      || Contains(message, "invalid api key") || Contains(message, "invalid access token")
      || Contains(message, "token expired") || Contains(message, "authentication")
      || Contains(message, "access denied")
      || (Contains(message, "token") && Contains(message, "expired"))
  }

  /** shouldSuppressErrorLogging. */
  predicate ShouldSuppressErrorLogging(e: Thrown) {
    IsAuthError(e)
  }

  lemma MissingCharNotContained(s: string, t: string, c: char)
    requires c in t && c !in s
    ensures !Contains(s, t)
  {
    var k :| 0 <= k < |t| && t[k] == c;
    forall i: nat | i <= |s|
      ensures !OccursAt(s, t, i)
    {
      if i + |t| <= |s| {
        assert s[i..i + |t|][k] == s[i + k];
        assert s[i + k] in s;
      }
    }
  }

  /** Status or code 400, 401 or 403 is an authentication error; a falsy value never is. */
  lemma AuthErrorByCode(text: string, status: Option<int>, code: Option<int>)
    ensures !IsAuthError(Falsy)
    ensures var e := Raised(text, status, code);
      ErrorCode(e) == Some(400) || ErrorCode(e) == Some(401) || ErrorCode(e) == Some(403) ==> IsAuthError(e)
    ensures status.Some? && status.value in {400, 401, 403} ==> IsAuthError(Raised(text, status, code))
    ensures (status.None? || status == Some(0)) && code.Some? && code.value in {400, 401, 403} ==>
      IsAuthError(Raised(text, status, code))
  {
  }

  /** The message test ignores case. */
  lemma AuthErrorIgnoresCase(text: string, status: Option<int>, code: Option<int>)
    ensures IsAuthError(Raised(Lower(text), status, code)) == IsAuthError(Raised(text, status, code))
  {
    LowerIdempotent(text);
  }

  /** "Token has expired" mentions both "token" and "expired", so it counts. */
  lemma ExpiredTokenIsAuthError()
    ensures IsAuthError(Raised("Token has expired", None, None))
  {
    var m := "token has expired";
    assert Lower("Token has expired") == m;
    assert OccursAt(m, "token", 0);
    assert OccursAt(m, "expired", 10);
  }

  lemma RateLimitLower()
    ensures Lower("Rate limit exceeded") == "rate limit exceeded"
  {
  }

  /** The characters of "rate limit exceeded". */
  predicate InRateLimitAlphabet(c: char) {
    c in {'r', 'a', 't', 'e', ' ', 'l', 'i', 'm', 'x', 'c', 'd'}
  }

  lemma RateLimitAlphabet()
    ensures forall c :: c in "rate limit exceeded" ==> InRateLimitAlphabet(c)
  {
  }

  /** Every authentication phrase holds one of 'u', 'o', 'v' or 'n'. */
  lemma NoAuthPhraseWithout(s: string)
    requires 'u' !in s && 'o' !in s && 'v' !in s && 'n' !in s
    ensures !AuthMessage(s)
  {
    assert "unauthorized"[0] == 'u' && "forbidden"[1] == 'o' && "invalid api key"[2] == 'v';
    assert "invalid access token"[2] == 'v' && "token expired"[1] == 'o' && "authentication"[1] == 'u';
    assert "access denied"[9] == 'n' && "token"[1] == 'o';
    MissingCharNotContained(s, "unauthorized", 'u');
    MissingCharNotContained(s, "forbidden", 'o');
    MissingCharNotContained(s, "invalid api key", 'v');
    MissingCharNotContained(s, "invalid access token", 'v');
    MissingCharNotContained(s, "token expired", 'o');
    MissingCharNotContained(s, "authentication", 'u');
    MissingCharNotContained(s, "access denied", 'n');
    MissingCharNotContained(s, "token", 'o');
  }

  lemma RateLimitMessageIsNotAuth()
    ensures !AuthMessage("rate limit exceeded")
  {
    var n := "rate limit exceeded";
    RateLimitAlphabet();
    assert !InRateLimitAlphabet('u') && !InRateLimitAlphabet('o');
    assert !InRateLimitAlphabet('v') && !InRateLimitAlphabet('n');
    NoAuthPhraseWithout(n);
  }

  /** "Rate limit exceeded" with status 429 or 500 is not an authentication error. */
  lemma RateLimitIsNotAuthError()
    ensures !IsAuthError(Raised("Rate limit exceeded", Some(500), None))
    ensures !IsAuthError(Raised("Rate limit exceeded", Some(429), None))
  {
    RateLimitLower();
    RateLimitMessageIsNotAuth();
  }

  // ---------------------------------------------------------------------------
  // Token management, as functions of the token state

  /** performTokenRefresh. */
  function RefreshStep(s: TokenState, reply: Result<TokenResponse, string>): (Result<string, string>, TokenState) {
    match reply
    case Err(m) => (Err(m), s)
    case Ok(resp) =>
      if IsErrorResponse(resp) then (Err(ErrorDetails(resp.error, resp.errorDescription)), s)
      else if !Truthy(resp.accessToken) then (Err(NO_TOKEN_RETURNED_MESSAGE), s)
      else
        (Ok(resp.accessToken.value),
         s.(currentToken := resp.accessToken,
            currentEndpoint := if Truthy(resp.resourceUrl) then resp.resourceUrl else s.currentEndpoint))
  }

  /** refreshToken: a refresh that clears refreshPromise when it settles. */
  function ForcedRefreshStep(s: TokenState, reply: Result<TokenResponse, string>): (Result<string, string>, TokenState) {
    var (r, s') := RefreshStep(s, reply);
    (r, s'.(refreshInFlight := false))
  }

  /** getValidToken. */
  function ValidTokenStep(s: TokenState, src: TokenSource): (Result<string, string>, TokenState) {
    if s.refreshInFlight then (src.inFlight, s)
    else if src.access.Ok? && Truthy(src.access.value) then
      (Ok(src.access.value.value),
       s.(currentToken := src.access.value,
          currentEndpoint := if Truthy(src.resourceUrl) then src.resourceUrl else s.currentEndpoint))
    else ForcedRefreshStep(s, src.refresh)
  }

  /** getTokenWithRetry: any failure becomes the re-authenticate message. */
  function TokenWithRetryStep(s: TokenState, src: TokenSource): (Result<string, string>, TokenState) {
    var (r, s') := ValidTokenStep(s, src);
    (if r.Ok? then r else Err(FAILED_TOKEN_MESSAGE), s')
  }

  /** The outcome of a wrapped call: the result, the tokens the operation ran with, and the token state. */
  datatype Call<R> = Call(result: Result<R, Thrown>, tokensUsed: seq<string>, state: TokenState)

  /**
   * withValidToken around an operation that calls `api` with the token and the current
   * endpoint; `retry` is the response of the forced refresh after an authentication failure.
   */
  function WithValidTokenSpec<R>(s: TokenState, src: TokenSource, retry: Result<TokenResponse, string>,
                                 api: (string, string) -> Result<R, Thrown>): Call<R>
  {
    var (t, s1) := TokenWithRetryStep(s, src);
    if t.Err? then Call(Err(Raised(t.error, None, None)), [], s1)
    else
      var first := api(t.value, Endpoint(s1.currentEndpoint));
      if first.Ok? || !IsAuthError(first.error) then Call(first, [t.value], s1)
      else
        var (renewed, s2) := ForcedRefreshStep(s1, retry);
        if renewed.Err? then Call(Err(Raised(renewed.error, None, None)), [t.value], s2)
        else Call(api(renewed.value, Endpoint(s2.currentEndpoint)), [t.value, renewed.value], s2)
  }

  // ---------------------------------------------------------------------------
  // The generator

  /**
   * QwenContentGenerator: the token fields, and the `apiKey` and `baseURL` of the underlying
   * OpenAI client that each call overrides.
   */
  class Generator {
    var currentToken: Option<string>
    var currentEndpoint: Option<string>
    var refreshInFlight: bool
    var apiKey: string
    var baseUrl: string

    function State(): TokenState
      reads this
    {
      TokenState(currentToken, currentEndpoint, refreshInFlight)
    }

    constructor ()
      ensures State() == INITIAL_STATE
      ensures apiKey == "" && baseUrl == DEFAULT_QWEN_BASE_URL
    {
      currentToken := None;
      currentEndpoint := None;
      refreshInFlight := false;
      apiKey := "";
      baseUrl := DEFAULT_QWEN_BASE_URL;
    }

    function GetCurrentEndpoint(): string
      reads this
    {
      Endpoint(currentEndpoint)
    }

    function GetCurrentToken(): Option<string>
      reads this
    {
      currentToken
    }

    method ClearToken()
      modifies this
      ensures State() == INITIAL_STATE
      ensures apiKey == old(apiKey) && baseUrl == old(baseUrl)
    {
      currentToken := None;
      currentEndpoint := None;
      refreshInFlight := false;
    }

    method PerformTokenRefresh(reply: Result<TokenResponse, string>) returns (r: Result<string, string>)
      modifies this
      ensures (r, State()) == RefreshStep(old(State()), reply)
      ensures apiKey == old(apiKey) && baseUrl == old(baseUrl)
    {
      if reply.Err? {
        return Err(reply.error);
      }
      var response := reply.value;
      if IsErrorResponse(response) {
        return Err(ErrorDetails(response.error, response.errorDescription));
      }
      if !Truthy(response.accessToken) {
        return Err(NO_TOKEN_RETURNED_MESSAGE);
      }
      currentToken := response.accessToken;
      if Truthy(response.resourceUrl) {
        currentEndpoint := response.resourceUrl;
      }
      return Ok(response.accessToken.value);
    }

    method RefreshToken(reply: Result<TokenResponse, string>) returns (r: Result<string, string>)
      modifies this
      ensures (r, State()) == ForcedRefreshStep(old(State()), reply)
      ensures apiKey == old(apiKey) && baseUrl == old(baseUrl)
    {
      refreshInFlight := true;
      r := PerformTokenRefresh(reply);
      refreshInFlight := false;
    }

    method GetValidToken(src: TokenSource) returns (r: Result<string, string>)
      modifies this
      ensures (r, State()) == ValidTokenStep(old(State()), src)
      ensures apiKey == old(apiKey) && baseUrl == old(baseUrl)
    {
      if refreshInFlight {
        return src.inFlight;
      }
      if src.access.Ok? {
        var token := src.access.value;
        if Truthy(token) {
          currentToken := token;
          if Truthy(src.resourceUrl) {
            currentEndpoint := src.resourceUrl;
          }
          return Ok(token.value);
        }
      }
      r := RefreshToken(src.refresh);
    }

    method GetTokenWithRetry(src: TokenSource) returns (r: Result<string, string>)
      modifies this
      ensures (r, State()) == TokenWithRetryStep(old(State()), src)
      ensures apiKey == old(apiKey) && baseUrl == old(baseUrl)
    {
      r := GetValidToken(src);
      if r.Err? {
        r := Err(FAILED_TOKEN_MESSAGE);
      }
    }

    /**
     * The operation each call wraps: points the client at `token` and the current endpoint,
     * calls `api`, and puts the old values back — always, or for a stream only on failure.
     */
    method CallWithToken<R>(streaming: bool, token: string, api: (string, string) -> Result<R, Thrown>)
      returns (r: Result<R, Thrown>)
      modifies this
      ensures r == api(token, Endpoint(currentEndpoint))
      ensures State() == old(State())
      ensures !streaming || r.Err? ==> apiKey == old(apiKey) && baseUrl == old(baseUrl)
      ensures streaming && r.Ok? ==> apiKey == token && baseUrl == Endpoint(currentEndpoint)
    {
      var originalApiKey := apiKey;
      var originalBaseUrl := baseUrl;
      apiKey := token;
      baseUrl := GetCurrentEndpoint();
      r := api(apiKey, baseUrl);
      if !streaming || r.Err? {
        apiKey := originalApiKey;
        baseUrl := originalBaseUrl;
      }
    }

    /**
     * withValidToken (and withValidTokenForStream): obtains a token, runs the operation, and
     * after an authentication failure refreshes once and runs it once more.
     */
    method WithValidToken<R>(streaming: bool, src: TokenSource, retry: Result<TokenResponse, string>,
                             api: (string, string) -> Result<R, Thrown>)
      returns (r: Result<R, Thrown>, tokensUsed: seq<string>)
      modifies this
      ensures Call(r, tokensUsed, State()) == WithValidTokenSpec(old(State()), src, retry, api)
      ensures !streaming ==> apiKey == old(apiKey) && baseUrl == old(baseUrl)
      ensures streaming && r.Err? ==> apiKey == old(apiKey) && baseUrl == old(baseUrl)
      ensures streaming && r.Ok? ==> apiKey == tokensUsed[|tokensUsed| - 1] && baseUrl == Endpoint(currentEndpoint)
    {
      tokensUsed := [];
      var token := GetTokenWithRetry(src);
      if token.Err? {
        return Err(Raised(token.error, None, None)), tokensUsed;
      }
      r := CallWithToken(streaming, token.value, api);
      tokensUsed := [token.value];
      if r.Err? && IsAuthError(r.error) {
        var newToken := RefreshToken(retry);
        if newToken.Err? {
          return Err(Raised(newToken.error, None, None)), tokensUsed;
        }
        r := CallWithToken(streaming, newToken.value, api);
        tokensUsed := tokensUsed + [newToken.value];
      }
    }

    /** generateContent, countTokens and embedContent: the client's fields are restored whatever happens. */
    method GenerateContent<R>(src: TokenSource, retry: Result<TokenResponse, string>, api: (string, string) -> Result<R, Thrown>)
      returns (r: Result<R, Thrown>, tokensUsed: seq<string>)
      modifies this
      ensures Call(r, tokensUsed, State()) == WithValidTokenSpec(old(State()), src, retry, api)
      ensures apiKey == old(apiKey) && baseUrl == old(baseUrl)
    {
      r, tokensUsed := WithValidToken(false, src, retry, api);
    }

    /** generateContentStream: the client keeps the token and endpoint of a stream that starts. */
    method GenerateContentStream<R>(src: TokenSource, retry: Result<TokenResponse, string>,
                                    api: (string, string) -> Result<R, Thrown>)
      returns (r: Result<R, Thrown>, tokensUsed: seq<string>)
      modifies this
      ensures Call(r, tokensUsed, State()) == WithValidTokenSpec(old(State()), src, retry, api)
      ensures r.Err? ==> apiKey == old(apiKey) && baseUrl == old(baseUrl)
      ensures r.Ok? ==> apiKey == tokensUsed[|tokensUsed| - 1] && baseUrl == Endpoint(currentEndpoint)
    {
      r, tokensUsed := WithValidToken(true, src, retry, api);
    }
  }

  // ---------------------------------------------------------------------------
  // Properties

  /** A call that succeeds, or fails with an error that is not an authentication error, runs once with no refresh. */
  lemma SingleCallWithoutAuthError<R>(s: TokenState, src: TokenSource, retry: Result<TokenResponse, string>,
                                      api: (string, string) -> Result<R, Thrown>)
    requires TokenWithRetryStep(s, src).0.Ok?
    ensures var (t, s1) := TokenWithRetryStep(s, src);
      var first := api(t.value, Endpoint(s1.currentEndpoint));
      (first.Ok? || !IsAuthError(first.error)) ==>
        WithValidTokenSpec(s, src, retry, api) == Call(first, [t.value], s1)
  {
  }

  /** An authentication failure triggers exactly one refresh and exactly one more call, with the new token. */
  lemma RetryOnceOnAuthError<R>(s: TokenState, src: TokenSource, retry: Result<TokenResponse, string>,
                                api: (string, string) -> Result<R, Thrown>)
    requires TokenWithRetryStep(s, src).0.Ok?
    requires var (t, s1) := TokenWithRetryStep(s, src);
      var first := api(t.value, Endpoint(s1.currentEndpoint));
      first.Err? && IsAuthError(first.error)
    ensures var c := WithValidTokenSpec(s, src, retry, api);
      var (renewed, s2) := ForcedRefreshStep(TokenWithRetryStep(s, src).1, retry);
      1 <= |c.tokensUsed| <= 2
      && (|c.tokensUsed| == 2 <==> renewed.Ok?)
      && (renewed.Ok? ==> c.tokensUsed[1] == renewed.value && c.result == api(renewed.value, Endpoint(s2.currentEndpoint)))
      && (renewed.Err? ==> c.result == Err(Raised(renewed.error, None, None)))
      && !c.state.refreshInFlight
  {
  }

  /** The operation runs at most twice, and never without a token. */
  lemma AtMostTwoCalls<R>(s: TokenState, src: TokenSource, retry: Result<TokenResponse, string>,
                          api: (string, string) -> Result<R, Thrown>)
    ensures |WithValidTokenSpec(s, src, retry, api).tokensUsed| <= 2
    ensures TokenWithRetryStep(s, src).0.Err? <==> WithValidTokenSpec(s, src, retry, api).tokensUsed == []
  {
  }

  /** Every failure to obtain a token surfaces as the re-authenticate message, with no call made. */
  lemma TokenFailureSurfaces<R>(s: TokenState, src: TokenSource, retry: Result<TokenResponse, string>,
                                api: (string, string) -> Result<R, Thrown>)
    requires ValidTokenStep(s, src).0.Err?
    ensures WithValidTokenSpec(s, src, retry, api).result == Err(Raised(FAILED_TOKEN_MESSAGE, None, None))
  {
  }

  /** The errors whose logging is suppressed are exactly those that trigger the silent retry. */
  lemma SuppressedErrorsAreRetried<R>(s: TokenState, src: TokenSource, retry: Result<TokenResponse, string>,
                                      api: (string, string) -> Result<R, Thrown>, renewed: string)
    requires TokenWithRetryStep(s, src).0.Ok?
    requires ForcedRefreshStep(TokenWithRetryStep(s, src).1, retry).0 == Ok(renewed)
    requires var (t, s1) := TokenWithRetryStep(s, src); api(t.value, Endpoint(s1.currentEndpoint)).Err?
    ensures var (t, s1) := TokenWithRetryStep(s, src);
      ShouldSuppressErrorLogging(api(t.value, Endpoint(s1.currentEndpoint)).error)
      <==> |WithValidTokenSpec(s, src, retry, api).tokensUsed| == 2
  {
  }

  /**
   * A successful refresh stores the new token, and changes the endpoint only when the response
   * carries a resource URL; a failed one changes nothing.
   */
  lemma RefreshUpdatesToken(s: TokenState, reply: Result<TokenResponse, string>)
    ensures var (r, s') := RefreshStep(s, reply);
      (r.Ok? ==> (s'.currentToken == Some(r.value) && r.value != ""
         && s'.currentEndpoint == (if Truthy(reply.value.resourceUrl) then reply.value.resourceUrl else s.currentEndpoint)))
      && (r.Err? ==> s' == s)
      && (r.Ok? <==> reply.Ok? && !IsErrorResponse(reply.value) && Truthy(reply.value.accessToken))
  {
  }

  /** Once a token request or a forced refresh settles without another in flight, refreshPromise is cleared. */
  lemma RefreshPromiseCleared(s: TokenState, src: TokenSource, reply: Result<TokenResponse, string>)
    ensures !ForcedRefreshStep(s, reply).1.refreshInFlight
    ensures !s.refreshInFlight ==> !ValidTokenStep(s, src).1.refreshInFlight
  {
  }

  /** A usable cached token is returned without a refresh. */
  lemma CachedTokenUsed(s: TokenState, src: TokenSource)
    requires !s.refreshInFlight && src.access.Ok? && Truthy(src.access.value)
    ensures ValidTokenStep(s, src) == (Ok(src.access.value.value),
      s.(currentToken := src.access.value,
         currentEndpoint := if Truthy(src.resourceUrl) then src.resourceUrl else s.currentEndpoint))
  {
  }
}
