/**
 * The Qwen OAuth2 client (packages/core/dist/src/qwen/qwenOAuth2.js): form encoding, the
 * response type guards, the credential record and its validity test, token refresh,
 * the mapping of a device-token poll, the device-authorization polling loop and the failure
 * messages of `getQwenOAuthClient`. HTTP responses, the clock and the cancellation flag
 * are inputs.
 */
module QwenOAuth2 {
  import opened Wrappers
  import opened Text

  const TOKEN_REFRESH_BUFFER_MS: int := 30000
  const INITIAL_POLL_INTERVAL: nat := 2000
  const MAX_POLL_INTERVAL: nat := 10000

  /** The stored credentials; `expiryDate` is in milliseconds since the epoch. */
  datatype Credentials = Credentials(
    accessToken: Option<string>, refreshToken: Option<string>, tokenType: Option<string>,
    resourceUrl: Option<string>, expiryDate: Option<int>)

  const NO_CREDENTIALS := Credentials(None, None, None, None, None)

  /**
   * A parsed token-endpoint body. A field is Some when its key is present; `expiresIn` is in
   * seconds.
   */
  datatype TokenResponse = TokenResponse(
    accessToken: Option<string>, refreshToken: Option<string>, tokenType: Option<string>,
    expiresIn: Option<int>, resourceUrl: Option<string>, status: Option<string>, slowDown: bool,
    error: Option<string>, errorDescription: Option<string>)

  /** A parsed device-authorization body. */
  datatype DeviceAuthorization = DeviceAuthorization(
    deviceCode: Option<string>, verificationUriComplete: string, expiresIn: int,
    error: Option<string>, errorDescription: Option<string>)

  /** An error thrown by a request, with the `status` property some of them carry. */
  datatype RaisedError = RaisedError(message: string, status: Option<int>)

  // ---------------------------------------------------------------------------
  // Form encoding

  /** The `key=value` pieces of `objectToUrlEncoded`, each side passed through `encode`. */
  function FormPieces(pairs: seq<(string, string)>, encode: string -> string): (r: seq<string>)
    ensures |r| == |pairs|
    ensures forall i :: 0 <= i < |pairs| ==> r[i] == encode(pairs[i].0) + "=" + encode(pairs[i].1)
  {
    seq(|pairs|, i requires 0 <= i < |pairs| => encode(pairs[i].0) + "=" + encode(pairs[i].1))
  }

  /** objectToUrlEncoded. */
  function UrlEncoded(pairs: seq<(string, string)>, encode: string -> string): string {
    Join(FormPieces(pairs, encode), "&")
  }

  /**
   * When the encoder never emits '&' or '=', the body splits back into the encoded keys and
   * values, in order.
   */
  lemma UrlEncodedRoundTrip(pairs: seq<(string, string)>, encode: string -> string)
    requires |pairs| > 0
    requires forall s :: '&' !in encode(s) && '=' !in encode(s)
    ensures var pieces := Split(UrlEncoded(pairs, encode), '&');
      |pieces| == |pairs|
      && forall i :: 0 <= i < |pairs| ==> Split(pieces[i], '=') == [encode(pairs[i].0), encode(pairs[i].1)]
  {
    var pieces := FormPieces(pairs, encode);
    forall i | 0 <= i < |pieces| ensures '&' !in pieces[i] {
      assert pieces[i] == encode(pairs[i].0) + "=" + encode(pairs[i].1);
    }
    SplitJoin(pieces, '&');
    forall i | 0 <= i < |pairs| ensures Split(pieces[i], '=') == [encode(pairs[i].0), encode(pairs[i].1)] {
      var kv := [encode(pairs[i].0), encode(pairs[i].1)];
      SplitJoin(kv, '=');
      assert Join(kv, ['=']) == kv[0] + ['='] + Join(kv[1..], ['=']);
      assert kv[1..] == [encode(pairs[i].1)];
    }
  }

  // ---------------------------------------------------------------------------
  // Type guards

  /** isDeviceAuthorizationSuccess: the body has a `device_code`. */
  predicate IsDeviceAuthorizationSuccess(d: DeviceAuthorization) {
    d.deviceCode.Some?
  }

  /** isDeviceTokenSuccess: a non-empty string `access_token`. */
  predicate IsDeviceTokenSuccess(r: TokenResponse) {
    Truthy(r.accessToken)
  }

  /** isDeviceTokenPending. */
  predicate IsDeviceTokenPending(r: TokenResponse) {
    r.status == Some("pending")
  }

  /** isErrorResponse: an `error` key, whatever its value. */
  predicate IsErrorResponse(r: TokenResponse) {
    r.error.Some?
  }

  /** `${error || 'Unknown error'} - ${error_description || 'No details provided'}`. */
  function ErrorDetails(error: Option<string>, description: Option<string>): string {
    (if Truthy(error) then error.value else "Unknown error") + " - "
    + (if Truthy(description) then description.value else "No details provided")
  }

  /** The number a string of decimal digits denotes. */
  function DigitsValue(s: string): int {
    if s == [] then 0 else DigitsValue(s[..|s| - 1]) * 10 + (s[|s| - 1] as int - '0' as int)
  }

  /** Decimal digits of a natural number, as a template literal prints it. */
  function DecimalText(n: nat): (r: string)
    ensures |r| > 0
    ensures forall i :: 0 <= i < |r| ==> '0' <= r[i] <= '9'
    ensures DigitsValue(r) == n
    ensures r[0] == '0' ==> r == "0"
  {
    if n < 10 then
      var r := [('0' as int + n) as char];
      assert r[..0] == [];
      r
    else
      var prefix := DecimalText(n / 10);
      var r := prefix + [('0' as int + n % 10) as char];
      assert r[..|r| - 1] == prefix;
      r
  }

  // ---------------------------------------------------------------------------
  // Credentials and refresh

  /** isTokenValid: an expiry is set and lies more than the refresh buffer after `now`. */
  predicate IsTokenValid(c: Credentials, now: int) {
    c.expiryDate.Some? && c.expiryDate.value != 0 && now < c.expiryDate.value - TOKEN_REFRESH_BUFFER_MS
  }

  /** A response from the token endpoint to a refresh request. */
  datatype RefreshHttp = RefreshHttp(ok: bool, status: nat, statusText: string, text: string, body: TokenResponse)

  const REFRESH_EXPIRED_PHRASE: string := "Refresh token expired or invalid"
  const REFRESH_EXPIRED_MESSAGE: string := REFRESH_EXPIRED_PHRASE + ". Please use '/auth' to re-authenticate."
  const NO_REFRESH_TOKEN_MESSAGE: string := "No refresh token available"

  /** The credentials a successful refresh stores. */
  function RefreshedCredentials(prev: Credentials, body: TokenResponse, now: int): Credentials {
    Credentials(
      body.accessToken,
      if Truthy(body.refreshToken) then body.refreshToken else prev.refreshToken,
      body.tokenType,
      body.resourceUrl,
      if body.expiresIn.Some? then Some(now + body.expiresIn.value * 1000) else None)
  }

  /** What `refreshAccessToken` returns or throws, and the credentials it leaves. */
  function RefreshOutcome(c: Credentials, now: int, http: RefreshHttp): (Result<TokenResponse, string>, Credentials) {
    if !Truthy(c.refreshToken) then (Err(NO_REFRESH_TOKEN_MESSAGE), c)
    else if !http.ok then
      if http.status == 400 then (Err(REFRESH_EXPIRED_MESSAGE), c)
      else (Err("Token refresh failed: " + DecimalText(http.status) + " " + http.statusText + ". Response: " + http.text), c)
    else if IsErrorResponse(http.body) then
      (Err("Token refresh failed: " + ErrorDetails(http.body.error, http.body.errorDescription)), c)
    else (Ok(http.body), RefreshedCredentials(c, http.body, now))
  }

  /** What `getAccessToken` returns or throws, and the credentials it leaves. */
  function AccessTokenOutcome(c: Credentials, now: int, http: RefreshHttp): (Result<Option<string>, string>, Credentials) {
    if Truthy(c.accessToken) && IsTokenValid(c, now) then (Ok(c.accessToken), c)
    else if Truthy(c.refreshToken) then
      var (r, c') := RefreshOutcome(c, now, http);
      if r.Err? then (Err(r.error), c') else (Ok(r.value.accessToken), c')
    else (Ok(None), c)
  }

  /** QwenOAuth2Client: holds the current credentials. */
  class QwenOAuth2Client {
    var credentials: Credentials

    constructor ()
      ensures credentials == NO_CREDENTIALS
    {
      credentials := NO_CREDENTIALS;
    }

    method SetCredentials(c: Credentials)
      modifies this
      ensures credentials == c
    {
      credentials := c;
    }

    /** isTokenValid, at time `now`. */
    function TokenValid(now: int): bool
      reads this
    {
      IsTokenValid(credentials, now)
    }

    /** refreshAccessToken, given the token endpoint's response. */
    method RefreshAccessToken(now: int, http: RefreshHttp) returns (r: Result<TokenResponse, string>)
      modifies this
      ensures (r, credentials) == RefreshOutcome(old(credentials), now, http)
    {
      if !Truthy(credentials.refreshToken) {
        return Err(NO_REFRESH_TOKEN_MESSAGE);
      }
      if !http.ok {
        if http.status == 400 {
          return Err(REFRESH_EXPIRED_MESSAGE);
        }
        return Err("Token refresh failed: " + DecimalText(http.status) + " " + http.statusText + ". Response: " + http.text);
      }
      var responseData := http.body;
      if IsErrorResponse(responseData) {
        return Err("Token refresh failed: " + ErrorDetails(responseData.error, responseData.errorDescription));
      }
      var tokens := Credentials(
        responseData.accessToken,
        if Truthy(responseData.refreshToken) then responseData.refreshToken else credentials.refreshToken,
        responseData.tokenType,
        responseData.resourceUrl,
        if responseData.expiresIn.Some? then Some(now + responseData.expiresIn.value * 1000) else None);
      SetCredentials(tokens);
      return Ok(responseData);
    }

    /** getAccessToken, given the response a refresh would receive. */
    method GetAccessToken(now: int, http: RefreshHttp) returns (r: Result<Option<string>, string>)
      modifies this
      ensures (r, credentials) == AccessTokenOutcome(old(credentials), now, http)
    {
      if Truthy(credentials.accessToken) && TokenValid(now) {
        return Ok(credentials.accessToken);
      }
      if Truthy(credentials.refreshToken) {
        var refreshed := RefreshAccessToken(now, http);
        if refreshed.Err? {
          return Err(refreshed.error);
        }
        return Ok(refreshed.value.accessToken);
      }
      return Ok(None);
    }
  }

  // ---------------------------------------------------------------------------
  // Polling the token endpoint

  /** A response from the token endpoint to a device-token poll. */
  datatype PollHttp = PollHttp(ok: bool, status: nat, body: TokenResponse)

  const PENDING := TokenResponse(None, None, None, None, None, Some("pending"), false, None, None)

  /**
   * pollDeviceToken: maps the two standard not-yet responses of a failed poll to pending;
   * any other failed poll throws `raised`.
   */
  function PollDeviceToken(http: PollHttp, raised: RaisedError): (r: Result<TokenResponse, RaisedError>)
    ensures r.Ok? && !http.ok ==> IsDeviceTokenPending(r.value)
    ensures r.Ok? && !http.ok ==> (r.value.slowDown <==> http.status == 429)
    ensures r.Err? <==> (!http.ok
      && !(http.status == 400 && http.body.error == Some("authorization_pending"))
      && !(http.status == 429 && http.body.error == Some("slow_down")))
    ensures http.ok ==> r == Ok(http.body)
  {
    if !http.ok then
      if http.status == 400 && http.body.error == Some("authorization_pending") then Ok(PENDING)
      else if http.status == 429 && http.body.error == Some("slow_down") then Ok(PENDING.(slowDown := true))
      else Err(raised)
    else Ok(http.body)
  }

  // ---------------------------------------------------------------------------
  // The device-authorization polling loop

  datatype FailureReason = Cancelled | ErrorReason | RateLimit | Timeout

  datatype AuthResult = Success | Failure(reason: FailureReason)

  /**
   * What one attempt of the loop observes: the cancellation flag at the top of the attempt,
   * the outcome of the poll, the clock, and the cancellation flag after the wait (or, on a
   * caught error, before it).
   */
  datatype PollStep = PollStep(
    cancelledBeforePoll: bool, poll: Result<TokenResponse, RaisedError>, now: int, cancelledAfterWait: bool)

  /** The end of the loop: its result, the waits it requested, and the credentials it set. */
  datatype FlowEnd = FlowEnd(result: AuthResult, waits: seq<nat>, credentials: Option<Credentials>)

  /** What one attempt decides. */
  datatype StepResult =
    | Continue(next: nat, waited: seq<nat>)
    | Stop(end: FlowEnd)

  /** `Math.ceil(expires_in / 2)` attempts, none when the code is already expired. */
  function MaxAttempts(expiresIn: int): (n: nat)
    ensures expiresIn > 0 ==> 2 * n >= expiresIn && 2 * (n - 1) < expiresIn
    ensures expiresIn <= 0 ==> n == 0
  {
    if expiresIn <= 0 then 0 else (expiresIn + 1) / 2
  }

  /** `Math.min(pollInterval * 1.5, 10000)`. */
  function SlowDownInterval(interval: nat): nat {
    if interval * 3 / 2 < MAX_POLL_INTERVAL then interval * 3 / 2 else MAX_POLL_INTERVAL
  }

  /** The credentials stored on success. */
  function CredentialsFromToken(r: TokenResponse, now: int): Credentials {
    Credentials(
      r.accessToken,
      if Truthy(r.refreshToken) then r.refreshToken else None,
      r.tokenType,
      r.resourceUrl,
      if r.expiresIn.Some? && r.expiresIn.value != 0 then Some(now + r.expiresIn.value * 1000) else None)
  }

  /** The catch block of one attempt. */
  function OnPollError(e: RaisedError, p: PollStep, interval: nat): StepResult {
    if Contains(e.message, "401") || e.status == Some(401) then Stop(FlowEnd(Failure(ErrorReason), [], None))
    else if Contains(e.message, "429") || e.status == Some(429) then Stop(FlowEnd(Failure(RateLimit), [], None))
    else if p.cancelledAfterWait then Stop(FlowEnd(Failure(Cancelled), [], None))
    else Continue(interval, [interval])
  }

  /** One attempt of the loop, with poll interval `interval`. */
  function Step(p: PollStep, interval: nat): StepResult {
    if p.cancelledBeforePoll then Stop(FlowEnd(Failure(Cancelled), [], None))
    else
      match p.poll
      case Err(e) => OnPollError(e, p, interval)
      case Ok(resp) =>
        if IsDeviceTokenSuccess(resp) then Stop(FlowEnd(Success, [], Some(CredentialsFromToken(resp, p.now))))
        else if IsDeviceTokenPending(resp) then
          var next := if resp.slowDown then SlowDownInterval(interval) else INITIAL_POLL_INTERVAL;
          if p.cancelledAfterWait then Stop(FlowEnd(Failure(Cancelled), [next], None)) else Continue(next, [next])
        else if IsErrorResponse(resp) then
          OnPollError(RaisedError("Token polling failed: " + ErrorDetails(resp.error, resp.errorDescription), None), p, interval)
        else Continue(interval, [])
  }

  /** The loop from attempt `attempt` on, with `maxAttempts` attempts in all. */
  function Run(env: nat -> PollStep, attempt: nat, maxAttempts: nat, interval: nat): FlowEnd
    decreases maxAttempts - attempt
  {
    if attempt >= maxAttempts then FlowEnd(Failure(Timeout), [], None)
    else
      match Step(env(attempt), interval)
      case Stop(end) => end
      case Continue(next, waited) =>
        var rest := Run(env, attempt + 1, maxAttempts, next);
        FlowEnd(rest.result, waited + rest.waits, rest.credentials)
  }

  /** authWithQwenDeviceFlow, from the device-authorization response on. */
  function DeviceFlow(deviceAuth: Result<DeviceAuthorization, string>, env: nat -> PollStep): FlowEnd {
    if deviceAuth.Err? || !IsDeviceAuthorizationSuccess(deviceAuth.value) then FlowEnd(Failure(ErrorReason), [], None)
    else Run(env, 0, MaxAttempts(deviceAuth.value.expiresIn), INITIAL_POLL_INTERVAL)
  }

  /**
   * One pass of the polling loop's body: the poll, its try block and its catch block.
   * `interval` is the poll interval before the attempt.
   */
  method Attempt(observed: PollStep, interval: nat) returns (s: StepResult)
    ensures s == Step(observed, interval)
  {
    if observed.cancelledBeforePoll {
      return Stop(FlowEnd(Failure(Cancelled), [], None));
    }
    var pollInterval := interval;
    var raised: Option<RaisedError> := None;
    match observed.poll {
      case Err(e) =>
        raised := Some(e);
      case Ok(tokenResponse) =>
        if IsDeviceTokenSuccess(tokenResponse) {
          var credentials := CredentialsFromToken(tokenResponse, observed.now);
          return Stop(FlowEnd(Success, [], Some(credentials)));
        }
        if IsDeviceTokenPending(tokenResponse) {
          if tokenResponse.slowDown {
            pollInterval := SlowDownInterval(pollInterval);
          } else {
            pollInterval := INITIAL_POLL_INTERVAL;
          }
          if observed.cancelledAfterWait {
            return Stop(FlowEnd(Failure(Cancelled), [pollInterval], None));
          }
          return Continue(pollInterval, [pollInterval]);
        }
        if IsErrorResponse(tokenResponse) {
          var message := "Token polling failed: " + ErrorDetails(tokenResponse.error, tokenResponse.errorDescription);
          raised := Some(RaisedError(message, None));
        }
    }
    if raised.None? {
      return Continue(pollInterval, []);
    }
    var error := raised.value;
    if Contains(error.message, "401") || error.status == Some(401) {
      return Stop(FlowEnd(Failure(ErrorReason), [], None));
    }
    if Contains(error.message, "429") || error.status == Some(429) {
      return Stop(FlowEnd(Failure(RateLimit), [], None));
    }
    if observed.cancelledAfterWait {
      return Stop(FlowEnd(Failure(Cancelled), [], None));
    }
    return Continue(pollInterval, [pollInterval]);
  }

  /**
   * authWithQwenDeviceFlow. `deviceAuth` is what requestDeviceAuthorization returned or threw;
   * `env(k)` is what attempt `k` observes. Returns the result and the waits requested, and
   * stores the polled credentials in `client` on success.
   */
  method AuthWithQwenDeviceFlow(client: QwenOAuth2Client, deviceAuth: Result<DeviceAuthorization, string>,
                                env: nat -> PollStep)
    returns (result: AuthResult, waits: seq<nat>)
    modifies client
    ensures var f := DeviceFlow(deviceAuth, env);
      result == f.result && waits == f.waits
      && client.credentials == (if f.credentials.Some? then f.credentials.value else old(client.credentials))
  {
    waits := [];
    if deviceAuth.Err? {
      return Failure(ErrorReason), waits;
    }
    var d := deviceAuth.value;
    if !IsDeviceAuthorizationSuccess(d) {
      return Failure(ErrorReason), waits;
    }

    var pollInterval := INITIAL_POLL_INTERVAL;
    var maxAttempts := MaxAttempts(d.expiresIn);
    var attempt: nat := 0;
    ghost var whole := Run(env, 0, maxAttempts, INITIAL_POLL_INTERVAL);
    while attempt < maxAttempts
      invariant attempt <= maxAttempts
      invariant whole.result == Run(env, attempt, maxAttempts, pollInterval).result
      invariant whole.waits == waits + Run(env, attempt, maxAttempts, pollInterval).waits
      invariant whole.credentials == Run(env, attempt, maxAttempts, pollInterval).credentials
      invariant client.credentials == old(client.credentials)
      decreases maxAttempts - attempt
    {
      var step := Attempt(env(attempt), pollInterval);
      match step {
        case Stop(end) =>
          if end.credentials.Some? {
            client.SetCredentials(end.credentials.value);
          }
          return end.result, waits + end.waits;
        case Continue(next, waited) =>
          waits := waits + waited;
          pollInterval := next;
      }
      attempt := attempt + 1;
    }
    return Failure(Timeout), waits;
  }

  // ---------------------------------------------------------------------------
  // getQwenOAuthClient

  /**
   * The failure `getQwenOAuthClient` throws, if any: cached credentials that load take
   * precedence and must refresh; otherwise the device flow's result decides.
   */
  function GetQwenOAuthClient(cachedLoaded: bool, cachedRefresh: Result<(), string>, flow: AuthResult): Result<(), string> {
    if cachedLoaded then
      if cachedRefresh.Ok? then Ok(())
      else if Contains(cachedRefresh.error, REFRESH_EXPIRED_PHRASE) then
        Err("Cached Qwen credentials are invalid. Please re-authenticate.")
      else Err("Qwen token refresh failed: " + cachedRefresh.error)
    else
      match flow
      case Success => Ok(())
      case Failure(Timeout) => Err("Qwen OAuth authentication timed out")
      case Failure(Cancelled) => Err("Qwen OAuth authentication was cancelled by user")
      case Failure(RateLimit) => Err("Too many request for Qwen OAuth authentication, please try again later.")
      case Failure(ErrorReason) => Err("Qwen OAuth authentication failed")
  }

  // ---------------------------------------------------------------------------
  // Properties

  /** A token is valid only with an expiry, and exactly when `now` is before expiry minus 30 s. */
  lemma TokenValidity(c: Credentials, now: int)
    ensures c.expiryDate.None? ==> !IsTokenValid(c, now)
    ensures c.expiryDate.Some? && c.expiryDate.value != 0 ==>
      (IsTokenValid(c, now) <==> now + 30000 < c.expiryDate.value)
  {
  }

  /** A still-valid access token is returned as is, with no refresh and no change. */
  lemma ValidTokenNotRefreshed(c: Credentials, now: int, http: RefreshHttp)
    requires Truthy(c.accessToken) && IsTokenValid(c, now)
    ensures AccessTokenOutcome(c, now, http) == (Ok(c.accessToken), c)
  {
  }

  /** Without a valid access token, getAccessToken refreshes exactly when a refresh token exists. */
  lemma InvalidTokenRefreshes(c: Credentials, now: int, http: RefreshHttp)
    requires !(Truthy(c.accessToken) && IsTokenValid(c, now))
    ensures Truthy(c.refreshToken) ==> AccessTokenOutcome(c, now, http).1 == RefreshOutcome(c, now, http).1
    ensures Truthy(c.refreshToken) ==>
      var refreshed := RefreshOutcome(c, now, http).0;
      AccessTokenOutcome(c, now, http).0
        == (if refreshed.Err? then Err(refreshed.error) else Ok(refreshed.value.accessToken))
    ensures !Truthy(c.refreshToken) ==> AccessTokenOutcome(c, now, http) == (Ok(None), c)
  {
  }

  /** Refresh without a refresh token throws and leaves the credentials alone. */
  lemma RefreshNeedsRefreshToken(c: Credentials, now: int, http: RefreshHttp)
    requires !Truthy(c.refreshToken)
    ensures RefreshOutcome(c, now, http) == (Err("No refresh token available"), c)
  {
  }

  /**
   * A successful refresh keeps the old refresh token when the response omits one, and the new
   * credentials are valid until 30 s before `now + expires_in` seconds.
   */
  lemma RefreshMerge(c: Credentials, now: int, http: RefreshHttp)
    requires Truthy(c.refreshToken) && http.ok && !IsErrorResponse(http.body)
    requires http.body.expiresIn.Some? && now >= 0
    ensures var (r, c') := RefreshOutcome(c, now, http);
      r == Ok(http.body)
      && c'.accessToken == http.body.accessToken
      && c'.refreshToken == (if Truthy(http.body.refreshToken) then http.body.refreshToken else c.refreshToken)
      && Truthy(c'.refreshToken)
      && c'.expiryDate == Some(now + http.body.expiresIn.value * 1000)
      && (http.body.expiresIn.value > 30 ==> IsTokenValid(c', now))
  {
    var e := http.body.expiresIn.value;
    if e > 30 {
      assert e * 1000 > 30000;
    }
  }

  /** A failed refresh never changes the credentials. */
  lemma FailedRefreshKeepsCredentials(c: Credentials, now: int, http: RefreshHttp)
    ensures RefreshOutcome(c, now, http).0.Err? ==> RefreshOutcome(c, now, http).1 == c
  {
  }

  /** A rejected refresh token (HTTP 400) surfaces from getQwenOAuthClient as invalid cached credentials. */
  lemma ExpiredRefreshMapsToInvalidCache(c: Credentials, now: int, http: RefreshHttp, flow: AuthResult)
    requires Truthy(c.refreshToken) && !http.ok && http.status == 400
    ensures RefreshOutcome(c, now, http).0 == Err(REFRESH_EXPIRED_MESSAGE)
    ensures GetQwenOAuthClient(true, Err(REFRESH_EXPIRED_MESSAGE), flow)
         == Err("Cached Qwen credentials are invalid. Please re-authenticate.")
  {
    PrefixContained(REFRESH_EXPIRED_MESSAGE, REFRESH_EXPIRED_PHRASE) by {
      assert REFRESH_EXPIRED_MESSAGE[..|REFRESH_EXPIRED_PHRASE|] == REFRESH_EXPIRED_PHRASE;
    }
  }

  /** Without cached credentials, only a successful device flow yields a client. */
  lemma FlowDecidesWithoutCache(r: Result<(), string>, flow: AuthResult)
    ensures GetQwenOAuthClient(false, r, flow).Ok? <==> flow == Success
  {
  }

  /** The reachable poll intervals. */
  predicate Reachable(interval: nat) {
    interval == 2000 || interval == 3000 || interval == 4500 || interval == 6750 || interval == 10000
  }

  /** Slowing down from 2000 ms goes 3000, 4500, 6750 and then stays at 10000. */
  lemma SlowDownSchedule()
    ensures SlowDownInterval(2000) == 3000 && SlowDownInterval(3000) == 4500
    ensures SlowDownInterval(4500) == 6750 && SlowDownInterval(6750) == 10000
    ensures SlowDownInterval(10000) == 10000
  {
  }

  /** On every reachable interval, `interval * 3 / 2` is `interval * 1.5` exactly. */
  lemma SlowDownExact(interval: nat)
    requires Reachable(interval)
    ensures (interval * 3) % 2 == 0
  {
  }

  /** One attempt keeps the interval reachable, and every wait it requests is reachable. */
  lemma StepStaysReachable(p: PollStep, interval: nat)
    requires Reachable(interval)
    ensures Step(p, interval).Continue? ==> Reachable(Step(p, interval).next)
    ensures Step(p, interval).Continue? ==> forall w :: w in Step(p, interval).waited ==> Reachable(w)
    ensures Step(p, interval).Stop? ==> forall w :: w in Step(p, interval).end.waits ==> Reachable(w)
  {
  }

  /** Every wait the loop requests is one of 2000, 3000, 4500, 6750 or 10000 ms. */
  lemma {:induction false} WaitsReachable(env: nat -> PollStep, attempt: nat, maxAttempts: nat, interval: nat)
    requires Reachable(interval)
    ensures forall w :: w in Run(env, attempt, maxAttempts, interval).waits ==> Reachable(w)
    decreases maxAttempts - attempt
  {
    if attempt < maxAttempts {
      StepStaysReachable(env(attempt), interval);
      match Step(env(attempt), interval)
      case Stop(_) =>
      case Continue(next, waited) =>
        WaitsReachable(env, attempt + 1, maxAttempts, next);
    }
  }

  /** Each attempt waits at most once, so the loop requests at most `maxAttempts - attempt` waits. */
  lemma {:induction false} WaitsBounded(env: nat -> PollStep, attempt: nat, maxAttempts: nat, interval: nat)
    requires attempt <= maxAttempts
    ensures |Run(env, attempt, maxAttempts, interval).waits| <= maxAttempts - attempt
    decreases maxAttempts - attempt
  {
    if attempt < maxAttempts {
      StepShape(env(attempt), interval);
      match Step(env(attempt), interval)
      case Stop(_) =>
      case Continue(next, waited) =>
        WaitsBounded(env, attempt + 1, maxAttempts, next);
    }
  }

  /** One attempt waits at most once and never stops the loop with a timeout. */
  lemma StepShape(p: PollStep, interval: nat)
    ensures Step(p, interval).Stop? ==> |Step(p, interval).end.waits| <= 1
    ensures Step(p, interval).Stop? ==> Step(p, interval).end.result != Failure(Timeout)
    ensures Step(p, interval).Continue? ==> |Step(p, interval).waited| <= 1
    ensures p.cancelledBeforePoll ==> Step(p, interval).Stop?
    ensures p.cancelledAfterWait && Step(p, interval).Continue? ==> Step(p, interval).waited == []
  {
  }

  /**
   * A cancellation noticed after a pending poll's wait, or before the catch block's wait, ends
   * the flow as cancelled; only a 401 or 429 error takes precedence over it.
   */
  lemma CancelledAfterWait(p: PollStep, interval: nat)
    requires !p.cancelledBeforePoll && p.cancelledAfterWait
    ensures p.poll.Ok? && !IsDeviceTokenSuccess(p.poll.value) && IsDeviceTokenPending(p.poll.value) ==>
      Step(p, interval).Stop? && Step(p, interval).end.result == Failure(Cancelled)
    ensures (p.poll.Err? && !Contains(p.poll.error.message, "401") && p.poll.error.status != Some(401)
             && !Contains(p.poll.error.message, "429") && p.poll.error.status != Some(429)) ==>
      Step(p, interval) == Stop(FlowEnd(Failure(Cancelled), [], None))
  {
  }

  /**
   * A timeout means every attempt polled: none saw the cancellation flag at its top and none
   * stopped the loop.
   */
  lemma {:induction false} TimeoutMeansNoCancel(env: nat -> PollStep, attempt: nat, maxAttempts: nat, interval: nat)
    ensures Run(env, attempt, maxAttempts, interval).result == Failure(Timeout) ==>
      forall k :: attempt <= k < maxAttempts ==> !env(k).cancelledBeforePoll
    decreases maxAttempts - attempt
  {
    if attempt < maxAttempts {
      StepShape(env(attempt), interval);
      match Step(env(attempt), interval)
      case Stop(end) =>
      case Continue(next, waited) =>
        TimeoutMeansNoCancel(env, attempt + 1, maxAttempts, next);
    }
  }

  /** Success always comes with credentials carrying the access token that was polled. */
  lemma {:induction false} SuccessSetsCredentials(env: nat -> PollStep, attempt: nat, maxAttempts: nat, interval: nat)
    ensures var f := Run(env, attempt, maxAttempts, interval);
      f.result == Success <==> f.credentials.Some?
    ensures var f := Run(env, attempt, maxAttempts, interval);
      f.credentials.Some? ==> Truthy(f.credentials.value.accessToken)
    decreases maxAttempts - attempt
  {
    if attempt < maxAttempts {
      match Step(env(attempt), interval)
      case Stop(end) =>
      case Continue(next, waited) =>
        SuccessSetsCredentials(env, attempt + 1, maxAttempts, next);
    }
  }

  /** A device code with no lifetime left times out without polling. */
  lemma ExpiredCodeTimesOut(d: DeviceAuthorization, env: nat -> PollStep)
    requires IsDeviceAuthorizationSuccess(d) && d.expiresIn <= 0
    ensures DeviceFlow(Ok(d), env) == FlowEnd(Failure(Timeout), [], None)
  {
  }

  /** Cancellation before the first poll ends the flow as cancelled. */
  lemma CancelledBeforeFirstPoll(d: DeviceAuthorization, env: nat -> PollStep)
    requires IsDeviceAuthorizationSuccess(d) && d.expiresIn > 0 && env(0).cancelledBeforePoll
    ensures DeviceFlow(Ok(d), env).result == Failure(Cancelled)
  {
  }

  /** A poll that throws with status 401 or 429 ends the flow as error or rate-limited. */
  lemma StatusStopsPolling(p: PollStep, interval: nat, e: RaisedError)
    requires !p.cancelledBeforePoll && p.poll == Err(e)
    ensures e.status == Some(401) ==> Step(p, interval) == Stop(FlowEnd(Failure(ErrorReason), [], None))
    ensures e.status == Some(429) && !Contains(e.message, "401") ==> Step(p, interval) == Stop(FlowEnd(Failure(RateLimit), [], None))
  {
  }

  /** A device-authorization response without a device code fails the flow with reason error. */
  lemma MissingDeviceCodeFails(d: DeviceAuthorization, env: nat -> PollStep)
    requires d.deviceCode.None?
    ensures DeviceFlow(Ok(d), env) == FlowEnd(Failure(ErrorReason), [], None)
  {
  }
}
