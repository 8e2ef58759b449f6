/**
 * The DigitalOcean provider's client construction (package `config`):
 * the rate-limit-aware retry backoff, the transport chain and client
 * factory `Config.Client`, and the Spaces session constructor
 * `CombinedConfig.SpacesClient`.
 *
 * Library behaviour that the package only calls (retryablehttp's default
 * backoff, godo.New, url.Parse, html/template, the AWS session constructor,
 * the float-to-Duration conversion) is passed in as function values, so
 * every property below holds whatever those libraries do.
 */
module DigitalOceanConfig {
  import opened Wrappers
  import opened GoInt
  import StrConv
  import Strings

  // ---------------------------------------------------------------------------
  // Durations, responses and the backoff strategy
  // ---------------------------------------------------------------------------

  /** `time.Duration`: a signed 64-bit count of nanoseconds. */
  type Duration = Int64

  /** `time.Second`. */
  const Second: Duration := 1_000_000_000

  /** `http.StatusTooManyRequests`. */
  const StatusTooManyRequests: int := 429

  /** The canonical header key the API uses for its rate-limit reset time. */
  const RateLimitResetHeader: string := "Ratelimit-Reset"

  /** The parts of an `*http.Response` the backoff looks at; `None` is a nil response. */
  datatype Response = Response(statusCode: int, header: map<string, seq<string>>)

  /** The signature of a retryablehttp backoff: `(min, max, attemptNum, resp) -> wait`. */
  type BackoffFn = (Duration, Duration, int, Option<Response>) -> Duration

  /**
   * A 429 response whose header map holds the reset key holds at least one
   * value under it (net/http never stores an empty slice), so `s[0]` is safe.
   */
  predicate ResetValuesPresent(resp: Option<Response>) {
    resp.Some? && resp.value.statusCode == StatusTooManyRequests
      && RateLimitResetHeader in resp.value.header
    ==> |resp.value.header[RateLimitResetHeader]| > 0
  }

  /** The reset timestamp of a 429 response, when its first reset value parses as a base-10 int64. */
  function ResetTimestamp(resp: Option<Response>): (t: Option<Int64>)
    requires ResetValuesPresent(resp)
    ensures t.Some? ==> resp.Some? && resp.value.statusCode == StatusTooManyRequests
    ensures t.Some? ==> RateLimitResetHeader in resp.value.header
  {
    if resp.Some? && resp.value.statusCode == StatusTooManyRequests
      && RateLimitResetHeader in resp.value.header
    then StrConv.ParseInt(resp.value.header[RateLimitResetHeader][0])
    else None
  }

  /**
   * `time.Second * time.Duration(resetUnix - nowUnix)`: both the subtraction
   * and the product are int64 operations and wrap around.
   */
  function RateLimitSleep(reset: Int64, now: Int64): (sleep: Duration)
    ensures IsInt64(Second * (reset - now)) ==> sleep == Second * (reset - now)
  {
    Wrap64(Second * Wrap64(reset - now))
  }

  /**
   * Even when the product wraps, the sleep stays a whole number of 512 ns
   * steps: `time.Second` is 512 * 1953125 and 2^64 is a multiple of 512.
   */
  lemma RateLimitSleepGranularity(reset: Int64, now: Int64)
    ensures RateLimitSleep(reset, now) % 512 == 0
  {
    var d := Wrap64(reset - now);
    var r := Wrap64(Second * d);
    var q := (Second * d - r) / TwoTo64;
    assert Second * d - r == q * 0x1_0000_0000_0000_0000;
    var m := 1953125 * d - q * 0x80_0000_0000_0000;
    assert r == 512 * m;
  }

  /** Whether the rate-limit branch returns its own wait rather than falling through to the default. */
  predicate WaitsForRateLimit(max: Duration, resp: Option<Response>, now: Int64)
    requires ResetValuesPresent(resp)
  {
    ResetTimestamp(resp).Some?
    && (RateLimitSleep(ResetTimestamp(resp).value, now) > max
        || RateLimitSleep(ResetTimestamp(resp).value, now) > 0)
  }

  /**
   * `digitalOceanAPIBackoff`: on a 429 whose reset header parses, wait until
   * the reset time, capped at `max`; a non-positive wait (unless `max` is
   * below it, when `max` is returned) and every other response fall back to
   * `defaultBackoff`. `now` is the Unix time the
   * function would read from the clock.
   */
  function DigitalOceanAPIBackoff(
    min: Duration, max: Duration, attemptNum: int, resp: Option<Response>,
    now: Int64, defaultBackoff: BackoffFn): (wait: Duration)
    requires ResetValuesPresent(resp)
    ensures WaitsForRateLimit(max, resp, now) ==> wait <= max && (wait == max || wait > 0)
    ensures !WaitsForRateLimit(max, resp, now) ==> wait == defaultBackoff(min, max, attemptNum, resp)
  {
    match ResetTimestamp(resp)
    case Some(reset) =>
      var sleep := RateLimitSleep(reset, now);
      if sleep > max then max
      else if sleep > 0 then sleep
      else defaultBackoff(min, max, attemptNum, resp)
    case None =>
      defaultBackoff(min, max, attemptNum, resp)
  }

  /** A nil response or any status other than 429 takes the default backoff. */
  lemma NotRateLimitedFallsBack(
    min: Duration, max: Duration, attemptNum: int, resp: Option<Response>,
    now: Int64, defaultBackoff: BackoffFn)
    requires resp.None? || resp.value.statusCode != StatusTooManyRequests
    ensures DigitalOceanAPIBackoff(min, max, attemptNum, resp, now, defaultBackoff)
         == defaultBackoff(min, max, attemptNum, resp)
  {
  }

  /** A 429 without a reset header, or whose first reset value is not a base-10 int64, takes the default backoff. */
  lemma UnusableResetFallsBack(
    min: Duration, max: Duration, attemptNum: int, r: Response,
    now: Int64, defaultBackoff: BackoffFn)
    requires r.statusCode == StatusTooManyRequests
    requires RateLimitResetHeader !in r.header
          || (|r.header[RateLimitResetHeader]| > 0 && StrConv.ParseInt(r.header[RateLimitResetHeader][0]).None?)
    ensures DigitalOceanAPIBackoff(min, max, attemptNum, Some(r), now, defaultBackoff)
         == defaultBackoff(min, max, attemptNum, Some(r))
  {
  }

  /** The response is a 429 whose first reset value parses to `reset`. */
  predicate RateLimitedUntil(r: Response, reset: Int64) {
    r.statusCode == StatusTooManyRequests
    && RateLimitResetHeader in r.header
    && |r.header[RateLimitResetHeader]| > 0
    && StrConv.ParseInt(r.header[RateLimitResetHeader][0]) == Some(reset)
  }

  /** A reset further away than `max` waits exactly `max`. */
  lemma FarResetClampsToMax(
    min: Duration, max: Duration, attemptNum: int, r: Response, reset: Int64,
    now: Int64, defaultBackoff: BackoffFn)
    requires RateLimitedUntil(r, reset)
    requires IsInt64(Second * (reset - now)) && Second * (reset - now) > max
    ensures DigitalOceanAPIBackoff(min, max, attemptNum, Some(r), now, defaultBackoff) == max
  {
  }

  /**
   * A reset in the future and within `max` waits exactly until the reset,
   * whatever `min`, the attempt number and the default backoff are.
   */
  lemma NearResetWaitsUntilReset(
    min: Duration, max: Duration, attemptNum: int, r: Response, reset: Int64,
    now: Int64, defaultBackoff: BackoffFn)
    requires RateLimitedUntil(r, reset)
    requires IsInt64(Second * (reset - now)) && 0 < Second * (reset - now) <= max
    ensures DigitalOceanAPIBackoff(min, max, attemptNum, Some(r), now, defaultBackoff)
         == Second * (reset - now)
  {
  }

  /**
   * A reset that is now or already past (clock skew) never yields its zero or
   * negative wait: unless `max` itself is below it, the default backoff is used.
   */
  lemma PastResetFallsBack(
    min: Duration, max: Duration, attemptNum: int, r: Response, reset: Int64,
    now: Int64, defaultBackoff: BackoffFn)
    requires RateLimitedUntil(r, reset)
    requires IsInt64(Second * (reset - now)) && Second * (reset - now) <= 0
    requires Second * (reset - now) <= max
    ensures DigitalOceanAPIBackoff(min, max, attemptNum, Some(r), now, defaultBackoff)
         == defaultBackoff(min, max, attemptNum, Some(r))
  {
  }

  /** A 429 response carrying `reset` as its rate-limit header, as the API sends it. */
  function RateLimitResponse(reset: int): (r: Response)
    ensures r.statusCode == StatusTooManyRequests && RateLimitResetHeader in r.header
  {
    Response(StatusTooManyRequests, map[RateLimitResetHeader := [StrConv.FormatInt(reset)]])
  }

  /** min = 1s, max = 60s, reset ten seconds ahead: wait 10s. */
  lemma ScenarioResetInTenSeconds(now: Int64, attemptNum: int, defaultBackoff: BackoffFn)
    requires IsInt64(now + 10)
    ensures DigitalOceanAPIBackoff(Second, 60 * Second, attemptNum,
              Some(RateLimitResponse(now + 10)), now, defaultBackoff) == 10 * Second
  {
    StrConv.ParseFormatRoundTrip(now + 10);
    NearResetWaitsUntilReset(Second, 60 * Second, attemptNum, RateLimitResponse(now + 10), now + 10, now, defaultBackoff);
  }

  /** min = 1s, max = 60s, reset 500 seconds ahead: wait is clamped to 60s. */
  lemma ScenarioResetBeyondMax(now: Int64, attemptNum: int, defaultBackoff: BackoffFn)
    requires IsInt64(now + 500)
    ensures DigitalOceanAPIBackoff(Second, 60 * Second, attemptNum,
              Some(RateLimitResponse(now + 500)), now, defaultBackoff) == 60 * Second
  {
    StrConv.ParseFormatRoundTrip(now + 500);
    FarResetClampsToMax(Second, 60 * Second, attemptNum, RateLimitResponse(now + 500), now + 500, now, defaultBackoff);
  }

  /** min = 1s, max = 60s, reset five seconds in the past: the default backoff, not -5s. */
  lemma ScenarioClockSkew(now: Int64, attemptNum: int, defaultBackoff: BackoffFn)
    requires IsInt64(now - 5)
    ensures DigitalOceanAPIBackoff(Second, 60 * Second, attemptNum,
              Some(RateLimitResponse(now - 5)), now, defaultBackoff)
         == defaultBackoff(Second, 60 * Second, attemptNum, Some(RateLimitResponse(now - 5)))
  {
    StrConv.ParseFormatRoundTrip(now - 5);
    PastResetFallsBack(Second, 60 * Second, attemptNum, RateLimitResponse(now - 5), now - 5, now, defaultBackoff);
  }

  /**
   * Go's int64 product wraps: a reset 9223372037 seconds (about 292 years)
   * ahead makes `sleep` negative, so for any `max` of at least zero the
   * default backoff is used although the true wait exceeds every such `max`.
   */
  lemma FarFutureResetWraps(
    min: Duration, max: Duration, attemptNum: int, now: Int64, defaultBackoff: BackoffFn)
    requires IsInt64(now + 9_223_372_037) && 0 <= max
    ensures Second * 9_223_372_037 > max
    ensures RateLimitSleep(now + 9_223_372_037, now) < 0
    ensures DigitalOceanAPIBackoff(min, max, attemptNum,
              Some(RateLimitResponse(now + 9_223_372_037)), now, defaultBackoff)
         == defaultBackoff(min, max, attemptNum, Some(RateLimitResponse(now + 9_223_372_037)))
  {
    var reset := now + 9_223_372_037;
    StrConv.ParseFormatRoundTrip(reset);
    assert ResetTimestamp(Some(RateLimitResponse(reset))) == Some(reset);
    assert Wrap64(reset - now) == 9_223_372_037;
    assert IsInt64(max);
    assert Second * 9_223_372_037 == 9_223_372_037_000_000_000 > MaxInt64;
    assert Wrap64(Second * 9_223_372_037) == 9_223_372_037_000_000_000 - TwoTo64;
  }

  /**
   * The wrapped product can also be positive: a reset 18446744074 seconds
   * (about 585 years) ahead gives a sleep of 0.29 s, which is returned as the
   * wait whenever `max` allows it.
   */
  lemma FarFutureResetWrapsPositive(
    min: Duration, max: Duration, attemptNum: int, now: Int64, defaultBackoff: BackoffFn)
    requires IsInt64(now + 18_446_744_074) && 290_448_384 <= max
    ensures RateLimitSleep(now + 18_446_744_074, now) == 290_448_384
    ensures DigitalOceanAPIBackoff(min, max, attemptNum,
              Some(RateLimitResponse(now + 18_446_744_074)), now, defaultBackoff) == 290_448_384
  {
    var reset := now + 18_446_744_074;
    StrConv.ParseFormatRoundTrip(reset);
    assert ResetTimestamp(Some(RateLimitResponse(reset))) == Some(reset);
    assert Wrap64(reset - now) == 18_446_744_074;
    assert Second * 18_446_744_074 == 18_446_744_074_000_000_000;
    assert Wrap64(Second * 18_446_744_074) == 18_446_744_074_000_000_000 - TwoTo64;
  }

  // ---------------------------------------------------------------------------
  // The transport chain
  // ---------------------------------------------------------------------------

  /** Which function a retryable client calls to compute its waits. */
  datatype BackoffHook = LibraryDefaultBackoff | DigitalOceanBackoff

  /** The retryable client fields the factory sets. */
  datatype RetrySettings = RetrySettings(
    retryMax: int, waitMin: Duration, waitMax: Duration, backoff: BackoffHook)

  /** `oauth2.StaticTokenSource` and `oauth2.ReuseTokenSource(cached, src)`. */
  datatype TokenSource =
    | StaticTokenSource(accessToken: string)
    | ReuseTokenSource(cached: Option<string>, source: TokenSource)

  /** An `http.RoundTripper`, built by wrapping one transport in another. */
  datatype Transport =
    | Retrying(settings: RetrySettings)               // retryablehttp's RoundTripper
    | OAuth(base: Transport, source: TokenSource)     // oauth2.Transport
    | Logging(name: string, base: Transport)          // the SDK's logging transport

  /** The capability each wrapper adds. */
  datatype Layer = Retries | Authenticates | Logs

  /** The layers a request passes through, outermost first. */
  function Layers(t: Transport): (ls: seq<Layer>)
    ensures |ls| > 0 && ls[|ls| - 1] == Retries
    ensures forall i :: 0 <= i < |ls| - 1 ==> ls[i] != Retries
  {
    match t
    case Retrying(_) => [Retries]
    case OAuth(base, _) => [Authenticates] + Layers(base)
    case Logging(_, base) => [Logs] + Layers(base)
  }

  /** The retry settings of the innermost transport. */
  function RetryLayer(t: Transport): RetrySettings {
    match t
    case Retrying(s) => s
    case OAuth(base, _) => RetryLayer(base)
    case Logging(_, base) => RetryLayer(base)
  }

  /** The token a token source hands out on its first use. */
  function FirstToken(src: TokenSource): string {
    match src
    case StaticTokenSource(tok) => tok
    case ReuseTokenSource(cached, inner) => if cached.Some? then cached.value else FirstToken(inner)
  }

  /** The wait a retryable client computes for a failed attempt, through the hook it holds. */
  function RetryWait(
    s: RetrySettings, attemptNum: int, resp: Option<Response>,
    now: Int64, defaultBackoff: BackoffFn): Duration
    requires ResetValuesPresent(resp)
  {
    match s.backoff
    case LibraryDefaultBackoff => defaultBackoff(s.waitMin, s.waitMax, attemptNum, resp)
    case DigitalOceanBackoff => DigitalOceanAPIBackoff(s.waitMin, s.waitMax, attemptNum, resp, now, defaultBackoff)
  }

  /** `*retryablehttp.Client`: the fields the factory overwrites one by one. */
  class RetryableClient {
    var retryMax: int
    var retryWaitMin: Duration
    var retryWaitMax: Duration
    var backoff: BackoffHook

    /** `retryablehttp.NewClient()`, starting from the library's defaults. */
    constructor (defaults: RetrySettings)
      ensures Settings() == defaults
    {
      retryMax := defaults.retryMax;
      retryWaitMin := defaults.waitMin;
      retryWaitMax := defaults.waitMax;
      backoff := defaults.backoff;
    }

    function Settings(): RetrySettings
      reads this
    {
      RetrySettings(retryMax, retryWaitMin, retryWaitMax, backoff)
    }

    /** `StandardClient()`: a plain HTTP client whose transport retries with this client's settings. */
    method StandardClient() returns (hc: HttpClient)
      ensures fresh(hc) && hc.transport == Retrying(Settings())
    {
      hc := new HttpClient(Retrying(Settings()));
    }
  }

  /** `*http.Client`: its transport is reassigned as layers are added. */
  class HttpClient {
    var transport: Transport

    constructor (transport: Transport)
      ensures this.transport == transport
    {
      this.transport := transport;
    }
  }

  /** A parsed `*url.URL`. */
  datatype URL = URL(scheme: string, host: string, path: string)

  /**
   * `*godo.Client`: the HTTP client it was built with and the agent string
   * passed to its `godo.SetUserAgent` option (how godo combines that with its
   * own agent string is godo's business); its base URL is reassigned.
   */
  class GodoClient {
    const httpClient: HttpClient
    const userAgentOption: string
    var baseURL: URL

    /** A successful `godo.New(httpClient, godo.SetUserAgent(userAgentOption))`, starting at `baseURL`. */
    constructor (httpClient: HttpClient, userAgentOption: string, baseURL: URL)
      ensures this.httpClient == httpClient && this.userAgentOption == userAgentOption && this.baseURL == baseURL
    {
      this.httpClient := httpClient;
      this.userAgentOption := userAgentOption;
      this.baseURL := baseURL;
    }
  }

  // ---------------------------------------------------------------------------
  // The client factory
  // ---------------------------------------------------------------------------

  datatype Error = Error(message: string)

  /** A compiled `html/template` template, known by its name and source text. */
  datatype Template = Template(name: string, source: string)

  /** The provider configuration `Config`; the retry waits are in (fractional) seconds. */
  datatype Config = Config(
    token: string,
    apiEndpoint: string,
    spacesAPIEndpoint: string,
    accessID: string,
    secretKey: string,
    terraformVersion: string,
    httpRetryMax: int,
    httpRetryWaitMax: real,
    httpRetryWaitMin: real)

  /** The handle `Client` returns: the godo client, the Spaces endpoint template and the Spaces credentials. */
  datatype CombinedConfig = CombinedConfig(
    client: GodoClient,
    spacesEndpointTemplate: Template,
    accessID: string,
    secretKey: string)

  /** What the factory needs from the libraries it calls. */
  datatype Libraries = Libraries(
    retryDefaults: RetrySettings,                    // retryablehttp.NewClient()'s field values
    secondsToDuration: real -> Duration,             // time.Duration(f * float64(time.Second))
    godoNewError: (Transport, string) -> Option<Error>, // whether godo.New(client, SetUserAgent(ua)) fails
    godoDefaultBaseURL: URL,                         // the base URL godo.New starts with
    parseURL: string -> Result<URL, Error>,          // url.Parse
    templateParseError: string -> Option<Error>)     // whether template.New("spaces").Parse fails

  /** The user agent the godo client sends. */
  function UserAgent(c: Config): (ua: string)
    ensures |ua| == 10 + |c.terraformVersion|
    ensures ua[..10] == "Terraform/" && ua[10..] == c.terraformVersion
  {
    "Terraform/" + c.terraformVersion
  }

  /** The retry settings the factory writes into the retryable client. */
  function ConfiguredRetry(c: Config, lib: Libraries): (s: RetrySettings)
    ensures s.retryMax == c.httpRetryMax && s.backoff == DigitalOceanBackoff
    ensures s.waitMin == lib.secondsToDuration(c.httpRetryWaitMin)
    ensures s.waitMax == lib.secondsToDuration(c.httpRetryWaitMax)
  {
    RetrySettings(c.httpRetryMax, lib.secondsToDuration(c.httpRetryWaitMin),
                  lib.secondsToDuration(c.httpRetryWaitMax), DigitalOceanBackoff)
  }

  /** The transport chain the factory builds: logging around OAuth around retries. */
  function ClientTransport(c: Config, lib: Libraries): (t: Transport)
    ensures t.Logging? && t.name == "DigitalOcean"
    ensures t.base.OAuth? && t.base.source == ReuseTokenSource(None, StaticTokenSource(c.token))
    ensures t.base.base == Retrying(ConfiguredRetry(c, lib))
  {
    Logging("DigitalOcean",
      OAuth(Retrying(ConfiguredRetry(c, lib)), ReuseTokenSource(None, StaticTokenSource(c.token))))
  }

  /** The error a template that does not parse is reported with. */
  function TemplateError(source: string, e: Error): (err: Error)
    ensures |err.message| == 48 + |source| + |e.message|
    ensures err.message[33..33 + |source|] == source
    ensures err.message[48 + |source|..] == e.message
  {
    Error("unable to parse spaces_endpoint '" + source + "' as template: " + e.message)
  }

  /**
   * `Config.Client`: builds the transport chain, then fails at the first of
   * godo.New, url.Parse and the template parse that fails; on success the
   * handle holds the godo client (with the chain, the user agent and the
   * parsed base URL), the template and the credential pair unchanged.
   */
  method Client(c: Config, lib: Libraries) returns (r: Result<CombinedConfig, Error>)
    ensures lib.godoNewError(ClientTransport(c, lib), UserAgent(c)).Some? ==>
      r == Failure(lib.godoNewError(ClientTransport(c, lib), UserAgent(c)).value)
    ensures (lib.godoNewError(ClientTransport(c, lib), UserAgent(c)).None?
             && lib.parseURL(c.apiEndpoint).Failure?) ==>
      r == Failure(lib.parseURL(c.apiEndpoint).error)
    ensures (lib.godoNewError(ClientTransport(c, lib), UserAgent(c)).None?
             && lib.parseURL(c.apiEndpoint).Success?
             && lib.templateParseError(c.spacesAPIEndpoint).Some?) ==>
      r == Failure(TemplateError(c.spacesAPIEndpoint, lib.templateParseError(c.spacesAPIEndpoint).value))
    ensures (lib.godoNewError(ClientTransport(c, lib), UserAgent(c)).None?
             && lib.parseURL(c.apiEndpoint).Success?
             && lib.templateParseError(c.spacesAPIEndpoint).None?) ==>
      && r.Success?
      && r.value.client.httpClient.transport == ClientTransport(c, lib)
      && r.value.client.userAgentOption == UserAgent(c)
      && r.value.client.baseURL == lib.parseURL(c.apiEndpoint).value
      && r.value.spacesEndpointTemplate == Template("spaces", c.spacesAPIEndpoint)
      && r.value.accessID == c.accessID
      && r.value.secretKey == c.secretKey
  {
    var tokenSrc := StaticTokenSource(c.token);
    var userAgent := "Terraform/" + c.terraformVersion;

    var retryableClient := new RetryableClient(lib.retryDefaults);
    retryableClient.retryMax := c.httpRetryMax;
    retryableClient.retryWaitMin := lib.secondsToDuration(c.httpRetryWaitMin);
    retryableClient.retryWaitMax := lib.secondsToDuration(c.httpRetryWaitMax);
    retryableClient.backoff := DigitalOceanBackoff;

    var client := retryableClient.StandardClient();
    client.transport := OAuth(client.transport, ReuseTokenSource(None, tokenSrc));
    client.transport := Logging("DigitalOcean", client.transport);

    var godoErr := lib.godoNewError(client.transport, userAgent);
    if godoErr.Some? {
      return Failure(godoErr.value);
    }
    var godoClient := new GodoClient(client, userAgent, lib.godoDefaultBaseURL);

    var apiURL := lib.parseURL(c.apiEndpoint);
    if apiURL.Failure? {
      return Failure(apiURL.error);
    }
    godoClient.baseURL := apiURL.value;

    var templateErr := lib.templateParseError(c.spacesAPIEndpoint);
    if templateErr.Some? {
      return Failure(TemplateError(c.spacesAPIEndpoint, templateErr.value));
    }

    return Success(CombinedConfig(godoClient, Template("spaces", c.spacesAPIEndpoint), c.accessID, c.secretKey));
  }

  /**
   * The chain is logging outermost, authentication in the middle and retries
   * innermost, so every retried request is re-authenticated and logged once.
   */
  lemma ClientTransportLayering(c: Config, lib: Libraries)
    ensures Layers(ClientTransport(c, lib)) == [Logs, Authenticates, Retries]
  {
    var t := ClientTransport(c, lib);
    assert Layers(t.base) == [Authenticates] + Layers(t.base.base) == [Authenticates, Retries];
  }

  /** The retry layer uses the configured limit, the configured waits and the DigitalOcean backoff. */
  lemma ClientRetryWiring(c: Config, lib: Libraries)
    ensures RetryLayer(ClientTransport(c, lib)).retryMax == c.httpRetryMax
    ensures RetryLayer(ClientTransport(c, lib)).waitMin == lib.secondsToDuration(c.httpRetryWaitMin)
    ensures RetryLayer(ClientTransport(c, lib)).waitMax == lib.secondsToDuration(c.httpRetryWaitMax)
    ensures RetryLayer(ClientTransport(c, lib)).backoff == DigitalOceanBackoff
  {
    var t := ClientTransport(c, lib);
    assert RetryLayer(t) == RetryLayer(t.base) == RetryLayer(t.base.base) == ConfiguredRetry(c, lib);
  }

  /** The authentication layer presents the configured token. */
  lemma ClientAuthenticatesWithToken(c: Config, lib: Libraries)
    ensures ClientTransport(c, lib).base.OAuth?
    ensures FirstToken(ClientTransport(c, lib).base.source) == c.token
  {
  }

  /**
   * Through the built client, a rate-limited attempt never waits longer than
   * the configured maximum, and every other attempt waits whatever the library
   * default returns when called with the configured bounds.
   */
  lemma ClientRateLimitWaitBounded(
    c: Config, lib: Libraries, attemptNum: int, resp: Option<Response>,
    now: Int64, defaultBackoff: BackoffFn)
    requires ResetValuesPresent(resp)
    ensures var s := RetryLayer(ClientTransport(c, lib));
      var wait := RetryWait(s, attemptNum, resp, now, defaultBackoff);
      if WaitsForRateLimit(s.waitMax, resp, now)
      then wait <= lib.secondsToDuration(c.httpRetryWaitMax)
      else wait == defaultBackoff(lib.secondsToDuration(c.httpRetryWaitMin),
                                  lib.secondsToDuration(c.httpRetryWaitMax), attemptNum, resp)
  {
    ClientRetryWiring(c, lib);
  }

  // ---------------------------------------------------------------------------
  // Spaces sessions
  // ---------------------------------------------------------------------------

  /** `html/template`'s `Execute` into a string builder: the rendered text, or an error. */
  type Renderer = (Template, map<string, string>) -> Result<string, Error>

  /** `credentials.NewStaticCredentials(id, secret, token)`. */
  datatype StaticCredentials = StaticCredentials(id: string, secret: string, token: string)

  /** The `aws.Config` a Spaces session is created from. */
  datatype AwsConfig = AwsConfig(region: string, credentials: StaticCredentials, endpoint: string)

  /** Spaces requests are always signed for this region; the endpoint selects the real one. */
  const SpacesSigningRegion: string := "us-east-1"

  const CredentialsNotConfigured: Error := Error("Spaces credentials not configured")

  /** The session configuration for a rendered endpoint and the handle's credentials. */
  function SpacesSessionConfig(cc: CombinedConfig, endpoint: string): (cfg: AwsConfig)
    ensures cfg.region == "us-east-1" && cfg.endpoint == endpoint
    ensures cfg.credentials.id == cc.accessID && cfg.credentials.secret == cc.secretKey
    ensures cfg.credentials.token == ""
  {
    AwsConfig(SpacesSigningRegion, StaticCredentials(cc.accessID, cc.secretKey, ""), endpoint)
  }

  /**
   * `CombinedConfig.SpacesClient`: refuses without both credentials, renders
   * the endpoint for the lower-cased region and creates a session from it,
   * passing on any rendering or session error. `S` is the session type.
   */
  function SpacesClient<S>(
    cc: CombinedConfig, region: string, render: Renderer,
    newSession: AwsConfig -> Result<S, Error>): (r: Result<S, Error>)
    ensures cc.accessID == "" || cc.secretKey == "" ==> r == Failure(CredentialsNotConfigured)
  {
    if cc.accessID == "" || cc.secretKey == "" then
      Failure(CredentialsNotConfigured)
    else
      match render(cc.spacesEndpointTemplate, map["Region" := Strings.ToLower(region)])
      case Failure(e) => Failure(e)
      case Success(endpoint) => newSession(SpacesSessionConfig(cc, endpoint))
  }

  /**
   * Without both credentials the result is the same error for every region,
   * renderer and session constructor: neither is consulted.
   */
  lemma SpacesCredentialsRequired<S>(
    cc: CombinedConfig, region1: string, region2: string,
    render1: Renderer, render2: Renderer,
    newSession1: AwsConfig -> Result<S, Error>, newSession2: AwsConfig -> Result<S, Error>)
    requires cc.accessID == "" || cc.secretKey == ""
    ensures SpacesClient(cc, region1, render1, newSession1) == Failure(CredentialsNotConfigured)
    ensures SpacesClient(cc, region1, render1, newSession1) == SpacesClient(cc, region2, render2, newSession2)
  {
  }

  /** Regions that differ only in letter case give the same session or error. */
  lemma SpacesRegionCaseInsensitive<S>(
    cc: CombinedConfig, region1: string, region2: string, render: Renderer,
    newSession: AwsConfig -> Result<S, Error>)
    requires Strings.EqualFold(region1, region2)
    ensures SpacesClient(cc, region1, render, newSession) == SpacesClient(cc, region2, render, newSession)
  {
    Strings.ToLowerEqualIffEqualFold(region1, region2);
  }

  /** The upper-case and lower-case spellings of NYC3 give the same session or error. */
  lemma SpacesNyc3<S>(cc: CombinedConfig, render: Renderer, newSession: AwsConfig -> Result<S, Error>)
    ensures SpacesClient(cc, "NYC3", render, newSession) == SpacesClient(cc, "nyc3", render, newSession)
  {
    SpacesRegionCaseInsensitive(cc, "NYC3", "nyc3", render, newSession);
  }

  /**
   * With both credentials, the template is rendered with a lower-case region
   * only; a rendering error is returned as it is, and otherwise the session
   * is created for region us-east-1, the handle's credentials (no session
   * token) and the rendered endpoint, and its result is returned as it is.
   */
  lemma SpacesRendersAndConnects<S>(
    cc: CombinedConfig, region: string, render: Renderer,
    newSession: AwsConfig -> Result<S, Error>)
    requires cc.accessID != "" && cc.secretKey != ""
    ensures var vars := map["Region" := Strings.ToLower(region)];
      && vars.Keys == {"Region"}
      && (forall i :: 0 <= i < |vars["Region"]| ==> !Strings.IsUpper(vars["Region"][i]))
      && (render(cc.spacesEndpointTemplate, vars).Failure? ==>
            SpacesClient(cc, region, render, newSession) == Failure(render(cc.spacesEndpointTemplate, vars).error))
      && (render(cc.spacesEndpointTemplate, vars).Success? ==>
            var endpoint := render(cc.spacesEndpointTemplate, vars).value;
            && SpacesClient(cc, region, render, newSession) == newSession(SpacesSessionConfig(cc, endpoint))
            && SpacesSessionConfig(cc, endpoint).region == "us-east-1"
            && SpacesSessionConfig(cc, endpoint).credentials == StaticCredentials(cc.accessID, cc.secretKey, "")
            && SpacesSessionConfig(cc, endpoint).endpoint == endpoint)
  {
  }
}
