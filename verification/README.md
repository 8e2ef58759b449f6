# DigitalOcean provider client construction, in Dafny

This project models the `config` package of the DigitalOcean Terraform provider
(`digitalocean/config/config.go`), which builds the provider's API client and its
Spaces (object storage) sessions:

- **`digitalOceanAPIBackoff`**, the retry backoff. After a `429 Too Many Requests`
  response whose `Ratelimit-Reset` header holds a base-10 int64 Unix time, it waits
  until that time, capped at the configured maximum. A non-positive wait (clock skew;
  unless the configured maximum is below it, when the maximum is returned), a missing or malformed header, a nil response and every other status all use
  retryablehttp's default backoff instead.
- **`Config.Client`**, the client factory. It overwrites the retry limit, the waits and
  the backoff hook of a fresh retryable client. It then wraps that client's transport
  in OAuth, and the result in a logging transport. It creates the godo client, passing
  `Terraform/<version>` to its `godo.SetUserAgent` option, parses the base URL and parses the Spaces endpoint
  template. It fails at the first of these three steps that fails.
- **`CombinedConfig.SpacesClient`**, the Spaces session constructor. It refuses to work
  without both credentials. Otherwise it renders the endpoint template for the
  lower-cased region and creates an AWS session. That session is signed for
  `us-east-1` and uses the static credential pair and the rendered endpoint.

Modules:

- `Wrappers` (wrappers.dfy): `Option` and `Result`.
- `GoInt` (goint.dfy): Go's `int64` and its wrap-around.
- `StrConv` (strconv.dfy): `strconv.ParseInt(s, 10, 64)` and its inverse `FormatInt`.
- `Strings` (strings.dfy): `strings.ToLower` and `EqualFold` on ASCII.
- `DigitalOceanConfig` (config.dfy): the package itself.

The backoff is a pure function. The clock reading `time.Now().Unix()` is its parameter
`now`, and `retryablehttp.DefaultBackoff` is a function-valued parameter about which
nothing is assumed. `Client` is an imperative method. It threads the classes
`RetryableClient`, `HttpClient` (whose `transport` field is reassigned as each layer
is added) and `GodoClient` (whose `baseURL` field is reassigned). The transport chain
is the datatype `Logging("DigitalOcean", OAuth(Retrying(settings), tokenSource))`. The libraries the
factory calls are a record of function values (`Libraries`): godo.New's failure,
url.Parse, the template parser and the float-to-Duration conversion. So every
property holds whatever those libraries do.

The product `time.Second * time.Duration(reset - now)` is kept as Go computes it,
with int64 wrap-around (`RateLimitSleep`). The branch lemmas are stated for resets
whose wait in nanoseconds fits in an int64, which covers about 292 years either
side of `now`. The bound "a rate-limited wait never exceeds `max`" holds for every
input. Beyond that range the wrapped product can be any multiple of 512 ns in the
int64 range (`RateLimitSleepGranularity`). It can be
negative, and then the default backoff is used (`FarFutureResetWraps`, a reset
9223372037 s ahead). It can be positive and within `max`, and then that short,
meaningless wait is returned (`FarFutureResetWrapsPositive`, a reset 18446744074 s
ahead gives 0.29 s). It can also exceed `max`, and then `max` is returned.

When the rate-limit branch does not answer, the wait is whatever
`retryablehttp.DefaultBackoff` returns (config.go:142). `Client` returns the errors
of godo.New and url.Parse unchanged. It wraps a template parse error in a message
that quotes the endpoint text (config.go:105).

## Model

| member | source | states |
|---|---|---|
| `GoInt.Wrap64` | digitalocean/config/config.go:124 | the int64 result of Go arithmetic: the value itself when it fits, otherwise the int64 congruent to it modulo 2^64 |
| `StrConv.ParseInt` | digitalocean/config/config.go:122 | an accepted header value is an optional sign followed only by digits, is negative only with a leading `-`, and parses to an int64 |
| `StrConv.FormatNat` | digitalocean/config/config.go:122 | the decimal spelling used to build reset headers: non-empty, all digits, no leading zero |
| `StrConv.ParseFormatRoundTrip` | digitalocean/config/config.go:122 | parsing the decimal spelling of any integer gives it back when it fits in int64, and a range error otherwise |
| `StrConv.ParseRejectsMissingDigits` | digitalocean/config/config.go:122 | the empty string and a bare sign are syntax errors |
| `Strings.ToLower` | digitalocean/config/config.go:51 | the region as rendered: same length, no upper-case letter, each character kept or lowered |
| `Strings.ToLowerIdempotent` | digitalocean/config/config.go:51 | lower-casing an already lower-cased region changes nothing |
| `Strings.ToLowerEqualIffEqualFold` | digitalocean/config/config.go:51 | two regions lower-case to the same string if and only if they are equal up to case |
| `DigitalOceanConfig.ResetTimestamp` | digitalocean/config/config.go:119-122 | a reset time is read only from a 429 response that has the `Ratelimit-Reset` header |
| `DigitalOceanConfig.RateLimitSleep` | digitalocean/config/config.go:123-124 | the computed sleep is `reset - now` seconds in nanoseconds whenever that fits in int64 |
| `DigitalOceanConfig.RateLimitSleepGranularity` | digitalocean/config/config.go:124 | for every reset and clock reading, wrapped or not, the computed sleep is a multiple of 512 ns |
| `DigitalOceanConfig.DigitalOceanAPIBackoff` | digitalocean/config/config.go:118-145 | when the rate-limit branch answers, the wait is at most `max` and is either `max` or positive; otherwise it is exactly the default backoff |
| `DigitalOceanConfig.NotRateLimitedFallsBack` | digitalocean/config/config.go:119-144 | a nil response or a status other than 429 gets exactly the default backoff |
| `DigitalOceanConfig.UnusableResetFallsBack` | digitalocean/config/config.go:121-142 | a 429 without the reset header, or whose first value is not a base-10 int64, gets exactly the default backoff |
| `DigitalOceanConfig.FarResetClampsToMax` | digitalocean/config/config.go:124-131 | a reset more than `max` away waits exactly `max` |
| `DigitalOceanConfig.NearResetWaitsUntilReset` | digitalocean/config/config.go:124-136 | a reset in `(0, max]` away waits exactly `reset - now` seconds, whatever `min`, the attempt number and the default backoff |
| `DigitalOceanConfig.PastResetFallsBack` | digitalocean/config/config.go:133-142 | a reset that is now or past gets the default backoff, never the zero or negative sleep, provided `max` is not below that sleep |
| `DigitalOceanConfig.FarFutureResetWrapsPositive` | digitalocean/config/config.go:124-136 | a reset 18446744074 s ahead overflows the nanosecond product to +0.29 s, which is returned as the wait whenever `max` is at least that |
| `DigitalOceanConfig.FarFutureResetWraps` | digitalocean/config/config.go:124-136 | a reset 9223372037 s ahead overflows the nanosecond product, which turns negative, so for `max ≥ 0` the default backoff is used instead of `max` |
| `DigitalOceanConfig.ScenarioResetInTenSeconds` | digitalocean/config/config.go:118-136 | min 1s, max 60s, a reset 10 s ahead: the wait is 10 s |
| `DigitalOceanConfig.ScenarioResetBeyondMax` | digitalocean/config/config.go:118-131 | min 1s, max 60s, a reset 500 s ahead: the wait is 60 s |
| `DigitalOceanConfig.ScenarioClockSkew` | digitalocean/config/config.go:118-144 | min 1s, max 60s, a reset 5 s in the past: the default backoff, not -5 s |
| `DigitalOceanConfig.Layers` | digitalocean/config/config.go:84-90 | a transport's layers, outermost first, end with the retrying transport and contain it nowhere else |
| `DigitalOceanConfig.RetryableClient.constructor` | digitalocean/config/config.go:78 | a new retryable client holds the library's defaults |
| `DigitalOceanConfig.HttpClient.constructor` | digitalocean/config/config.go:84 | the `*http.Client` handed out holds exactly the given transport |
| `DigitalOceanConfig.GodoClient.constructor` | digitalocean/config/config.go:92 | a successful godo.New holds the given HTTP client, the agent passed to `SetUserAgent`, and its starting base URL |
| `DigitalOceanConfig.ConfiguredRetry` | digitalocean/config/config.go:79-82 | the retry settings written into the retryable client: `HTTPRetryMax`, both waits converted from seconds, and the DigitalOcean backoff hook |
| `DigitalOceanConfig.ClientTransport` | digitalocean/config/config.go:84-90 | the chain built by the two reassignments: a "DigitalOcean" logging transport around an OAuth transport with `ReuseTokenSource(nil, StaticTokenSource(token))`, around the retrying transport with the configured settings |
| `DigitalOceanConfig.RetryableClient.StandardClient` | digitalocean/config/config.go:84 | the standard client is fresh and its transport retries with the client's current settings |
| `DigitalOceanConfig.UserAgent` | digitalocean/config/config.go:76 | the user agent is `Terraform/` followed by the Terraform version |
| `DigitalOceanConfig.TemplateError` | digitalocean/config/config.go:103-106 | a template parse error is reported in a message that quotes the endpoint text and ends with the parser's own message |
| `DigitalOceanConfig.Client` | digitalocean/config/config.go:71-116 | fails with godo.New's error first, then url.Parse's, then the wrapped template error; on success the godo client carries the logging/OAuth/retry chain, the agent passed to `SetUserAgent` and the parsed base URL, and the handle carries the template and the credential pair unchanged |
| `DigitalOceanConfig.ClientTransportLayering` | digitalocean/config/config.go:84-90 | the built chain is logging outermost, OAuth in the middle, retries innermost |
| `DigitalOceanConfig.ClientRetryWiring` | digitalocean/config/config.go:79-82 | the retry layer uses the configured retry limit, the configured min and max waits and the DigitalOcean backoff |
| `DigitalOceanConfig.ClientAuthenticatesWithToken` | digitalocean/config/config.go:72-88 | the OAuth layer's token source yields the configured token |
| `DigitalOceanConfig.ClientRateLimitWaitBounded` | digitalocean/config/config.go:79-82 | through the built client, a rate-limited wait never exceeds the configured maximum, and any other wait is whatever the library default returns when called with the configured bounds |
| `DigitalOceanConfig.SpacesSessionConfig` | digitalocean/config/config.go:58-61 | the session config: region `us-east-1`, static credentials from the stored pair with an empty session token, and the rendered endpoint |
| `DigitalOceanConfig.SpacesClient` | digitalocean/config/config.go:43-68 | without both credentials the result is the "Spaces credentials not configured" error |
| `DigitalOceanConfig.SpacesCredentialsRequired` | digitalocean/config/config.go:44-47 | without both credentials the result is the same error for every region, renderer and session constructor, so neither is used |
| `DigitalOceanConfig.SpacesRegionCaseInsensitive` | digitalocean/config/config.go:50-52 | regions equal up to case give the same session or error |
| `DigitalOceanConfig.SpacesNyc3` | digitalocean/config/config.go:50-52 | `NYC3` and `nyc3` give the same session or error |
| `DigitalOceanConfig.SpacesRendersAndConnects` | digitalocean/config/config.go:49-67 | with both credentials the template is rendered with only `Region` set to a lower-case string; a render error is returned unchanged; otherwise the result is the session for region `us-east-1`, the stored pair with no session token, and the rendered endpoint |

## Left out

- `retryablehttp.DefaultBackoff`: its body is not part of this model. It is a function parameter, so no property depends on it.
- NotRateLimitedFallsBack: does not state that the fallback wait lies in `[min, max]` or doubles per attempt. That depends on the default backoff's body, which is not part of this model.
- `time.Now()`: the current Unix time is the parameter `now`.
- The conversion of the fractional `HTTPRetryWaitMin`/`HTTPRetryWaitMax` seconds to `time.Duration` is floating-point arithmetic. It is the opaque function `secondsToDuration`.
- `log.Printf` output (the configured URL, the rate-limit wait, the fallback wait) is logging only.
- OAuth token injection, the godo client's internals, the retrying transport's request loop and AWS session construction belong to foreign libraries.
  - godo.New is modelled by whether it fails, plus a client that holds the HTTP client, the agent string passed to `godo.SetUserAgent` and a starting base URL. How godo combines that string with its own agent is not modelled.
  - The retrying transport is the value of the retry settings.
  - The AWS session is whatever the session constructor returns.
- `RetryWait` models only the call retryablehttp makes to its hook, `Backoff(RetryWaitMin, RetryWaitMax, attempt, resp)`.
- `html/template` parsing, rendering and HTML escaping: a template is its name and source text, and parsing is modelled only by whether it fails. Rendering is a function parameter that may fail.
- Strings.ToLower: only ASCII letters are lowered. Go's full Unicode case mapping is not modelled.
- DigitalOceanAPIBackoff: a 429 response whose `Ratelimit-Reset` key maps to an empty slice would make Go panic at `s[0]`. The requires `ResetValuesPresent` excludes it; net/http never builds such a header.
- SpacesClient: on error, Go also returns an empty, non-nil `*session.Session`. The model returns only the error.
- The retrying transport holds a pointer to the retryable client in Go; the model holds a copy of its settings. Nothing changes the client after the transport is built, so the two agree.
- `CombinedConfig.GodoClient()` only returns the stored client. It is the field `client` of `CombinedConfig`.
- Concurrent use of the built client: the package itself does nothing concurrent.
