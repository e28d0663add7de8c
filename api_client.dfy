/**
 * The HTTP client of frontend/src/api/axios.js: its base URL and the
 * request interceptor that attaches the stored token as a Bearer
 * credential (section 2.1 of RFC 6750). Calls are described, not sent.
 */
module ApiClient {
  import opened Wrappers
  import Text

  /** The base URL used when the build environment sets none. */
  const FallbackUrl: string := "https://akashtiwari-btech-10352-22.onrender.com/api"

  const AuthorizationHeader: string := "Authorization"

  /** The credential prefix: the scheme name and one space. */
  const BearerPrefix: string := "Bearer "

  /** An API call as the application issues it: a verb, a path under the base URL, and a JSON body. */
  datatype Call =
    | Get(path: string)
    | Post(path: string, body: map<string, string>)
    | Put(path: string, body: map<string, string>)
    | Delete(path: string)

  /** The settled value of a promise. */
  datatype Settled<T, E> = Fulfilled(value: T) | Rejected(reason: E)

  /**
   * A settled API call as the pages and the session await it: the response
   * data when the promise fulfils, the error's message when it rejects.
   */
  type Reply<T> = Settled<T, string>

  /** `import.meta.env.VITE_API_URL || fallback`: an unset or empty variable falls back. */
  function BaseUrl(env: Option<string>): (url: string)
    ensures Text.Truthy(env) ==> url == env.value
    ensures !Text.Truthy(env) ==> url == FallbackUrl
    ensures url != ""
  {
    if Text.Truthy(env) then env.value else FallbackUrl
  }

  /** `Bearer ${token}`. */
  function BearerCredentials(token: string): (h: string)
    ensures |h| == |BearerPrefix| + |token|
  {
    BearerPrefix + token
  }

  /** The token carried by an `Authorization` value of the Bearer form, if it has that form. */
  function ParseBearer(h: string): (t: Option<string>)
    ensures t.Some? ==> |t.value| == |h| - |BearerPrefix|
  {
    if |h| >= |BearerPrefix| && h[..|BearerPrefix|] == BearerPrefix then Some(h[|BearerPrefix|..]) else None
  }

  /** The header value and the token determine each other. */
  lemma BearerRoundTrip(token: string, h: string)
    ensures ParseBearer(BearerCredentials(token)) == Some(token)
    ensures ParseBearer(h) == Some(token) ==> BearerCredentials(token) == h
  {
    assert (BearerPrefix + token)[..|BearerPrefix|] == BearerPrefix;
    assert (BearerPrefix + token)[|BearerPrefix|..] == token;
    if ParseBearer(h) == Some(token) {
      assert h == h[..|BearerPrefix|] + h[|BearerPrefix|..];
    }
  }

  /** The `Authorization` value a request gets for a stored token: none when the token is absent or empty. */
  function AuthorizationFor(token: Option<string>): (h: Option<string>)
    ensures h.Some? <==> Text.Truthy(token)
    ensures h.Some? ==> ParseBearer(h.value) == Some(token.value)
  {
    if Text.Truthy(token) then
      BearerRoundTrip(token.value, "");
      Some(BearerCredentials(token.value))
    else None
  }

  /** The request config the interceptor receives and hands on. */
  class RequestConfig {
    var call: Call
    var headers: map<string, string>

    constructor (call: Call, headers: map<string, string>)
      ensures this.call == call && this.headers == headers
    {
      this.call := call;
      this.headers := headers;
    }
  }

  /**
   * The request interceptor: with a truthy stored token the config gets
   * `Authorization: Bearer <token>`, in place; every other header and the
   * call itself are left alone, and the same config is returned.
   */
  method InterceptRequest(config: RequestConfig, storedToken: Option<string>) returns (r: RequestConfig)
    modifies config`headers
    ensures r == config
    ensures Text.Truthy(storedToken) ==>
              config.headers == old(config.headers)[AuthorizationHeader := BearerCredentials(storedToken.value)]
    ensures !Text.Truthy(storedToken) ==> config.headers == old(config.headers)
  {
    if Text.Truthy(storedToken) {
      config.headers := config.headers[AuthorizationHeader := BearerCredentials(storedToken.value)];
    }
    r := config;
  }

  /** The interceptor's error handler: a failed request setup is rejected with the same error. */
  function OnRequestError<E>(error: E): (p: Settled<RequestConfig, E>)
    ensures p.Rejected? && p.reason == error
  {
    Rejected(error)
  }
}
