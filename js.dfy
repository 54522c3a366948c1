/** Values and outcomes shared by the four handlers: optional JSON fields,
    JavaScript truthiness, awaited calls that may throw, and HTTP responses. */
module Js {

  datatype Option<+T> = None | Some(value: T)

  /** A JSON value as far as the handlers look at it. Objects and arrays are
      `Composite`: the handlers only test them for truthiness or copy them. */
  datatype Value = Undefined | Null | Bool(b: bool) | Num(x: real) | Str(s: string) | Composite

  /** JavaScript truthiness of a JSON value (NaN is not representable). */
  predicate IsTruthy(v: Value)
  {
    match v
    case Undefined => false
    case Null => false
    case Bool(b) => b
    case Num(x) => x != 0.0
    case Str(s) => s != ""
    case Composite => true
  }

  /** Truthiness of an optional string (an environment variable, a query
      parameter, a string field): `None` stands for undefined or null. */
  predicate Truthy(s: Option<string>)
  {
    s.Some? && s.value != ""
  }

  /** `s || fallback` for an optional string. */
  function OrElse(s: Option<string>, fallback: string): string
  {
    if Truthy(s) then s.value else fallback
  }

  /** `xs.join(sep)`: the pieces with `sep` between neighbours. */
  function Join(xs: seq<string>, sep: string): string
    decreases |xs|
  {
    if xs == [] then "" else if |xs| == 1 then xs[0] else xs[0] + sep + Join(xs[1..], sep)
  }

  /** The outcome of an awaited call into code outside the model (a fetch,
      `res.json()`, an OAuth token exchange): it returns or it throws. */
  datatype Call<+T> = Returned(value: T) | Threw(message: string)

  /** An HTTP response. Header maps are constant per handler and are not modelled. */
  datatype Response<+B> = Response(status: int, body: B)

  /** The OAuth client and refresh token the Business Profile handlers read
      from the environment. */
  datatype OAuthEnv = OAuthEnv(clientId: Option<string>, clientSecret: Option<string>,
                               refreshToken: Option<string>)

  predicate OAuthConfigured(env: OAuthEnv)
  {
    Truthy(env.clientId) && Truthy(env.clientSecret) && Truthy(env.refreshToken)
  }
}
