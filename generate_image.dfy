/** The `/api/generate-image` route: a per-IP limiter of 10 requests per
    minute, then a fixed sequence of early-return checks (prompt, auth header,
    user, stored provider key), then one request to the image provider with a
    fixed model and step count, whose answer is passed on or turned into an
    error message. */
module GenerateImage {
  import opened Common
  import RateLimit

  const RATE_LIMIT: int := 10
  const IMAGE_MODEL: string := "black-forest-labs/FLUX.1-schnell"
  const IMAGE_STEPS: int := 4

  /** The body sent to the provider, with the key it is sent under. */
  datatype ImageRequest = ImageRequest(prompt: Json, model: string, steps: int, apiKey: string)

  /** The provider's answer: its status, its body text, and that text parsed
      as JSON (None when it is not JSON, e.g. an HTML error page); or the
      `fetch` itself rejected (a network failure). */
  datatype Upstream =
    | Upstream(ok: bool, status: int, text: string, parsed: Option<Json>)
    | FetchThrew

  datatype Reply = Failure(status: int, error: Json) | Generated(data: Json)

  /** `togetherData?.error?.message || togetherData?.error || text || 'Failed'`. */
  function UpstreamError(data: Json, text: string): (e: Json)
    ensures var err := Field(data, "error");
            var msg := if err.Some? then Field(err.value, "message") else None;
            (TruthyOpt(msg) ==> e == msg.value) &&
            (!TruthyOpt(msg) && TruthyOpt(err) ==> e == err.value) &&
            (!TruthyOpt(msg) && !TruthyOpt(err) && text != "" ==> e == JStr(text)) &&
            (!TruthyOpt(msg) && !TruthyOpt(err) && text == "" ==> e == JStr("Failed"))
    ensures Truthy(e)
  {
    var err := Field(data, "error");
    var msg := if err.Some? then Field(err.value, "message") else None;
    if TruthyOpt(msg) then msg.value
    else if TruthyOpt(err) then err.value
    else if text != "" then JStr(text)
    else JStr("Failed")
  }

  /** What the route answers once the request was sent. A rejected `fetch`
      is outside any `try`, so the handler throws and the framework answers
      500. Otherwise a non-JSON body is passed on as the error text
      ("Unknown error" when empty), a JSON error body under a non-ok status
      becomes its best error message, and both keep the provider's status. */
  function ReplyFor(u: Upstream): (r: Reply)
    ensures u.FetchThrew? ==> r == Failure(500, JStr(UNHANDLED_ERROR))
    ensures r.Failure? <==> u.FetchThrew? || u.parsed.None? || !u.ok
    ensures r.Failure? && u.Upstream? ==> r.status == u.status
    ensures r.Failure? ==> Truthy(r.error)
    ensures u.Upstream? && u.parsed.None? ==> r.error == JStr(if u.text != "" then u.text else "Unknown error")
    ensures u.Upstream? && u.parsed.Some? && !u.ok ==> r.error == UpstreamError(u.parsed.value, u.text)
    ensures r.Generated? ==> u.Upstream? && Some(r.data) == u.parsed
  {
    if u.FetchThrew? then Failure(500, JStr(UNHANDLED_ERROR))
    else if u.parsed.None? then Failure(u.status, JStr(if u.text != "" then u.text else "Unknown error"))
    else if !u.ok then Failure(u.status, UpstreamError(u.parsed.value, u.text))
    else Generated(u.parsed.value)
  }

  /** `authHeader.replace('Bearer ', '')`. */
  function Jwt(header: string): string {
    ReplaceFirst(header, "Bearer ", "")
  }

  class GenerateImageRoute {
    const limiter: RateLimit.RateLimiter
    /** The auth provider: which user each token belongs to. */
    const sessions: map<string, string>
    /** The `together_api_key` column of the `users` table, by user id. */
    const apiKeys: map<string, Option<string>>

    constructor (sessions: map<string, string>, apiKeys: map<string, Option<string>>)
      ensures fresh(limiter) && limiter.limit == RATE_LIMIT && limiter.entries == map[]
      ensures this.sessions == sessions && this.apiKeys == apiKeys
    {
      limiter := new RateLimit.RateLimiter(RATE_LIMIT);
      this.sessions := sessions;
      this.apiKeys := apiKeys;
    }

    /** POST with the two headers and the parsed body at time `now`.
        `upstream` is the provider's answer; `sent` is the request made to
        the provider, if one was made. */
    method Post(forwardedFor: Option<string>, authorization: Option<string>, body: Json, now: int, upstream: Upstream)
      returns (reply: Reply, sent: Option<ImageRequest>)
      modifies limiter
      ensures var ip := RateLimit.ClientKey(forwardedFor);
              limiter.entries == old(limiter.entries)[ip := RateLimit.Touch(RateLimit.Lookup(old(limiter.entries), ip), now)]
      ensures var ip := RateLimit.ClientKey(forwardedFor);
              limiter.entries[ip].count > limiter.limit ==> reply == Failure(429, JStr("Too many requests"))
      ensures var ip := RateLimit.ClientKey(forwardedFor);
              var prompt := Field(body, "prompt");
              limiter.entries[ip].count <= limiter.limit ==>
                (body.JNull? ==> reply == Failure(500, JStr(UNHANDLED_ERROR))) &&
                (!body.JNull? && !TruthyOpt(prompt) ==> reply == Failure(400, JStr("Missing prompt"))) &&
                (TruthyOpt(prompt) && (authorization.None? || authorization.value == "") ==>
                   reply == Failure(401, JStr("Missing auth"))) &&
                (TruthyOpt(prompt) && authorization.Some? && authorization.value != "" &&
                 (Jwt(authorization.value) == "" || Jwt(authorization.value) !in sessions) ==>
                   reply == Failure(401, JStr("Unauthorized")))
      ensures sent.None? ==> reply.Failure?
      ensures sent.Some? && upstream.FetchThrew? ==> reply == Failure(500, JStr(UNHANDLED_ERROR))
      ensures sent.Some? ==>
                var prompt := Field(body, "prompt");
                TruthyOpt(prompt) && authorization.Some? &&
                Jwt(authorization.value) != "" && Jwt(authorization.value) in sessions &&
                var user := sessions[Jwt(authorization.value)];
                user in apiKeys && apiKeys[user].Some? && apiKeys[user].value != "" &&
                sent.value == ImageRequest(prompt.value, IMAGE_MODEL, IMAGE_STEPS, apiKeys[user].value) &&
                reply == ReplyFor(upstream)
      ensures authorization.Some? && Jwt(authorization.value) != "" && Jwt(authorization.value) in sessions &&
              TruthyOpt(Field(body, "prompt")) && authorization.value != "" &&
              limiter.entries[RateLimit.ClientKey(forwardedFor)].count <= limiter.limit ==>
                var user := sessions[Jwt(authorization.value)];
                (user !in apiKeys ==> reply.Failure? && reply.status == 500 && sent.None?) &&
                (user in apiKeys && (apiKeys[user].None? || apiKeys[user].value == "") ==>
                   reply == Failure(400, JStr("No Together API key set in your account.")) && sent.None?) &&
                (user in apiKeys && apiKeys[user].Some? && apiKeys[user].value != "" ==> sent.Some?)
    {
      sent := None;
      var tooMany := limiter.Check(RateLimit.ClientKey(forwardedFor), now);
      if tooMany {
        return Failure(429, JStr("Too many requests")), sent;
      }
      if body.JNull? {
        // destructuring a null body throws; the framework answers 500
        return Failure(500, JStr(UNHANDLED_ERROR)), sent;
      }
      var prompt := Field(body, "prompt");
      if !TruthyOpt(prompt) {
        return Failure(400, JStr("Missing prompt")), sent;
      }
      if authorization.None? || authorization.value == "" {
        return Failure(401, JStr("Missing auth")), sent;
      }
      var jwt := Jwt(authorization.value);
      // the auth provider refuses an empty token
      if jwt == "" || jwt !in sessions {
        return Failure(401, JStr("Unauthorized")), sent;
      }
      var user := sessions[jwt];
      if user !in apiKeys {
        return Failure(500, JStr("User not found")), sent;
      }
      var apiKey := apiKeys[user];
      if apiKey.None? || apiKey.value == "" {
        return Failure(400, JStr("No Together API key set in your account.")), sent;
      }
      sent := Some(ImageRequest(prompt.value, IMAGE_MODEL, IMAGE_STEPS, apiKey.value));
      reply := ReplyFor(upstream);
    }
  }
}
