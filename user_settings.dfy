/** The `/api/user-settings` route: GET reports whether the user has stored a
    provider key and their daily counter, POST stores or clears the key, PATCH
    is the server-side daily quota step (reset on a new day, free models are
    never charged, a premium request is refused at zero and otherwise takes
    one query). Every handler passes the per-IP rate limiter (30 requests per
    minute) before it looks at the caller's credentials. */
module UserSettings {
  import opened Common
  import RateLimit

  const RATE_LIMIT: int := 30
  /** The allowance a user gets at the start of each day. */
  const DAILY_QUERY_LIMIT: int := 50
  const MAX_KEY_LENGTH: int := 128
  const KEY_FIELD: string := "together_api_key"

  /** The columns of the `users` table this route reads and writes; each may
      be null in the store. */
  datatype UserRow = UserRow(
    togetherApiKey: Option<string>,
    dailyQueryCount: Option<int>,
    lastQueryReset: Option<string>)

  /** What a handler reads from the request: the two headers and the parsed
      JSON body. */
  datatype Request = Request(forwardedFor: Option<string>, authorization: Option<string>, body: Json)

  datatype Reply =
    | Failure(status: int, error: string)
    | Settings(hasTogetherApiKey: bool, dailyQueryCount: Option<int>, lastQueryReset: Option<string>)
    | Saved
    | Remaining(dailyQueryCount: Option<int>)

  // ---------------------------------------------------------------------
  // Input schema and key mapping

  /** The result of validating a POST body against the schema. */
  datatype KeyInput = KeyInvalid | KeyAbsent | KeyGiven(key: string)

  /** `z.object({ together_api_key: z.string().min(1).max(128).optional().or(z.literal('')) })`. */
  function ParseKeyInput(body: Json): (r: KeyInput)
    ensures !r.KeyInvalid? <==>
              body.JObj? && (KEY_FIELD !in body.fields ||
                             (body.fields[KEY_FIELD].JStr? && |body.fields[KEY_FIELD].s| <= MAX_KEY_LENGTH))
    ensures r.KeyAbsent? <==> body.JObj? && KEY_FIELD !in body.fields
    ensures r.KeyGiven? ==> body.JObj? && KEY_FIELD in body.fields && body.fields[KEY_FIELD] == JStr(r.key)
  {
    if !body.JObj? then KeyInvalid
    else if KEY_FIELD !in body.fields then KeyAbsent
    else match body.fields[KEY_FIELD]
      case JStr(s) =>
        if 1 <= |s| <= MAX_KEY_LENGTH then KeyGiven(s)
        else if s == "" then KeyGiven(s)
        else KeyInvalid
      case _ => KeyInvalid
  }

  /** `together_api_key || null`: an absent or empty key clears the column. */
  function StoredKey(input: KeyInput): (k: Option<string>)
    requires !input.KeyInvalid?
    ensures k.None? <==> input.KeyAbsent? || input.key == ""
    ensures k.Some? ==> input == KeyGiven(k.value)
  {
    if input.KeyGiven? && input.key != "" then Some(input.key) else None
  }

  /** `!!together_api_key`. */
  predicate HasKey(row: UserRow) {
    row.togetherApiKey.Some? && row.togetherApiKey.value != ""
  }

  /** A key stored by POST is reported by GET exactly when it was non-empty. */
  lemma StoredKeyReported(body: Json, row: UserRow)
    requires !ParseKeyInput(body).KeyInvalid?
    ensures HasKey(row.(togetherApiKey := StoredKey(ParseKeyInput(body)))) <==>
              KEY_FIELD in body.fields && body.fields[KEY_FIELD].JStr? && body.fields[KEY_FIELD].s != ""
  {
  }

  // ---------------------------------------------------------------------
  // Authentication

  /** `getUserFromAuthHeader`: no header, or nothing left after removing the
      first `Bearer `, means no user; otherwise the auth provider (a map from
      token to user id) decides. */
  function UserFromAuthHeader(header: Option<string>, sessions: map<string, string>): (user: Option<string>)
    ensures user.Some? <==> header.Some? && header.value != "" &&
                            ReplaceFirst(header.value, "Bearer ", "") != "" &&
                            ReplaceFirst(header.value, "Bearer ", "") in sessions
    ensures user.Some? ==> user.value == sessions[ReplaceFirst(header.value, "Bearer ", "")]
  {
    if header.None? || header.value == "" then None
    else
      var jwt := ReplaceFirst(header.value, "Bearer ", "");
      if jwt == "" then None
      else if jwt in sessions then Some(sessions[jwt])
      else None
  }

  /** A `Bearer <token>` header authenticates as the token's user. */
  lemma BearerHeaderAuthenticates(token: string, sessions: map<string, string>)
    requires token != "" && token in sessions
    ensures UserFromAuthHeader(Some("Bearer " + token), sessions) == Some(sessions[token])
  {
    var header := "Bearer " + token;
    assert "Bearer " <= header;
    assert header[|"Bearer "|..] == token;
    assert ReplaceFirst(header, "Bearer ", "") == "" + token == token;
  }

  // ---------------------------------------------------------------------
  // The daily quota step of PATCH

  /** `/free/i.test(model)`. */
  predicate IsFreeModel(model: string) {
    Contains(ToLower(model), "free")
  }

  /** The counter PATCH works from: the stored one when it was last reset
      today, a fresh allowance of 50 otherwise. */
  function CountForToday(row: UserRow, today: string): (c: Option<int>)
    ensures row.lastQueryReset != Some(today) ==> c == Some(DAILY_QUERY_LIMIT)
    ensures row.lastQueryReset == Some(today) ==> c == row.dailyQueryCount
  {
    if row.lastQueryReset == Some(today) then row.dailyQueryCount else Some(DAILY_QUERY_LIMIT)
  }

  datatype Charge = Refused | Charged(count: Option<int>, date: string)

  /** The outcome of one quota check. A null counter compares as 0 in
      JavaScript, so it refuses a premium request. */
  function ChargeFor(row: UserRow, today: string, model: string): (c: Charge)
    ensures c.Charged? ==> c.date == today
    ensures IsFreeModel(model) ==> c == Charged(CountForToday(row, today), today)
    ensures !IsFreeModel(model) ==>
              (c.Refused? <==> CountForToday(row, today).None? || CountForToday(row, today).value <= 0)
    ensures !IsFreeModel(model) && c.Charged? ==>
              CountForToday(row, today).Some? && c.count == Some(CountForToday(row, today).value - 1)
  {
    var count := CountForToday(row, today);
    if IsFreeModel(model) then Charged(count, today)
    else if count.None? || count.value <= 0 then Refused
    else Charged(Some(count.value - 1), today)
  }

  /** The row after one quota check on `today`; a refusal writes nothing. */
  function AfterCharge(row: UserRow, today: string, model: string): UserRow {
    match ChargeFor(row, today, model)
    case Refused => row
    case Charged(count, date) => row.(dailyQueryCount := count, lastQueryReset := Some(date))
  }

  /** How many premium requests among `models`, sent in this order on
      `today`, are let through. */
  function PremiumGranted(row: UserRow, today: string, models: seq<string>): nat
    decreases |models|
  {
    if models == [] then 0
    else
      var granted := if !IsFreeModel(models[0]) && ChargeFor(row, today, models[0]).Charged? then 1 else 0;
      granted + PremiumGranted(AfterCharge(row, today, models[0]), today, models[1..])
  }

  /** What is left of today's allowance in a row. */
  function Budget(row: UserRow, today: string): nat {
    var c := CountForToday(row, today);
    if c.Some? && c.value > 0 then c.value else 0
  }

  lemma {:induction false} GrantedWithinBudget(row: UserRow, today: string, models: seq<string>)
    ensures PremiumGranted(row, today, models) <= Budget(row, today)
    decreases |models|
  {
    if models != [] {
      var next := AfterCharge(row, today, models[0]);
      GrantedWithinBudget(next, today, models[1..]);
      assert CountForToday(next, today) == match ChargeFor(row, today, models[0])
        case Refused => CountForToday(row, today)
        case Charged(c, _) => c;
    }
  }

  /** On a new day a user gets at most 50 premium requests, whatever mix of
      free and premium requests they send. */
  lemma AtMostFiftyPremiumPerDay(row: UserRow, today: string, models: seq<string>)
    requires row.lastQueryReset != Some(today)
    ensures PremiumGranted(row, today, models) <= DAILY_QUERY_LIMIT
  {
    GrantedWithinBudget(row, today, models);
  }

  /** The `model` field of a PATCH body, when it is a string. */
  function ModelField(body: Json): (m: Option<string>)
    ensures m.Some? <==> Field(body, "model").Some? && Field(body, "model").value.JStr?
    ensures m.Some? ==> Field(body, "model") == Some(JStr(m.value))
  {
    match Field(body, "model")
    case Some(JStr(s)) => Some(s)
    case _ => None
  }

  // ---------------------------------------------------------------------
  // The route

  function IpOf(req: Request): string {
    RateLimit.ClientKey(req.forwardedFor)
  }

  class UserSettingsRoute {
    /** The route's module-level `rateLimitMap`. */
    const limiter: RateLimit.RateLimiter
    /** The auth provider: which user each token belongs to. */
    const sessions: map<string, string>
    /** The `users` table, by user id. */
    var users: map<string, UserRow>

    constructor (sessions: map<string, string>, users: map<string, UserRow>)
      ensures fresh(limiter) && limiter.limit == RATE_LIMIT && limiter.entries == map[]
      ensures this.sessions == sessions && this.users == users
    {
      limiter := new RateLimit.RateLimiter(RATE_LIMIT);
      this.sessions := sessions;
      this.users := users;
    }

    /** GET: the caller's key presence, counter and reset date. */
    method Get(req: Request, now: int) returns (reply: Reply)
      modifies limiter
      ensures limiter.entries ==
                old(limiter.entries)[IpOf(req) := RateLimit.Touch(RateLimit.Lookup(old(limiter.entries), IpOf(req)), now)]
      ensures limiter.entries[IpOf(req)].count > limiter.limit ==> reply == Failure(429, "Too many requests")
      ensures limiter.entries[IpOf(req)].count <= limiter.limit ==>
                var user := UserFromAuthHeader(req.authorization, sessions);
                (user.None? ==> reply == Failure(401, "Unauthorized")) &&
                (user.Some? && user.value !in users ==> reply.Failure? && reply.status == 500) &&
                (user.Some? && user.value in users ==>
                   var row := users[user.value];
                   reply == Settings(HasKey(row), row.dailyQueryCount, row.lastQueryReset))
    {
      var tooMany := limiter.Check(IpOf(req), now);
      if tooMany {
        return Failure(429, "Too many requests");
      }
      var user := UserFromAuthHeader(req.authorization, sessions);
      if user.None? {
        return Failure(401, "Unauthorized");
      }
      if user.value !in users {
        return Failure(500, "User not found");
      }
      var row := users[user.value];
      reply := Settings(HasKey(row), row.dailyQueryCount, row.lastQueryReset);
    }

    /** POST: validates the body and stores the key, or null for an empty
        one. `updateError` is the store's answer to the update. */
    method Post(req: Request, now: int, updateError: Option<string>) returns (reply: Reply)
      modifies this, limiter
      ensures limiter.entries ==
                old(limiter.entries)[IpOf(req) := RateLimit.Touch(RateLimit.Lookup(old(limiter.entries), IpOf(req)), now)]
      ensures limiter.entries[IpOf(req)].count > limiter.limit ==> reply == Failure(429, "Too many requests")
      ensures !reply.Saved? ==> users == old(users)
      ensures limiter.entries[IpOf(req)].count <= limiter.limit ==>
                var user := UserFromAuthHeader(req.authorization, sessions);
                var input := ParseKeyInput(req.body);
                (user.None? ==> reply == Failure(401, "Unauthorized")) &&
                (user.Some? && input.KeyInvalid? ==> reply == Failure(400, "Invalid input")) &&
                (user.Some? && !input.KeyInvalid? && updateError.Some? ==>
                   reply == Failure(500, updateError.value)) &&
                (user.Some? && !input.KeyInvalid? && updateError.None? ==>
                   reply == Saved &&
                   users == if user.value in old(users)
                            then old(users)[user.value := old(users)[user.value].(togetherApiKey := StoredKey(input))]
                            else old(users))
    {
      var tooMany := limiter.Check(IpOf(req), now);
      if tooMany {
        return Failure(429, "Too many requests");
      }
      var user := UserFromAuthHeader(req.authorization, sessions);
      if user.None? {
        return Failure(401, "Unauthorized");
      }
      var input := ParseKeyInput(req.body);
      if input.KeyInvalid? {
        return Failure(400, "Invalid input");
      }
      if updateError.Some? {
        return Failure(500, updateError.value);
      }
      if user.value in users {
        users := users[user.value := users[user.value].(togetherApiKey := StoredKey(input))];
      }
      reply := Saved;
    }

    /** PATCH: the daily quota step for one request with the given model on
        `today` (the UTC date, `YYYY-MM-DD`). */
    method Patch(req: Request, now: int, today: string, updateError: Option<string>) returns (reply: Reply)
      modifies this, limiter
      ensures limiter.entries ==
                old(limiter.entries)[IpOf(req) := RateLimit.Touch(RateLimit.Lookup(old(limiter.entries), IpOf(req)), now)]
      ensures limiter.entries[IpOf(req)].count > limiter.limit ==> reply == Failure(429, "Too many requests")
      ensures !reply.Remaining? ==> users == old(users)
      ensures limiter.entries[IpOf(req)].count <= limiter.limit ==>
                var user := UserFromAuthHeader(req.authorization, sessions);
                var model := ModelField(req.body);
                (user.None? ==> reply == Failure(401, "Unauthorized")) &&
                (user.Some? && req.body.JNull? ==> reply == Failure(500, UNHANDLED_ERROR)) &&
                (user.Some? && !req.body.JNull? && (model.None? || model.value == "") ==> reply == Failure(400, "Model required")) &&
                (user.Some? && model.Some? && model.value != "" && user.value !in old(users) ==>
                   reply.Failure? && reply.status == 500) &&
                (user.Some? && model.Some? && model.value != "" && user.value in old(users) ==>
                   var charge := ChargeFor(old(users)[user.value], today, model.value);
                   (charge.Refused? ==> reply == Failure(403, "Query limit reached")) &&
                   (charge.Charged? && updateError.Some? ==> reply == Failure(500, updateError.value)) &&
                   (charge.Charged? && updateError.None? ==>
                      reply == Remaining(charge.count) &&
                      users == old(users)[user.value := AfterCharge(old(users)[user.value], today, model.value)]))
    {
      var tooMany := limiter.Check(IpOf(req), now);
      if tooMany {
        return Failure(429, "Too many requests");
      }
      var user := UserFromAuthHeader(req.authorization, sessions);
      if user.None? {
        return Failure(401, "Unauthorized");
      }
      if req.body.JNull? {
        // destructuring a null body throws; the framework answers 500
        return Failure(500, UNHANDLED_ERROR);
      }
      var model := ModelField(req.body);
      if model.None? || model.value == "" {
        return Failure(400, "Model required");
      }
      if user.value !in users {
        return Failure(500, "User not found");
      }
      var row := users[user.value];
      var dailyQueryCount := row.dailyQueryCount;
      var lastQueryReset := row.lastQueryReset;
      if lastQueryReset != Some(today) {
        dailyQueryCount := Some(DAILY_QUERY_LIMIT);
        lastQueryReset := Some(today);
      }
      if !IsFreeModel(model.value) {
        if dailyQueryCount.None? || dailyQueryCount.value <= 0 {
          return Failure(403, "Query limit reached");
        }
        dailyQueryCount := Some(dailyQueryCount.value - 1);
      }
      if updateError.Some? {
        return Failure(500, updateError.value);
      }
      users := users[user.value := row.(dailyQueryCount := dailyQueryCount, lastQueryReset := lastQueryReset)];
      reply := Remaining(dailyQueryCount);
    }
  }
}
