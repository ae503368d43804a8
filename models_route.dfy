/** The `/api/models` route: it needs the server's provider key, passes the
    per-IP rate limiter (30 per minute), serves a cached list for one hour,
    and otherwise fetches the provider's model list and normalises it to
    `{ name, description, price_per_million }` entries. */
module ModelsRoute {
  import opened Common
  import RateLimit

  const RATE_LIMIT: int := 30
  /** Sixty minutes, in milliseconds. */
  const CACHE_TTL: int := 60 * 60 * 1000

  /** One entry of the served list. `description` is whatever truthy
      `display_name` the provider sent, or the empty string;
      `pricePerMillion` is `pricing.input` unless that is null or undefined. */
  datatype ModelInfo = ModelInfo(name: string, description: Json, pricePerMillion: Option<Json>)

  /** Which array of the provider's answer holds the models. Reading
      `.models` of a `null` answer throws, which the route's `catch` turns into
      a generic failure. */
  datatype Selection = Models(items: seq<Json>) | Malformed | Threw

  function SelectModelsArray(data: Json): (r: Selection)
    ensures data.JArr? ==> r == Models(data.items)
    ensures data.JNull? ==> r == Threw
    ensures !data.JArr? && !data.JNull? ==>
              (r.Models? <==> Field(data, "models").Some? && Field(data, "models").value.JArr?)
    ensures !data.JArr? && !data.JNull? && r.Models? ==> Field(data, "models") == Some(JArr(r.items))
    ensures !data.JArr? && !data.JNull? && !r.Models? ==> r == Malformed
  {
    if data.JArr? then Models(data.items)
    else if data.JNull? then Threw
    else match Field(data, "models")
      case Some(JArr(items)) => Models(items)
      case _ => Malformed
  }

  /** `isModel`: a non-null object whose `id` is a string. */
  predicate IsModel(obj: Json) {
    obj.JObj? && "id" in obj.fields && obj.fields["id"].JStr?
  }

  /** The mapping applied to one model object. */
  function Describe(m: Json): (info: ModelInfo)
    requires IsModel(m)
    ensures info.name == m.fields["id"].s
    ensures TruthyOpt(Field(m, "display_name")) ==> info.description == m.fields["display_name"]
    ensures !TruthyOpt(Field(m, "display_name")) ==> info.description == JStr("")
    ensures info.pricePerMillion.None? <==>
              Field(m, "pricing").None? || Field(Field(m, "pricing").value, "input").None? ||
              Field(Field(m, "pricing").value, "input").value.JNull?
    ensures info.pricePerMillion.Some? ==>
              Field(m, "pricing").Some? && info.pricePerMillion == Field(Field(m, "pricing").value, "input")
  {
    var display := Field(m, "display_name");
    var price := match Field(m, "pricing")
      case None => None
      case Some(pricing) =>
        match Field(pricing, "input")
        case Some(JNull) => None
        case other => other;
    ModelInfo(m.fields["id"].s, if TruthyOpt(display) then display.value else JStr(""), price)
  }

  /** `modelsArray.filter(isModel).map(...)`: the i-th entry describes the
      i-th model object of the input, so order is kept, and everything that
      is not a model object is dropped. */
  function Normalize(items: seq<Json>): (r: seq<ModelInfo>)
    ensures |r| <= |items|
    ensures |r| == |Filter(items, IsModel)|
    ensures forall i :: 0 <= i < |r| ==> r[i] == Describe(Filter(items, IsModel)[i])
  {
    var models := Filter(items, IsModel);
    seq(|models|, i requires 0 <= i < |models| => Describe(models[i]))
  }

  /** Every model object of the input is described in the output, and every
      output entry describes a model object of the input. */
  lemma NormalizeMembership(items: seq<Json>)
    ensures forall x :: x in items && IsModel(x) ==> Describe(x) in Normalize(items)
    ensures forall m :: m in Normalize(items) ==> exists x :: x in items && IsModel(x) && m == Describe(x)
  {
    var models := Filter(items, IsModel);
    var r := Normalize(items);
    forall x | x in items && IsModel(x) ensures Describe(x) in r {
      assert x in models;
      var i :| 0 <= i < |models| && models[i] == x;
      assert r[i] == Describe(x);
    }
    forall m | m in r ensures exists x :: x in items && IsModel(x) && m == Describe(x) {
      var i :| 0 <= i < |r| && r[i] == m;
      assert models[i] in models;
    }
  }

  /** A list with no model object in it normalises to the empty list. */
  lemma NoModelsNoEntries(items: seq<Json>)
    requires forall x :: x in items ==> !IsModel(x)
    ensures Normalize(items) == []
  {
    if Filter(items, IsModel) != [] {
      assert Filter(items, IsModel)[0] in Filter(items, IsModel);
    }
  }

  /** The provider's answer to the list request. A body that is not JSON
      makes `res.json()` throw, which is `FetchThrew` too. */
  datatype Upstream = NotOk(status: int, text: string) | Body(data: Json) | FetchThrew(message: string)

  datatype Reply = List(models: seq<ModelInfo>) | Failure(status: int, error: string)

  /** The reply built from a fresh provider answer. */
  function FromUpstream(u: Upstream): (r: Reply)
    ensures r.List? <==> u.Body? && SelectModelsArray(u.data).Models?
    ensures r.List? ==> r.models == Normalize(SelectModelsArray(u.data).items)
    ensures r.Failure? ==> r.status == 500
    ensures u.Body? && SelectModelsArray(u.data).Malformed? ==> r == Failure(500, "Malformed response from Together.AI")
    ensures !u.Body? || SelectModelsArray(u.data).Threw? ==> r == Failure(500, "Failed to fetch models")
  {
    match u
    case NotOk(_, _) => Failure(500, "Failed to fetch models")
    case FetchThrew(_) => Failure(500, "Failed to fetch models")
    case Body(data) =>
      match SelectModelsArray(data)
      case Models(items) => List(Normalize(items))
      case Malformed => Failure(500, "Malformed response from Together.AI")
      case Threw => Failure(500, "Failed to fetch models")
  }

  class ModelsRoute {
    const limiter: RateLimit.RateLimiter
    var cachedModels: Option<seq<ModelInfo>>
    var cacheTimestamp: int

    constructor ()
      ensures fresh(limiter) && limiter.limit == RATE_LIMIT && limiter.entries == map[]
      ensures cachedModels == None && cacheTimestamp == 0
    {
      limiter := new RateLimit.RateLimiter(RATE_LIMIT);
      cachedModels := None;
      cacheTimestamp := 0;
    }

    /** The cache is served when it holds a list (even an empty one) younger
        than CACHE_TTL. */
    predicate CacheFresh(now: int)
      reads this
    {
      cachedModels.Some? && now - cacheTimestamp < CACHE_TTL
    }

    /** GET at time `now` with the server key `apiKey`; `upstream` is what the
        provider would answer. `fetched` says whether the provider was asked. */
    method Get(apiKey: Option<string>, forwardedFor: Option<string>, now: int, upstream: Upstream)
      returns (reply: Reply, fetched: bool)
      modifies this, limiter
      ensures apiKey.None? || apiKey.value == "" ==>
                reply == Failure(500, "Missing Together.AI API key") && !fetched &&
                limiter.entries == old(limiter.entries) &&
                cachedModels == old(cachedModels) && cacheTimestamp == old(cacheTimestamp)
      ensures apiKey.Some? && apiKey.value != "" ==>
                var ip := RateLimit.ClientKey(forwardedFor);
                limiter.entries == old(limiter.entries)[ip := RateLimit.Touch(RateLimit.Lookup(old(limiter.entries), ip), now)] &&
                (limiter.entries[ip].count > limiter.limit ==>
                   reply == Failure(429, "Too many requests") && !fetched) &&
                (limiter.entries[ip].count <= limiter.limit && old(CacheFresh(now)) ==>
                   reply == List(old(cachedModels).value) && !fetched) &&
                (limiter.entries[ip].count <= limiter.limit && !old(CacheFresh(now)) ==>
                   fetched && reply == FromUpstream(upstream))
      ensures reply.List? && fetched ==> cachedModels == Some(reply.models) && cacheTimestamp == now
      ensures !(reply.List? && fetched) ==> cachedModels == old(cachedModels) && cacheTimestamp == old(cacheTimestamp)
    {
      fetched := false;
      if apiKey.None? || apiKey.value == "" {
        return Failure(500, "Missing Together.AI API key"), fetched;
      }
      var tooMany := limiter.Check(RateLimit.ClientKey(forwardedFor), now);
      if tooMany {
        return Failure(429, "Too many requests"), fetched;
      }
      if cachedModels.Some? && now - cacheTimestamp < CACHE_TTL {
        return List(cachedModels.value), fetched;
      }
      fetched := true;
      reply := FromUpstream(upstream);
      if reply.List? {
        cachedModels := Some(reply.models);
        cacheTimestamp := now;
      }
    }
  }
}
