/** The in-memory, per-IP, fixed-window rate limiter. The same block is copied
    into the user-settings, models and image-generation routes, each with its
    own map and its own limit (30, 30 and 10 requests per 60 000 ms). */
module RateLimit {
  import opened Common

  /** One minute, in milliseconds. */
  const RATE_WINDOW: int := 60 * 1000

  /** The map entry for one client: calls counted and start of the window. */
  datatype Entry = Entry(count: int, last: int)

  /** `req.headers.get('x-forwarded-for') || 'unknown'`: a missing or empty
      header falls back to the shared key "unknown". */
  function ClientKey(forwardedFor: Option<string>): (ip: string)
    ensures ip != ""
    ensures forwardedFor.Some? && forwardedFor.value != "" ==> ip == forwardedFor.value
    ensures forwardedFor.None? || forwardedFor.value == "" ==> ip == "unknown"
  {
    if forwardedFor.Some? && forwardedFor.value != "" then forwardedFor.value else "unknown"
  }

  function Lookup(entries: map<string, Entry>, ip: string): Option<Entry> {
    if ip in entries then Some(entries[ip]) else None
  }

  /** The entry after one call at time `now`: a client seen for the first time
      starts a window at `now`; a window older than RATE_WINDOW (strictly) is
      restarted at `now`; the call is then counted, rejected or not. */
  function Touch(prev: Option<Entry>, now: int): (e: Entry)
    ensures e.count >= 1 || (prev.Some? && e.count == prev.value.count + 1)
    ensures prev.None? || now - prev.value.last > RATE_WINDOW ==> e == Entry(1, now)
    ensures prev.Some? && now - prev.value.last <= RATE_WINDOW ==>
              e.last == prev.value.last && e.count == prev.value.count + 1
  {
    var start := if prev.Some? then prev.value else Entry(0, now);
    var current := if now - start.last > RATE_WINDOW then Entry(0, now) else start;
    Entry(current.count + 1, current.last)
  }

  /** A sequence of calls from one client at the given times: the final entry
      and how many of the calls were let through with the given limit. */
  function Replay(e: Option<Entry>, times: seq<int>, limit: int): (r: (Option<Entry>, nat))
    decreases |times|
  {
    if times == [] then (e, 0)
    else
      var next := Touch(e, times[0]);
      var rest := Replay(Some(next), times[1..], limit);
      (rest.0, rest.1 + if next.count > limit then 0 else 1)
  }

  /** Within one window every call is counted, rejected ones included, and no
      more than `limit - c` further calls are let through. */
  lemma {:induction false} WindowCountsEveryCall(c: int, last: int, times: seq<int>, limit: int)
    requires c >= 0
    requires forall i :: 0 <= i < |times| ==> times[i] - last <= RATE_WINDOW
    ensures Replay(Some(Entry(c, last)), times, limit).0 == Some(Entry(c + |times|, last))
    ensures Replay(Some(Entry(c, last)), times, limit).1 <= if limit - c > 0 then limit - c else 0
    decreases |times|
  {
    if times != [] {
      WindowCountsEveryCall(c + 1, last, times[1..], limit);
    }
  }

  /** A client with no entry gets at most `limit` calls through as long as all
      its calls fall within RATE_WINDOW of its first one. */
  lemma AtMostLimitPerWindow(times: seq<int>, limit: int)
    requires times != [] && limit >= 0
    requires forall i :: 0 <= i < |times| ==> times[i] - times[0] <= RATE_WINDOW
    ensures Replay(None, times, limit).1 <= limit
  {
    WindowCountsEveryCall(1, times[0], times[1..], limit);
  }

  /** The limiter state of one route: its limit and its `rateLimitMap`. */
  class RateLimiter {
    const limit: int
    var entries: map<string, Entry>

    constructor (limit: int)
      ensures this.limit == limit && entries == map[]
    {
      this.limit := limit;
      entries := map[];
    }

    /** Counts one call from `ip` at `now` and says whether it is over the
        limit (the caller then answers 429). */
    method Check(ip: string, now: int) returns (tooMany: bool)
      modifies this
      ensures entries == old(entries)[ip := Touch(Lookup(old(entries), ip), now)]
      ensures tooMany <==> entries[ip].count > limit
    {
      var entry := if ip in entries then entries[ip] else Entry(0, now);
      if now - entry.last > RATE_WINDOW {
        entry := entry.(count := 0, last := now);
      }
      entry := entry.(count := entry.count + 1);
      entries := entries[ip := entry];
      tooMany := entry.count > limit;
    }
  }
}
