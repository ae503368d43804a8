/** The create-conversation mutation: it inserts a row (title "New Chat" by
    default) and throws the store's error; before the insert it prepends an
    optimistic row with a provisional `temp-` id to the cached list and keeps
    the previous list as a snapshot; on error it restores the snapshot; on
    success it puts the server's row first and drops the provisional one.

    The hook builds its options as `{ mutationFn, onMutate, onError,
    onSuccess, ...options }`, so a caller that passes its own `onSuccess`
    (both callers do) replaces the hook's. `CacheAfterSuccessAsWritten`
    models that composition; `OnSuccess` is the replacement the hook
    evidently intends, and is what the rest of the model uses. */
module CreateConversation {
  import opened Common
  import opened ConversationCache

  const DEFAULT_TITLE: string := "New Chat"

  datatype CreateInput = CreateInput(userId: string, model: string, title: Option<string>)

  /** What `onMutate` returns: the snapshot and the provisional id. */
  datatype CreateContext = CreateContext(previous: seq<Conversation>, tempId: string)

  /** `input.title ?? 'New Chat'`. */
  function TitleOf(input: CreateInput): (t: string)
    ensures input.title.None? ==> t == DEFAULT_TITLE
    ensures input.title.Some? ==> t == input.title.value
  {
    if input.title.Some? then input.title.value else DEFAULT_TITLE
  }

  /** The values the insert sends: owner, model and the defaulted title. */
  datatype NewRow = NewRow(userId: string, model: string, title: string)

  function InsertPayload(input: CreateInput): (row: NewRow)
    ensures row.userId == input.userId && row.model == input.model && row.title == TitleOf(input)
  {
    NewRow(input.userId, input.model, TitleOf(input))
  }

  /** `mutationFn`: the store answers a `(data, error)` pair; a present
      error is thrown, otherwise the inserted row is returned. */
  function InsertResult(data: Conversation, error: Option<Json>): (r: Outcome<Conversation>)
    ensures r.Thrown? <==> error.Some?
    ensures r.Thrown? ==> r.error == error.value
    ensures r.Done? ==> r.value == data
  {
    if error.Some? then Thrown(error.value) else Done(data)
  }

  /** The optimistic row for `input`, with provisional id `temp-<token>` and
      all three timestamps at `now`. */
  function OptimisticRow(input: CreateInput, token: string, now: int): (c: Conversation)
    ensures TEMP_PREFIX <= c.id && c.id[|TEMP_PREFIX|..] == token
    ensures c.userId == input.userId && c.model == input.model && c.title == TitleOf(input)
    ensures c.createdAt == c.updatedAt == c.lastMessageAt == Some(now)
    ensures !c.archived
  {
    Conversation(TEMP_PREFIX + token, input.userId, input.model, TitleOf(input), Some(now), Some(now), Some(now), false)
  }

  /** The list after a successful insert: the server's row, then the list as
      it is now without any entry carrying the provisional id. */
  function WithCreated(current: seq<Conversation>, created: Conversation, tempId: string): (r: seq<Conversation>)
    ensures |r| >= 1 && r[0] == created
    ensures r[1..] == Filter(current, (c: Conversation) => c.id != tempId)
    ensures forall c :: c in r[1..] <==> c in current && c.id != tempId
  {
    [created] + Filter(current, (c: Conversation) => c.id != tempId)
  }

  /** On success the provisional row is gone, the server's row leads, and
      the earlier rows follow in their order. */
  lemma CreatedReplacesTempRow(previous: seq<Conversation>, input: CreateInput, token: string, now: int, created: Conversation)
    requires forall c :: c in previous ==> c.id != TEMP_PREFIX + token
    requires created.id != TEMP_PREFIX + token
    ensures var r := WithCreated([OptimisticRow(input, token, now)] + previous, created, TEMP_PREFIX + token);
            r == [created] + previous &&
            forall c :: c in r ==> c.id != TEMP_PREFIX + token
  {
    var tempId := TEMP_PREFIX + token;
    var keep := (c: Conversation) => c.id != tempId;
    var listed := [OptimisticRow(input, token, now)] + previous;
    assert listed[1..] == previous;
    FilterAll(previous, keep);
  }

  /** `onMutate`: nothing for an empty user id; otherwise the optimistic row
      goes first in the cached list and the previous list is the snapshot. */
  method OnMutate(cache: QueryCache, input: CreateInput, token: string, now: int) returns (ctx: Option<CreateContext>)
    modifies cache
    ensures input.userId == "" ==> ctx.None? && cache.lists == old(cache.lists)
    ensures input.userId != "" ==>
              ctx == Some(CreateContext(old(cache.Get(input.userId)), TEMP_PREFIX + token)) &&
              cache.lists == old(cache.lists)[input.userId := [OptimisticRow(input, token, now)] + old(cache.Get(input.userId))]
  {
    if input.userId == "" {
      return None;
    }
    var previous := cache.Get(input.userId);
    var optimistic := OptimisticRow(input, token, now);
    cache.Put(input.userId, [optimistic] + previous);
    ctx := Some(CreateContext(previous, optimistic.id));
  }

  /** `onError`: the snapshot comes back exactly. */
  method OnError(cache: QueryCache, input: CreateInput, ctx: Option<CreateContext>)
    modifies cache
    ensures ctx.Some? ==> cache.lists == old(cache.lists)[input.userId := ctx.value.previous]
    ensures ctx.None? ==> cache.lists == old(cache.lists)
  {
    if ctx.Some? {
      cache.Put(input.userId, ctx.value.previous);
    }
  }

  /** The hook's `onSuccess`: the server's row replaces the provisional one. */
  method OnSuccess(cache: QueryCache, created: Conversation, input: CreateInput, ctx: Option<CreateContext>)
    modifies cache
    ensures ctx.Some? ==>
              cache.lists == old(cache.lists)[input.userId := WithCreated(old(cache.Get(input.userId)), created, ctx.value.tempId)]
    ensures ctx.None? ==> cache.lists == old(cache.lists)
  {
    if ctx.Some? {
      var current := cache.Get(input.userId);
      cache.Put(input.userId, WithCreated(current, created, ctx.value.tempId));
    }
  }

  /** One whole mutation: `onMutate`, the insert (whose store answer is
      `data` and `error`), then `onError` or `onSuccess`. */
  method Create(cache: QueryCache, input: CreateInput, token: string, now: int, data: Conversation, error: Option<Json>)
    returns (result: Outcome<Conversation>)
    modifies cache
    ensures result == InsertResult(data, error)
    ensures forall u :: u != input.userId ==> (u in cache.lists <==> u in old(cache.lists))
    ensures forall u :: u != input.userId && u in cache.lists ==> cache.lists[u] == old(cache.lists[u])
    ensures input.userId != "" && error.Some? ==> cache.Get(input.userId) == old(cache.Get(input.userId))
    ensures input.userId != "" && error.None? ==>
              cache.Get(input.userId) == WithCreated([OptimisticRow(input, token, now)] + old(cache.Get(input.userId)), data, TEMP_PREFIX + token)
    ensures input.userId == "" ==> cache.lists == old(cache.lists)
  {
    var ctx := OnMutate(cache, input, token, now);
    result := InsertResult(data, error);
    if result.Thrown? {
      OnError(cache, input, ctx);
    } else {
      OnSuccess(cache, result.value, input, ctx);
    }
  }

  // ---------------------------------------------------------------------
  // The options composition as written

  /** Who wrote a slot of the options object handed to `useMutation`. */
  datatype Handler = HookHandler | CallerHandler

  /** The hook's own slots, written before the spread of the caller's options. */
  const HOOK_OPTIONS: map<string, Handler> :=
    map["mutationFn" := HookHandler, "onMutate" := HookHandler, "onError" := HookHandler, "onSuccess" := HookHandler]

  /** The slots a caller's options object defines, one per key it gives. */
  function CallerOptions(keys: set<string>): (o: map<string, Handler>)
    ensures o.Keys == keys
    ensures forall k :: k in o ==> o[k] == CallerHandler
  {
    map k | k in keys :: CallerHandler
  }

  /** Object spread `{ ...base, ...over }`: every key of either object, and
      a key `over` defines takes `over`'s value. */
  function Spread(base: map<string, Handler>, over: map<string, Handler>): (r: map<string, Handler>)
    ensures r.Keys == base.Keys + over.Keys
    ensures forall k :: k in over ==> r[k] == over[k]
    ensures forall k :: k in base && k !in over ==> r[k] == base[k]
  {
    base + over
  }

  /** The options `useMutation` receives when the caller gives the keys
      `callerKeys`. */
  function MergedOptions(callerKeys: set<string>): (o: map<string, Handler>)
    ensures o.Keys == HOOK_OPTIONS.Keys + callerKeys
  {
    Spread(HOOK_OPTIONS, CallerOptions(callerKeys))
  }

  /** The caller's `onSuccess` replaces the hook's exactly when the caller
      gives one; the hook's `mutationFn`, `onMutate` and `onError` stay
      unless the caller overrides them too. */
  lemma MergedSlots(callerKeys: set<string>)
    ensures MergedOptions(callerKeys)["onSuccess"] == (if "onSuccess" in callerKeys then CallerHandler else HookHandler)
    ensures forall k :: k in HOOK_OPTIONS && k !in callerKeys ==> MergedOptions(callerKeys)[k] == HookHandler
    ensures forall k :: k in callerKeys ==> MergedOptions(callerKeys)[k] == CallerHandler
  {
  }

  /** Whether the hook's own `onSuccess` runs after a successful insert. */
  function RunsHookOnSuccess(callerKeys: set<string>): (runs: bool)
    ensures runs <==> "onSuccess" !in callerKeys
  {
    MergedSlots(callerKeys);
    MergedOptions(callerKeys)["onSuccess"] == HookHandler
  }

  /** The keys both callers (chat input and mini sidebar) pass. */
  const CALLER_KEYS: set<string> := {"onSuccess"}

  /** The cached list after a successful insert, as the hook is written: the
      replacement only happens when the caller gives no `onSuccess`. */
  function CacheAfterSuccessAsWritten(current: seq<Conversation>, created: Conversation, tempId: string,
                                      callerKeys: set<string>): (r: seq<Conversation>)
    ensures "onSuccess" !in callerKeys ==> r == WithCreated(current, created, tempId)
    ensures "onSuccess" in callerKeys ==> r == current
  {
    if RunsHookOnSuccess(callerKeys) then WithCreated(current, created, tempId) else current
  }

  /** As written, with a caller `onSuccess` (chat input and mini sidebar both
      pass one), the provisional row stays in the cached list after the
      insert succeeded and the server's row is not added. */
  lemma TempRowSurvivesAsWritten(previous: seq<Conversation>, input: CreateInput, token: string, now: int, created: Conversation)
    requires created !in previous && created != OptimisticRow(input, token, now)
    ensures var r := CacheAfterSuccessAsWritten([OptimisticRow(input, token, now)] + previous, created, TEMP_PREFIX + token, CALLER_KEYS);
            r[0].id == TEMP_PREFIX + token && created !in r
  {
  }
}
