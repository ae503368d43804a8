/** The delete mutation: it deletes the row in the store (throwing the
    store's error); before that it filters the conversation out of the cached
    list, keeping the previous list as a snapshot that `onError` restores. */
module DeleteConversation {
  import opened Common
  import opened ConversationCache

  datatype DeleteInput = DeleteInput(id: string, userId: string)

  /** `previous.filter(c => c.id !== id)`. */
  function Without(list: seq<Conversation>, id: string): (r: seq<Conversation>)
    ensures |r| <= |list|
    ensures forall c :: c in r <==> c in list && c.id != id
    ensures IsSubsequence(r, list)
  {
    var keep := (c: Conversation) => c.id != id;
    FilterIsSubsequence(list, keep);
    Filter(list, keep)
  }

  /** Deleting an id that is not listed leaves the list as it is. */
  lemma DeleteAbsentIsIdentity(list: seq<Conversation>, id: string)
    requires forall c :: c in list ==> c.id != id
    ensures Without(list, id) == list
  {
    FilterAll(list, (c: Conversation) => c.id != id);
  }

  /** Deleting twice is deleting once. */
  lemma DeleteIdempotent(list: seq<Conversation>, id: string)
    ensures Without(Without(list, id), id) == Without(list, id)
  {
    DeleteAbsentIsIdentity(Without(list, id), id);
  }

  /** `onMutate`: the filtered list goes into the cache and the list before
      it is returned as the snapshot. */
  method OnMutate(cache: QueryCache, input: DeleteInput) returns (previous: seq<Conversation>)
    modifies cache
    ensures previous == old(cache.Get(input.userId))
    ensures cache.lists == old(cache.lists)[input.userId := Without(previous, input.id)]
  {
    previous := cache.Get(input.userId);
    cache.Put(input.userId, Without(previous, input.id));
  }

  /** `onError`: the snapshot comes back exactly. */
  method OnError(cache: QueryCache, input: DeleteInput, previous: seq<Conversation>)
    modifies cache
    ensures cache.lists == old(cache.lists)[input.userId := previous]
  {
    cache.Put(input.userId, previous);
  }

  /** One whole delete: `onMutate`, the store delete (failing with
      `storeError` when that is given), then `onError` on failure. */
  method Delete(cache: QueryCache, input: DeleteInput, storeError: Option<Json>) returns (result: Outcome<()>)
    modifies cache
    ensures result == WriteResult(storeError)
    ensures result.Thrown? ==> cache.lists == old(cache.lists)[input.userId := old(cache.Get(input.userId))]
    ensures result.Done? ==>
              cache.lists == old(cache.lists)[input.userId := Without(old(cache.Get(input.userId)), input.id)]
  {
    var previous := OnMutate(cache, input);
    result := WriteResult(storeError);
    if result.Thrown? {
      OnError(cache, input, previous);
    }
  }
}
