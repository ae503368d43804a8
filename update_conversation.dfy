/** The rename mutation: it updates the title in the store (throwing the
    store's error); before that it maps the cached list so that entries with
    the renamed id carry the new title, keeping the previous list as a
    snapshot that `onError` restores. */
module UpdateConversation {
  import opened Common
  import opened ConversationCache

  datatype RenameInput = RenameInput(id: string, userId: string, title: string)

  /** `previous.map(c => c.id === id ? { ...c, title } : c)`. */
  function Renamed(list: seq<Conversation>, id: string, title: string): (r: seq<Conversation>)
    ensures |r| == |list|
    ensures forall i :: 0 <= i < |list| && list[i].id == id ==> r[i] == list[i].(title := title)
    ensures forall i :: 0 <= i < |list| && list[i].id != id ==> r[i] == list[i]
  {
    seq(|list|, i requires 0 <= i < |list| => if list[i].id == id then list[i].(title := title) else list[i])
  }

  /** Renaming twice to the same title is renaming once. */
  lemma RenameIdempotent(list: seq<Conversation>, id: string, title: string)
    ensures Renamed(Renamed(list, id, title), id, title) == Renamed(list, id, title)
  {
  }

  /** Two renames of the same conversation: the last title wins. */
  lemma RenameLastWins(list: seq<Conversation>, id: string, first: string, second: string)
    ensures Renamed(Renamed(list, id, first), id, second) == Renamed(list, id, second)
  {
  }

  /** Renames of two different conversations commute. */
  lemma RenamesOfDifferentIdsCommute(list: seq<Conversation>, a: string, ta: string, b: string, tb: string)
    requires a != b
    ensures Renamed(Renamed(list, a, ta), b, tb) == Renamed(Renamed(list, b, tb), a, ta)
  {
  }

  /** A rename keeps ids, owners, models, timestamps and the archived flag, so
      the list's ids stay in their order. */
  lemma RenameKeepsIds(list: seq<Conversation>, id: string, title: string)
    ensures forall i :: 0 <= i < |list| ==>
              var c := Renamed(list, id, title)[i];
              c.id == list[i].id && c.userId == list[i].userId && c.model == list[i].model &&
              c.createdAt == list[i].createdAt && c.updatedAt == list[i].updatedAt &&
              c.lastMessageAt == list[i].lastMessageAt && c.archived == list[i].archived
  {
  }

  /** `onMutate`: the renamed list goes into the cache and the list before it
      is returned as the snapshot. */
  method OnMutate(cache: QueryCache, input: RenameInput) returns (previous: seq<Conversation>)
    modifies cache
    ensures previous == old(cache.Get(input.userId))
    ensures cache.lists == old(cache.lists)[input.userId := Renamed(previous, input.id, input.title)]
  {
    previous := cache.Get(input.userId);
    cache.Put(input.userId, Renamed(previous, input.id, input.title));
  }

  /** `onError`: the snapshot comes back exactly. */
  method OnError(cache: QueryCache, input: RenameInput, previous: seq<Conversation>)
    modifies cache
    ensures cache.lists == old(cache.lists)[input.userId := previous]
  {
    cache.Put(input.userId, previous);
  }

  /** One whole rename: `onMutate`, the store update (failing with
      `storeError` when that is given), then `onError` on failure. */
  method Rename(cache: QueryCache, input: RenameInput, storeError: Option<Json>) returns (result: Outcome<()>)
    modifies cache
    ensures result == WriteResult(storeError)
    ensures result.Thrown? ==> cache.lists == old(cache.lists)[input.userId := old(cache.Get(input.userId))]
    ensures result.Done? ==>
              cache.lists == old(cache.lists)[input.userId := Renamed(old(cache.Get(input.userId)), input.id, input.title)]
  {
    var previous := OnMutate(cache, input);
    result := WriteResult(storeError);
    if result.Thrown? {
      OnError(cache, input, previous);
    }
  }
}
