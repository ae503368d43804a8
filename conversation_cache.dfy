/** The client-side query cache of conversation lists, keyed by user id (the
    query key `['conversations', userId]`), and the conversation row it holds.
    The create, rename and delete hooks write to it optimistically. */
module ConversationCache {
  import opened Common

  /** A row of the `conversations` table. Timestamps are milliseconds since
      the epoch; `None` stands for a date string that does not parse. */
  datatype Conversation = Conversation(
    id: string,
    userId: string,
    model: string,
    title: string,
    createdAt: Option<int>,
    updatedAt: Option<int>,
    lastMessageAt: Option<int>,
    archived: bool)

  /** The prefix of a provisional id given to a row that the store has not
      yet created. */
  const TEMP_PREFIX: string := "temp-"

  /** The mutation function of the rename and delete hooks: a write whose
      store answer carries an error throws it; success carries no value. */
  function WriteResult(storeError: Option<Json>): (r: Outcome<()>)
    ensures storeError.Some? <==> r.Thrown?
    ensures storeError.Some? ==> r.error == storeError.value
  {
    if storeError.Some? then Thrown(storeError.value) else Done(())
  }

  class QueryCache {
    /** The cached list of each user; a user without an entry has no data. */
    var lists: map<string, seq<Conversation>>

    constructor ()
      ensures lists == map[]
    {
      lists := map[];
    }

    /** `getQueryData(['conversations', userId]) || []`. */
    function Get(userId: string): (list: seq<Conversation>)
      reads this
      ensures userId !in lists ==> list == []
      ensures userId in lists ==> list == lists[userId]
    {
      if userId in lists then lists[userId] else []
    }

    /** `setQueryData(['conversations', userId], list)`. */
    method Put(userId: string, list: seq<Conversation>)
      modifies this
      ensures lists == old(lists)[userId := list]
    {
      lists := lists[userId := list];
    }
  }
}
