/** The messages query of one conversation: it only runs for a real
    conversation id (non-empty and not provisional) and then asks the store
    for that conversation's messages, oldest first. */
module UseMessages {
  import opened Common
  import opened ConversationCache
  import CreateConversation
  import ConversationModelStore

  /** A row of the `messages` table, with `created_at` in milliseconds. */
  datatype Message = Message(id: string, conversationId: string, role: string, content: string, createdAt: int)

  /** `!!conversationId && !conversationId.startsWith('temp-')`. */
  predicate IsRealConversation(id: Option<string>) {
    id.Some? && id.value != "" && !(TEMP_PREFIX <= id.value)
  }

  /** The select the query function sends: table, the conversation it
      filters on, and the column it orders by. */
  datatype MessagesRequest = MessagesRequest(table: string, conversationId: string, orderBy: string, ascending: bool)

  /** One run of the query function: the request made (if any) and how it
      ended. `answer` is the store's answer to the request. */
  datatype QueryRun = QueryRun(request: Option<MessagesRequest>, result: Outcome<seq<Message>>)

  function QueryFn(id: Option<string>, answer: Outcome<seq<Message>>): (run: QueryRun)
    ensures !IsRealConversation(id) ==> run.request.None? && run.result == Done([])
    ensures IsRealConversation(id) ==>
              run.request == Some(MessagesRequest("messages", id.value, "created_at", true)) &&
              run.result == answer
  {
    if !IsRealConversation(id) then QueryRun(None, Done([]))
    else QueryRun(Some(MessagesRequest("messages", id.value, "created_at", true)), answer)
  }

  /** The options handed to the query library: one minute fresh, ten minutes
      kept, an empty placeholder, no refetch on focus. */
  datatype QueryOptions = QueryOptions(
    key: (string, Option<string>),
    enabled: bool,
    staleTime: int,
    gcTime: int,
    placeholder: seq<Message>,
    refetchOnWindowFocus: bool)

  function Options(id: Option<string>): (o: QueryOptions)
    ensures o.enabled <==> IsRealConversation(id)
    ensures o.key == ("messages", id)
    ensures o.placeholder == [] && !o.refetchOnWindowFocus
    ensures o.staleTime == 60 * 1000 && o.gcTime == 10 * 60 * 1000
  {
    QueryOptions(("messages", id), IsRealConversation(id), 60 * 1000, 10 * 60 * 1000, [], false)
  }

  /** The model store's remote guard and this query's guard agree on every
      id. */
  lemma RemoteGuardsAgree(id: string)
    ensures ConversationModelStore.RemoteAllowed(id) <==> IsRealConversation(Some(id))
  {
  }

  /** The optimistic row of a conversation being created never has its
      messages fetched: its id is provisional. */
  lemma OptimisticRowNotQueried(input: CreateConversation.CreateInput, token: string, now: int, answer: Outcome<seq<Message>>)
    ensures !IsRealConversation(Some(CreateConversation.OptimisticRow(input, token, now).id))
    ensures QueryFn(Some(CreateConversation.OptimisticRow(input, token, now).id), answer) == QueryRun(None, Done([]))
  {
  }
}
