/** The active-conversation store: a single cell holding the id of the
    conversation shown, or null. */
module ActiveConversation {
  import opened Common

  class ActiveConversationStore {
    var activeConversationId: Option<string>

    constructor ()
      ensures activeConversationId == None
    {
      activeConversationId := None;
    }

    /** `setActiveConversationId`: the cell takes exactly the given value,
        whatever it held, so `None` clears it and the last call wins. */
    method SetActiveConversationId(id: Option<string>)
      modifies this
      ensures activeConversationId == id
    {
      activeConversationId := id;
    }
  }
}
