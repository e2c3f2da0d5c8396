/** The in-memory conversation log (memory/in_memory.py). */
module Memory {
  import opened Messages

  class ConversationLog {
    /** The stored messages, in insertion order. */
    var messages: seq<Message>

    constructor()
      ensures messages == []
    {
      messages := [];
    }

    /** `add`: append at the end; no deduplication, earlier entries untouched. */
    method Add(message: Message)
      modifies this
      ensures messages == old(messages) + [message]
      ensures |messages| == |old(messages)| + 1
      ensures messages[..|old(messages)|] == old(messages)
    {
      messages := messages + [message];
    }

    /**
     * `get_conversation`: the messages in insertion order. The result is a
     * value, so nothing done to it reaches the log (the source returns a copy).
     */
    method GetConversation() returns (snapshot: seq<Message>)
      ensures snapshot == messages
    {
      snapshot := messages;
    }
  }
}
