/** The records exchanged between the chat service, the reply generator and the
    store: a stored message, a chat request and its response, and the reply
    generator's result. */
module Types {

  datatype Option<+T> = None | Some(value: T)

  /** JavaScript truthiness of an optional string: present and not empty. */
  predicate IsPresent(o: Option<string>) {
    o.Some? && o.value != ""
  }

  /** Who wrote a stored message. */
  datatype Sender = User | Ai

  /** A stored message. The row id and the wall-clock timestamp are not kept:
      a conversation's messages are kept in the order they were appended,
      which is the order the history query returns them in. */
  datatype Message = Message(conversationId: string, sender: Sender, text: string)

  /** The body of a chat request. An absent session id is `None`. */
  datatype ChatRequest = ChatRequest(message: string, sessionId: Option<string>)

  datatype ChatResponse = ChatResponse(reply: string, sessionId: string, error: Option<string>)

  /** What the reply generator hands back: the text to show and, when
      something went wrong, a short label. */
  datatype LlmResponse = LlmResponse(content: string, error: Option<string>)
}
