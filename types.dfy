/** The records a chat is made of (src/lib/chat/types.ts). Timestamps are
    milliseconds since the epoch, ids are opaque strings. */
module ChatTypes {

  datatype Option<T> = None | Some(value: T)

  datatype ChatRole = User | Assistant

  datatype ChatMessage = ChatMessage(id: string, role: ChatRole, content: string, createdAt: int)

  datatype Conversation = Conversation(
    id: string,
    title: string,
    createdAt: int,
    updatedAt: int,
    messages: seq<ChatMessage>)

  /** One entry of the message list sent to the gateway: `{ role, content }`. */
  datatype StreamMsg = StreamMsg(role: ChatRole, content: string)
}
