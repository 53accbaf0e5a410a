/** The conversation records the chat engine carries to every provider. */
module ChatTypes {

  /** Who wrote a message. */
  datatype ChatRole = User | Assistant | System

  /** A stored message of a conversation, as kept by the message store. */
  datatype ChatMessage = ChatMessage(id: int, role: ChatRole, content: string, createTime: int)

  /** The role-and-content pair the adapters forward to a provider. */
  datatype BaseMessage = BaseMessage(role: ChatRole, content: string)
}
