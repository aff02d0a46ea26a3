/**
 * The records shared by the chat service and the components: a message, a
 * stored conversation and the four date buckets of the conversation list.
 * Dates and Firestore timestamps are integer milliseconds.
 */
module ChatTypes {

  datatype Role = User | Assistant

  /** The role as it travels in JSON: `'user'` or `'assistant'`. */
  function RoleName(role: Role): string
  {
    match role
    case User => "user"
    case Assistant => "assistant"
  }

  datatype Message = Message(id: string, content: string, role: Role, timestamp: int)

  datatype ChatHistory = ChatHistory(
    id: string,
    title: string,
    createdAt: int,
    updatedAt: int,
    messages: seq<Message>,
    model: string,
    userId: string,
    messageCount: int)

  datatype DateGroup = Today | Yesterday | Last7Days | Older
}
