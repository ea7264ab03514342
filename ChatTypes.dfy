/**
  The records the chat client and the chat service exchange (Frontend/types.ts,
  backend/models/schemas.py). Timestamps are totally ordered instants that are only compared.
 */
module ChatTypes {
  import opened Wrappers

  /**
    An instant. The `isoformat()` strings, with or without the `.ffffff`
    microseconds, compare like the instants they name: when two stamps share
    their seconds, the shorter is a prefix of the longer and sorts first.
   */
  type Time = int

  datatype Role = User | Assistant

  /** One citation: the document it comes from, an excerpt and the chunk's position. */
  datatype Source = Source(source: string, chunkText: string, chunkIndex: int)

  datatype Message = Message(role: Role, content: string, timestamp: Option<Time>, sources: Option<seq<Source>>)

  /** What the client caches per thread: a title and the ordered messages. */
  datatype ConversationDetail = ConversationDetail(title: string, messages: seq<Message>)

  datatype ConversationSummary = ConversationSummary(
    threadId: string, title: string, createdAt: Time, updatedAt: Time, messageCount: nat)

  /** The body of `POST /chat`; `threadId` is absent for a draft. */
  datatype ChatRequest = ChatRequest(query: string, threadId: Option<string>)

  /** The reply of `POST /chat` as the client reads it. */
  datatype ChatResponse = ChatResponse(answer: string, threadId: string, sources: seq<Source>)

  /** JavaScript truthiness of a `string | null`: present and not the empty string. */
  predicate Truthy(id: Option<string>) {
    id.Some? && id.value != ""
  }
}
