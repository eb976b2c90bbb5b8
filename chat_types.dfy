/** Values shared by the chatbot's session store and its request composer. */
module ChatTypes {

  /** A value that may be absent: a missing session key, or a stream that raised. */
  datatype Option<+T> = None | Some(value: T)

  /** The speaker of a stored chat message. */
  datatype Role = User | Assistant | System

  /** One entry of the conversation history; immutable once created. */
  datatype ChatMessage = ChatMessage(role: Role, content: string)

  /** One entry of the request sent to the generation backend. */
  datatype OutboundMessage =
    | SystemMessage(content: string)
    | HumanMessage(content: string)

  /** The ordered message list handed to the backend for one turn. */
  type Request = seq<OutboundMessage>

  /** How the backend answered one request.
      GenerationFailed: the model could not be set up or the call raised before any chunk.
      Streamed: the chunks that arrived, in arrival order; when `interrupted` holds, the
      stream raised after delivering them. */
  datatype StreamOutcome =
    | GenerationFailed
    | Streamed(chunks: seq<string>, interrupted: bool)
  {
    /** The stream ran to its end without raising. */
    predicate Completed() {
      Streamed? && !interrupted
    }
  }
}
