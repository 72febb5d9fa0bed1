/** The chat message record shared by the client, the conversation screen and the bubbles. */
module ChatMessages {
  import opened Wrappers

  /** A UUID. Fresh ids are supplied by callers, so equality is all the model needs. */
  type Uuid = nat

  /**
   * One bubble. `apiContent`, when present, is the text the user actually asked for while
   * `text` is what the bubble shows (a short label for a prompt built elsewhere).
   */
  datatype ChatMessage = ChatMessage(
    id: Uuid,
    text: string,
    apiContent: Option<string>,
    isUser: bool,
    isStreaming: bool,
    canRetry: bool,
    isIncomplete: bool)
}
