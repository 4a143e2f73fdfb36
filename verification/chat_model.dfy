/** The chat transcript vocabulary shared by the controller, the orchestrator and the agent plugin. */
module ChatModel {
  import opened Wrappers

  /** Semantic Kernel's `AuthorRole`. */
  datatype AuthorRole = System | User | Assistant | Tool

  /** `AuthorRole.ToString()`, which prints the role's label. */
  function RoleLabel(role: AuthorRole): string {
    match role
    case System => "system"
    case User => "user"
    case Assistant => "assistant"
    case Tool => "tool"
  }

  /** A `ChatMessageContent`: a role and a possibly-null text. */
  datatype ChatMessage = ChatMessage(role: AuthorRole, content: Option<string>)

  /** The message `ChatHistory.AddSystemMessage`, `AddUserMessage` and `AddAssistantMessage` append. */
  function SystemMessage(text: string): ChatMessage { ChatMessage(System, Some(text)) }
  function UserMessage(text: string): ChatMessage { ChatMessage(User, Some(text)) }
  function AssistantMessage(text: string): ChatMessage { ChatMessage(Assistant, Some(text)) }

  /** A `ChatHistory`: the messages in the order they were appended. */
  type ChatHistory = seq<ChatMessage>

  /**
   * One item of an agent's response stream, reduced to its `Message`;
   * `None` stands for an item whose message is not a `ChatMessageContent`.
   */
  type StreamItem = Option<ChatMessage>

  /**
   * What invoking a language-model agent does, supplied from outside the model:
   * it streams items, or it throws an exception with the given message.
   */
  datatype AgentRun = Streamed(items: seq<StreamItem>) | Threw(message: string)
}
