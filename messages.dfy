/** The chat message record shared by the whole core. */
module Messages {

  datatype Role = System | User | Assistant

  /** `ChatMessage`: a role and its text. */
  datatype ChatMessage = ChatMessage(role: Role, content: string)
}
