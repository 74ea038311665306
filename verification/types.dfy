/** The records the chat client keeps in memory: assistants of two provider
    variants, their threads, and the messages of each thread. */
module Types {
  import opened Common

  datatype Role = UserRole | AssistantRole

  datatype Message = Message(id: string, role: Role, content: string, createdAt: int)

  /** A conversation; `remoteThreadId` is present only for threads of an
      agent-backend assistant. */
  datatype Thread = Thread(id: string, title: string, createdAt: int, remoteThreadId: Option<string>)

  /** The provider variant of an assistant. Only the agent backend carries
      the two externally issued identifiers. */
  datatype Provider =
    | Gemini
    | OpenAi(remoteAssistantId: string, vectorStoreId: string)

  datatype Assistant = Assistant(
    id: string,
    name: string,
    instructions: string,
    model: string,
    createdAt: int,
    provider: Provider)

  /** The assistant object the agent backend returns on creation. */
  datatype RemoteAssistant = RemoteAssistant(
    id: string,
    name: string,
    instructions: string,
    model: string,
    createdAt: int)

  /** What provisioning an agent-backend assistant yields: the remote
      assistant and the id of the knowledge store created for it. */
  datatype Provisioned = Provisioned(assistant: RemoteAssistant, vectorStoreId: string)
}
