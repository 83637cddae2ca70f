/** Record shapes of the service (backend/src/types/index.ts) and the request bodies
    its handlers read.

    Every row's `id` comes from the store's monotonic insertion counter. It stands
    for both the UUID primary key and the row's `created_at`, so "ORDER BY
    created_at" is order by `id`. */
module Types {
  import opened Common

  /** The messages table accepts only these two roles (CHECK constraint of the schema). */
  datatype Role = UserRole | AssistantRole

  datatype User = User(id: Id, email: string, passwordHash: string)

  datatype Project = Project(
    id: Id,
    userId: Id,
    name: string,
    description: Option<string>,
    systemPrompt: Option<string>,
    updatedAt: nat)

  datatype Prompt = Prompt(id: Id, projectId: Id, name: string, content: string, updatedAt: nat)

  datatype Chat = Chat(id: Id, projectId: Id)

  datatype Message = Message(id: Id, chatId: Id, role: Role, content: string)

  /** What a verified bearer token carries. */
  datatype AuthPayload = AuthPayload(userId: Id, email: string)

  /** The user fields a response shows: id (also the creation stamp) and email;
      there is no field for the password hash. */
  datatype PublicUser = PublicUser(id: Id, email: string)

  /** Request bodies. A field is `None` when it is absent or `null` in the JSON. */
  datatype Credentials = Credentials(email: Option<string>, password: Option<string>)
  datatype ProjectFields = ProjectFields(name: Option<string>, description: Option<string>, systemPrompt: Option<string>)
  datatype PromptFields = PromptFields(name: Option<string>, content: Option<string>)
  datatype ChatRequest = ChatRequest(message: Option<string>)

  /** One history entry handed to the completion provider: `{ role, content }`. */
  datatype HistoryTurn = HistoryTurn(role: Role, content: string)

  /** The four events of a streaming reply, tagged by their `type` field on the wire. */
  datatype Event =
    | UserMessageEvent(message: Message)
    | ChunkEvent(content: string)
    | DoneEvent(message: Message)
    | ErrorEvent(error: string)
}
