/** The part of an oak request context that the handlers read and write. */
module Http {
  import opened Common
  import opened Types

  const InternalError := "Internal server error"

  /** Response bodies, one variant per JSON shape the handlers send. */
  datatype Body =
    | NoBody
    | ErrorBody(error: string)
    | UserBody(user: PublicUser)
    | SessionBody(user: PublicUser, token: string)
    | ProjectList(projects: seq<Project>)
    | ProjectBody(project: Project)
    | PromptList(prompts: seq<Prompt>)
    | PromptBody(prompt: Prompt)
    | ChatList(chats: seq<Chat>)
    | ChatBody(chat: Chat)
    | ChatWithMessages(chat: Chat, messages: seq<Message>)
    | StreamBody

  class Context {
    /** The request's `Authorization` header, if any. */
    const authorization: Option<string>
    var status: int
    var body: Body
    /** `ctx.state.auth`. */
    var auth: Option<AuthPayload>
    /** One entry per call of the downstream `next`, holding `ctx.state.auth` as that call saw it. */
    var nextCalls: seq<Option<AuthPayload>>

    /** A fresh context: oak answers 404 with no body until a handler says otherwise. */
    constructor (authorization: Option<string>)
      ensures this.authorization == authorization
      ensures status == 404 && body == NoBody && auth == None && nextCalls == []
    {
      this.authorization := authorization;
      status := 404;
      body := NoBody;
      auth := None;
      nextCalls := [];
    }

    /** `ctx.response.status = status; ctx.response.body = body`. A handler that assigns
        only a body gets status 200 from oak, which callers pass here explicitly. */
    method Respond(status: int, body: Body)
      modifies this`status, this`body
      ensures this.status == status && this.body == body
    {
      this.status := status;
      this.body := body;
    }

    /** `await next()`: runs the rest of the chain, which sees the current `auth`. */
    method Next()
      modifies this`nextCalls
      ensures nextCalls == old(nextCalls) + [auth]
    {
      nextCalls := nextCalls + [auth];
    }
  }
}
