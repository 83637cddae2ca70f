/** Chat endpoints (backend/src/routes/chats.ts): listing, reading, creating and
    deleting chats under a project the caller owns, and the streaming relay that stores
    the user's message, streams the provider's reply as events and stores the reply. */
module Chats {
  import opened Common
  import opened Types
  import opened Http
  import opened Db
  import opened Completion
  import Projects

  const ChatNotFound := "Chat not found"
  const MessageRequired := "Message is required"
  const UnknownError := "An error occurred"

  // ---------------------------------------------------------------- CRUD

  /** `GET /projects/:projectId/chats`: 404 unless the caller owns the project;
      otherwise its chats, newest first. */
  method ListChats(ctx: Context, db: Database, projectId: Id, unavailable: bool)
    requires ctx.auth.Some? && db.Valid()
    modifies ctx`status, ctx`body, db`held
    ensures db.held == old(db.held)
    ensures unavailable ==> ctx.status == 500 && ctx.body == ErrorBody(InternalError)
    ensures !unavailable && !ProjectOwned(db.projects, projectId, ctx.auth.value.userId) ==>
      ctx.status == 404 && ctx.body == ErrorBody(Projects.ProjectNotFound)
    ensures !unavailable && ProjectOwned(db.projects, projectId, ctx.auth.value.userId) ==>
      ctx.status == 200 && ctx.body.ChatList? &&
      (forall c :: c in ctx.body.chats <==> c in db.chats && c.projectId == projectId) &&
      Descending(ctx.body.chats, ChatKey)
  {
    if unavailable {
      ctx.Respond(500, ErrorBody(InternalError));
      return;
    }
    db.Connect();
    if OwnedProject(db.projects, projectId, ctx.auth.value.userId).None? {
      ctx.Respond(404, ErrorBody(Projects.ProjectNotFound));
      db.Release();
      return;
    }
    ChatsOfNewestFirst(db.chats, projectId);
    ctx.Respond(200, ChatList(ChatsOf(db.chats, projectId)));
    db.Release();
  }

  /** `GET /projects/:projectId/chats/:id`: 404 unless the chat is under that project
      and the caller owns it; otherwise the chat with all its messages, oldest first. */
  method GetChat(ctx: Context, db: Database, projectId: Id, chatId: Id, unavailable: bool)
    requires ctx.auth.Some? && db.Valid()
    modifies ctx`status, ctx`body, db`held
    ensures db.held == old(db.held)
    ensures unavailable ==> ctx.status == 500 && ctx.body == ErrorBody(InternalError)
    ensures !unavailable && !ChatOwned(db.chats, db.projects, chatId, projectId, ctx.auth.value.userId) ==>
      ctx.status == 404 && ctx.body == ErrorBody(ChatNotFound)
    ensures !unavailable && ChatOwned(db.chats, db.projects, chatId, projectId, ctx.auth.value.userId) ==>
      ctx.status == 200 && ctx.body.ChatWithMessages? &&
      ctx.body.chat in db.chats && ctx.body.chat.id == chatId && ctx.body.chat.projectId == projectId &&
      (forall m :: m in ctx.body.messages <==> m in db.messages && m.chatId == chatId) &&
      Ascending(ctx.body.messages, MessageKey)
  {
    if unavailable {
      ctx.Respond(500, ErrorBody(InternalError));
      return;
    }
    db.Connect();
    var access := OwnedChat(db.chats, db.projects, chatId, projectId, ctx.auth.value.userId);
    if access.None? {
      ctx.Respond(404, ErrorBody(ChatNotFound));
      db.Release();
      return;
    }
    MessagesOfOldestFirst(db.messages, chatId, db.clock);
    ctx.Respond(200, ChatWithMessages(access.value.chat, MessagesOf(db.messages, chatId)));
    db.Release();
  }

  /** `POST /projects/:projectId/chats`: 404 unless the caller owns the project;
      otherwise one new, empty chat under it. */
  method CreateChat(ctx: Context, db: Database, projectId: Id, unavailable: bool)
    requires ctx.auth.Some? && db.Valid()
    modifies ctx`status, ctx`body, db`chats, db`clock, db`held
    ensures db.Valid() && db.held == old(db.held)
    ensures unavailable ==>
      ctx.status == 500 && ctx.body == ErrorBody(InternalError) && db.Snapshot() == old(db.Snapshot())
    ensures !unavailable && !ProjectOwned(db.projects, projectId, ctx.auth.value.userId) ==>
      ctx.status == 404 && ctx.body == ErrorBody(Projects.ProjectNotFound) && db.Snapshot() == old(db.Snapshot())
    ensures !unavailable && ProjectOwned(db.projects, projectId, ctx.auth.value.userId) ==>
      var row := Chat(old(db.clock), projectId);
      db.chats == old(db.chats) + [row] && db.clock == old(db.clock) + 1 &&
      MessagesOf(db.messages, row.id) == [] &&
      ctx.status == 201 && ctx.body == ChatBody(row)
  {
    if unavailable {
      ctx.Respond(500, ErrorBody(InternalError));
      return;
    }
    db.Connect();
    CreateChatOnClient(ctx, db, projectId);
  }

  /** The queries of `POST .../chats` on the checked-out client, which the `finally`
      releases whatever the outcome. */
  method CreateChatOnClient(ctx: Context, db: Database, projectId: Id)
    requires ctx.auth.Some? && db.Valid() && db.held > 0
    modifies ctx`status, ctx`body, db`chats, db`clock, db`held
    ensures db.Valid() && db.held == old(db.held) - 1
    ensures !ProjectOwned(db.projects, projectId, ctx.auth.value.userId) ==>
      ctx.status == 404 && ctx.body == ErrorBody(Projects.ProjectNotFound) &&
      db.chats == old(db.chats) && db.clock == old(db.clock)
    ensures ProjectOwned(db.projects, projectId, ctx.auth.value.userId) ==>
      var row := Chat(old(db.clock), projectId);
      db.chats == old(db.chats) + [row] && db.clock == old(db.clock) + 1 &&
      MessagesOf(db.messages, row.id) == [] &&
      ctx.status == 201 && ctx.body == ChatBody(row)
  {
    var project := OwnedProject(db.projects, projectId, ctx.auth.value.userId);
    if project.None? {
      ctx.Respond(404, ErrorBody(Projects.ProjectNotFound));
      db.Release();
      return;
    }
    assert projectId in ProjectIds(db.projects) by {
      assert project.value in db.projects;
    }
    NoMessagesAtClock(db.Snapshot());
    var row := db.InsertChat(projectId);
    ctx.Respond(201, ChatBody(row));
    db.Release();
  }

  /** Every chat is older than the counter, so a chat created now has no messages. */
  lemma NoMessagesAtClock(t: Tables)
    requires t.Valid()
    ensures MessagesOf(t.messages, t.clock) == []
  {
    assert t.ReferencesValid() && t.KeysValid();
    forall i | 0 <= i < |t.messages| ensures t.messages[i].chatId != t.clock {
      assert t.messages[i] in t.messages;
      var c :| c in t.chats && c.id == t.messages[i].chatId;
      var k :| 0 <= k < |t.chats| && t.chats[k] == c;
      assert ChatKey(t.chats[k]) < t.clock;
    }
    FilterNone(t.messages, (m: Message) => m.chatId == t.clock);
  }

  /** `DELETE /projects/:projectId/chats/:id`: 404 and no change unless the chat is
      under that project and the caller owns it; otherwise 204, the chat goes with its
      messages, and every other chat keeps its messages. */
  method DeleteChat(ctx: Context, db: Database, projectId: Id, chatId: Id, unavailable: bool)
    requires ctx.auth.Some? && db.Valid()
    modifies ctx`status, ctx`body, db`chats, db`messages, db`held
    ensures db.Valid() && db.held == old(db.held)
    ensures unavailable ==>
      ctx.status == 500 && ctx.body == ErrorBody(InternalError) && db.Snapshot() == old(db.Snapshot())
    ensures !unavailable && !ChatOwned(old(db.chats), db.projects, chatId, projectId, ctx.auth.value.userId) ==>
      ctx.status == 404 && ctx.body == ErrorBody(ChatNotFound) && db.Snapshot() == old(db.Snapshot())
    ensures !unavailable && ChatOwned(old(db.chats), db.projects, chatId, projectId, ctx.auth.value.userId) ==>
      ctx.status == 204 && ctx.body == old(ctx.body) &&
      db.Snapshot() == WithoutChat(old(db.Snapshot()), chatId) &&
      (forall m :: m in old(db.messages) && m.chatId != chatId ==> m in db.messages)
  {
    if unavailable {
      ctx.Respond(500, ErrorBody(InternalError));
      return;
    }
    db.Connect();
    DeleteChatOnClient(ctx, db, projectId, chatId);
  }

  /** The `DELETE ... USING projects ... RETURNING` of `DELETE .../chats/:id` on the
      checked-out client, released by the `finally`. */
  method DeleteChatOnClient(ctx: Context, db: Database, projectId: Id, chatId: Id)
    requires ctx.auth.Some? && db.Valid() && db.held > 0
    modifies ctx`status, ctx`body, db`chats, db`messages, db`held
    ensures db.Valid() && db.held == old(db.held) - 1
    ensures !ChatOwned(old(db.chats), db.projects, chatId, projectId, ctx.auth.value.userId) ==>
      ctx.status == 404 && ctx.body == ErrorBody(ChatNotFound) && db.Snapshot() == old(db.Snapshot())
    ensures ChatOwned(old(db.chats), db.projects, chatId, projectId, ctx.auth.value.userId) ==>
      ctx.status == 204 && ctx.body == old(ctx.body) &&
      db.Snapshot() == WithoutChat(old(db.Snapshot()), chatId) &&
      (forall m :: m in old(db.messages) && m.chatId != chatId ==> m in db.messages)
  {
    var access := OwnedChat(db.chats, db.projects, chatId, projectId, ctx.auth.value.userId);
    if access.None? {
      ctx.Respond(404, ErrorBody(ChatNotFound));
      db.Release();
      return;
    }
    db.DeleteChat(chatId);
    ctx.Respond(204, ctx.body);
    db.Release();
  }

  // ---------------------------------------------------------------- the relay

  /** The `ReadableStream`'s controller: what has been enqueued, and whether it is closed. */
  class StreamController {
    var events: seq<Event>
    var closed: bool

    constructor ()
      ensures events == [] && !closed
    {
      events := [];
      closed := false;
    }

    method Enqueue(e: Event)
      requires !closed
      modifies this`events
      ensures events == old(events) + [e]
    {
      events := events + [e];
    }

    method Close()
      requires !closed
      modifies this`closed
      ensures closed
    {
      closed := true;
    }
  }

  /** The store queries of the relay, in the order it issues them. */
  datatype StoreStep = ConnectStep | AuthorizeStep | InsertUserStep | ReadHistoryStep | InsertAssistantStep

  /** The one query that throws, if any, and its error message. */
  datatype StoreFault = StoreFault(step: StoreStep, reason: string)

  predicate FailsAt(fault: Option<StoreFault>, step: StoreStep) {
    fault.Some? && fault.value.step == step
  }

  /** The rows the history query maps to `{ role, content }`. */
  function HistoryOf(ms: seq<Message>): (r: seq<HistoryTurn>)
    ensures |r| == |ms| && forall i :: 0 <= i < |ms| ==> r[i] == HistoryTurn(ms[i].role, ms[i].content)
  {
    seq(|ms|, i requires 0 <= i < |ms| => HistoryTurn(ms[i].role, ms[i].content))
  }

  /** The history read right after the user row is stored is the chat's earlier
      history followed by that message: the provider sees the new message last. */
  lemma HistoryEndsWithNewMessage(ms: seq<Message>, user: Message)
    ensures HistoryOf(MessagesOf(ms + [user], user.chatId)) ==
            HistoryOf(MessagesOf(ms, user.chatId)) + [HistoryTurn(user.role, user.content)]
  {
    MessagesOfSnoc(ms, user, user.chatId);
    assert MessagesOf(ms + [user], user.chatId) == MessagesOf(ms, user.chatId) + [user];
  }

  /** The text an `error` event carries for a thrown value. */
  function ErrorText(t: Thrown): (r: string)
    ensures t.message.Some? ==> r == t.message.value
    ensures t.message.None? ==> r == UnknownError
  {
    if t.message.Some? then t.message.value else UnknownError
  }

  function ChunkEvents(fragments: seq<string>): (r: seq<Event>)
    ensures |r| == |fragments|
    ensures forall i :: 0 <= i < |r| ==> r[i] == ChunkEvent(fragments[i])
  {
    seq(|fragments|, i requires 0 <= i < |fragments| => ChunkEvent(fragments[i]))
  }

  /** Whether the run ends with the reply stored: the provider finished and the
      assistant insert did not throw. */
  predicate Completed(g: Generation, insertFault: Option<string>) {
    g.failure.None? && insertFault.None?
  }

  /** The last event of a stream: `error` for a provider exception or a failed
      assistant insert, `done` with the stored reply otherwise. */
  function Terminal(g: Generation, insertFault: Option<string>, reply: Message): (e: Event)
    ensures e.DoneEvent? <==> Completed(g, insertFault)
    ensures e.DoneEvent? ==> e.message == reply
    ensures g.failure.Some? ==> e == ErrorEvent(ErrorText(g.failure.value))
    ensures g.failure.None? && insertFault.Some? ==> e == ErrorEvent(insertFault.value)
  {
    if g.failure.Some? then ErrorEvent(ErrorText(g.failure.value))
    else if insertFault.Some? then ErrorEvent(insertFault.value)
    else DoneEvent(reply)
  }

  /** Everything a stream carries: the stored user message, one chunk per fragment,
      then the terminal event. */
  function SessionEvents(user: Message, g: Generation, insertFault: Option<string>, reply: Message): seq<Event> {
    [UserMessageEvent(user)] + ChunkEvents(g.fragments) + [Terminal(g, insertFault, reply)]
  }

  /** The wire grammar of a stream: one `userMessage` first, `chunk`s only in between,
      and exactly one terminal event, at the end. */
  predicate WellFormedSession(es: seq<Event>) {
    |es| >= 2 && es[0].UserMessageEvent? &&
    (forall i :: 1 <= i < |es| - 1 ==> es[i].ChunkEvent?) &&
    (es[|es| - 1].DoneEvent? || es[|es| - 1].ErrorEvent?)
  }

  /** The contents of the chunk events of a sequence, in order. */
  function ChunkContents(es: seq<Event>): seq<string> {
    if es == [] then []
    else ChunkContents(es[..|es| - 1]) + (if es[|es| - 1].ChunkEvent? then [es[|es| - 1].content] else [])
  }

  lemma {:induction false} ChunkContentsOfChunks(fragments: seq<string>)
    ensures ChunkContents(ChunkEvents(fragments)) == fragments
  {
    if fragments != [] {
      var init := fragments[..|fragments| - 1];
      ChunkContentsOfChunks(init);
      assert ChunkEvents(fragments)[..|fragments| - 1] == ChunkEvents(init);
    }
  }

  lemma ChunkContentsSnoc(es: seq<Event>, e: Event)
    ensures ChunkContents(es + [e]) == ChunkContents(es) + (if e.ChunkEvent? then [e.content] else [])
  {
    assert (es + [e])[..|es|] == es;
  }

  /** Every stream the relay writes keeps the grammar; its chunks are the provider's
      fragments in order, and a `done` message holds exactly their concatenation. */
  lemma SessionShape(user: Message, g: Generation, insertFault: Option<string>, reply: Message)
    requires reply.content == Concat(g.fragments)
    ensures var es := SessionEvents(user, g, insertFault, reply);
      WellFormedSession(es) && ChunkContents(es) == g.fragments &&
      (es[|es| - 1].DoneEvent? ==> es[|es| - 1].message.content == Concat(ChunkContents(es)))
  {
    var es := SessionEvents(user, g, insertFault, reply);
    var middle := [UserMessageEvent(user)] + ChunkEvents(g.fragments);
    assert es == middle + [Terminal(g, insertFault, reply)];
    ChunkContentsSnoc(middle, Terminal(g, insertFault, reply));
    ChunkContentsOfChunks(g.fragments);
    ChunkContentsPrefix(UserMessageEvent(user), ChunkEvents(g.fragments));
  }

  /** A leading non-chunk event contributes nothing to the chunk contents. */
  lemma {:induction false} ChunkContentsPrefix(e: Event, es: seq<Event>)
    requires !e.ChunkEvent?
    ensures ChunkContents([e] + es) == ChunkContents(es)
  {
    if es == [] {
      assert ChunkContents([e]) == ChunkContents([]) + [];
    } else {
      var init, last := es[..|es| - 1], es[|es| - 1];
      ChunkContentsPrefix(e, init);
      assert [e] + es == ([e] + init) + [last];
      ChunkContentsSnoc([e] + init, last);
      ChunkContentsSnoc(init, last);
      assert init + [last] == es;
    }
  }

  /** The `for await` loop over the generator: each fragment is appended to
      `fullResponse` and enqueued as a `chunk` event, in order. */
  method StreamChunks(stream: StreamController, fragments: seq<string>) returns (fullResponse: string)
    requires !stream.closed
    modifies stream`events
    ensures fullResponse == Concat(fragments)
    ensures stream.events == old(stream.events) + ChunkEvents(fragments)
  {
    fullResponse := "";
    var i := 0;
    while i < |fragments|
      invariant 0 <= i <= |fragments|
      invariant fullResponse == Concat(fragments[..i])
      invariant stream.events == old(stream.events) + ChunkEvents(fragments[..i])
    {
      fullResponse := fullResponse + fragments[i];
      stream.Enqueue(ChunkEvent(fragments[i]));
      ConcatSnoc(fragments[..i], fragments[i]);
      assert fragments[..i + 1] == fragments[..i] + [fragments[i]];
      assert ChunkEvents(fragments[..i + 1]) == ChunkEvents(fragments[..i]) + [ChunkEvent(fragments[i])];
      i := i + 1;
    }
    assert fragments[..|fragments|] == fragments;
  }

  /** After the loop: `done` with the stored reply when the generator finished and
      the assistant insert succeeds, `error` otherwise; then, in the `finally`, the
      client is released and the stream closed. */
  method Conclude(db: Database, stream: StreamController, chatId: Id, g: Generation, fullResponse: string,
                  insertFault: Option<string>)
    requires db.Valid() && chatId in ChatIds(db.chats) && db.held > 0 && !stream.closed
    modifies db`messages, db`clock, db`held, stream
    ensures db.Valid() && db.held == old(db.held) - 1 && stream.closed
    ensures var reply := Message(old(db.clock), chatId, AssistantRole, fullResponse);
      stream.events == old(stream.events) + [Terminal(g, insertFault, reply)] &&
      db.messages == old(db.messages) + (if Completed(g, insertFault) then [reply] else []) &&
      db.clock == old(db.clock) + (if Completed(g, insertFault) then 1 else 0)
  {
    if g.failure.Some? {
      stream.Enqueue(ErrorEvent(ErrorText(g.failure.value)));
    } else if insertFault.Some? {
      stream.Enqueue(ErrorEvent(insertFault.value));
    } else {
      var aiMessage := db.InsertMessage(chatId, AssistantRole, fullResponse);
      stream.Enqueue(DoneEvent(aiMessage));
    }
    db.Release();
    stream.Close();
  }

  /** The stream's first part: the user message event, then a chunk for each fragment
      the generator yields, the fragments collected into the full response. */
  method StreamReply(stream: StreamController, userMessage: Message, history: seq<HistoryTurn>,
                     systemPrompt: Option<string>, apiKey: Option<string>, provider: Request -> ProviderRun)
    returns (g: Generation, fullResponse: string)
    requires !stream.closed
    modifies stream`events
    ensures g == Generate(apiKey, history, systemPrompt, provider) && fullResponse == Concat(g.fragments)
    ensures stream.events == old(stream.events) + [UserMessageEvent(userMessage)] + ChunkEvents(g.fragments)
  {
    stream.Enqueue(UserMessageEvent(userMessage));
    g := SendToGeminiStream(apiKey, history, systemPrompt, provider);
    fullResponse := StreamChunks(stream, g.fragments);
  }

  /** The body of the stream's `start`: the user message event, the chunks, then the
      terminal event; the client is released and the stream closed at the end. */
  method Relay(db: Database, stream: StreamController, chatId: Id, userMessage: Message,
               history: seq<HistoryTurn>, systemPrompt: Option<string>,
               apiKey: Option<string>, provider: Request -> ProviderRun, insertFault: Option<string>)
    requires db.Valid() && chatId in ChatIds(db.chats) && db.held > 0
    requires !stream.closed && stream.events == []
    modifies db`messages, db`clock, db`held, stream
    ensures db.Valid() && db.held == old(db.held) - 1 && stream.closed
    ensures var g := Generate(apiKey, history, systemPrompt, provider);
      var reply := Message(old(db.clock), chatId, AssistantRole, Concat(g.fragments));
      stream.events == SessionEvents(userMessage, g, insertFault, reply) &&
      db.messages == old(db.messages) + (if Completed(g, insertFault) then [reply] else []) &&
      db.clock == old(db.clock) + (if Completed(g, insertFault) then 1 else 0)
  {
    ghost var tables := db.Snapshot();
    var g, fullResponse := StreamReply(stream, userMessage, history, systemPrompt, apiKey, provider);
    assert db.Snapshot() == tables;
    ghost var before := db.clock;
    Conclude(db, stream, chatId, g, fullResponse, insertFault);
    ghost var reply := Message(before, chatId, AssistantRole, fullResponse);
    assert stream.events == [UserMessageEvent(userMessage)] + ChunkEvents(g.fragments) + [Terminal(g, insertFault, reply)];
  }

  /** How far a request to the relay gets: the checks in the order the handler makes
      them, each one deciding only when every earlier one has passed. */
  datatype RelayStage =
    | MalformedBody | MissingMessage | ConnectFailed | AuthorizeFailed | ChatMissing
    | UserInsertFailed | HistoryFailed | Streaming

  function StageOf(body: Option<ChatRequest>, fault: Option<StoreFault>, owned: bool): RelayStage {
    if body.None? then MalformedBody
    else if !Truthy(body.value.message) then MissingMessage
    else if FailsAt(fault, ConnectStep) then ConnectFailed
    else if FailsAt(fault, AuthorizeStep) then AuthorizeFailed
    else if !owned then ChatMissing
    else if FailsAt(fault, InsertUserStep) then UserInsertFailed
    else if FailsAt(fault, ReadHistoryStep) then HistoryFailed
    else Streaming
  }

  /** The answer to a request that does not reach the stream: 400 for a missing
      message, 404 for a chat that is not the caller's, 500 for whatever threw. */
  function RefusalStatus(stage: RelayStage): int {
    if stage == MissingMessage then 400 else if stage == ChatMissing then 404 else 500
  }

  function RefusalBody(stage: RelayStage): Body {
    ErrorBody(if stage == MissingMessage then MessageRequired
              else if stage == ChatMissing then ChatNotFound
              else InternalError)
  }

  /** A request is streamed exactly when its body has a message, the chat is the
      caller's, and no query before the stream fails; an empty message is refused
      whatever the chat, and a foreign chat whatever the later queries would do. */
  lemma StageOrder(body: Option<ChatRequest>, fault: Option<StoreFault>, owned: bool)
    ensures StageOf(body, fault, owned) == Streaming <==>
      body.Some? && Truthy(body.value.message) && owned && (fault.None? || fault.value.step == InsertAssistantStep)
    ensures body.Some? && !Truthy(body.value.message) ==> StageOf(body, fault, owned) == MissingMessage
    ensures body.Some? && Truthy(body.value.message) && !owned && !FailsAt(fault, ConnectStep) && !FailsAt(fault, AuthorizeStep) ==>
      StageOf(body, fault, owned) == ChatMissing
  {
  }

  /** The checks of `POST .../messages/stream` before the stream starts, in source
      order. Every stage but `Streaming` has answered; `Streaming` leaves the client
      checked out and the user row stored, with the chat's system prompt in hand. */
  method Admit(ctx: Context, db: Database, projectId: Id, chatId: Id, body: Option<ChatRequest>,
               fault: Option<StoreFault>)
    returns (stage: RelayStage, userMessage: Message, systemPrompt: Option<string>)
    requires ctx.auth.Some? && db.Valid()
    modifies ctx`status, ctx`body, db`messages, db`clock, db`held
    ensures db.Valid()
    ensures stage == StageOf(body, fault, old(ChatOwned(db.chats, db.projects, chatId, projectId, ctx.auth.value.userId)))
    ensures stage in {MalformedBody, ConnectFailed, AuthorizeFailed, UserInsertFailed} ==>
      ctx.status == 500 && ctx.body == ErrorBody(InternalError) &&
      db.Snapshot() == old(db.Snapshot()) && db.held == old(db.held)
    ensures stage == MissingMessage ==>
      ctx.status == 400 && ctx.body == ErrorBody(MessageRequired) &&
      db.Snapshot() == old(db.Snapshot()) && db.held == old(db.held)
    ensures stage == ChatMissing ==>
      ctx.status == 404 && ctx.body == ErrorBody(ChatNotFound) &&
      db.Snapshot() == old(db.Snapshot()) && db.held == old(db.held) + 1
    ensures stage == HistoryFailed ==>
      ctx.status == 500 && ctx.body == ErrorBody(InternalError) && db.held == old(db.held)
    ensures stage in {HistoryFailed, Streaming} ==>
      userMessage == Message(old(db.clock), chatId, UserRole, body.value.message.value) &&
      db.messages == old(db.messages) + [userMessage] && db.clock == old(db.clock) + 1
    ensures stage == Streaming ==>
      ctx.status == old(ctx.status) && ctx.body == old(ctx.body) &&
      systemPrompt == old(OwnedChat(db.chats, db.projects, chatId, projectId, ctx.auth.value.userId)).value.project.systemPrompt &&
      chatId in ChatIds(db.chats) && db.held == old(db.held) + 1
  {
    userMessage, systemPrompt := Message(0, chatId, UserRole, ""), None;
    if body.None? {
      ctx.Respond(500, ErrorBody(InternalError));
      return MalformedBody, userMessage, systemPrompt;
    }
    var message := body.value.message;
    if !Truthy(message) {
      ctx.Respond(400, ErrorBody(MessageRequired));
      return MissingMessage, userMessage, systemPrompt;
    }
    if FailsAt(fault, ConnectStep) {
      ctx.Respond(500, ErrorBody(InternalError));
      return ConnectFailed, userMessage, systemPrompt;
    }
    db.Connect();
    stage, userMessage, systemPrompt := AdmitOnClient(ctx, db, projectId, chatId, body, fault);
  }

  /** The queries of the relay before the stream, on the checked-out client: the
      ownership check, the user insert and the history read. A failing query releases
      the client; a foreign chat and a started stream keep it. */
  method AdmitOnClient(ctx: Context, db: Database, projectId: Id, chatId: Id, body: Option<ChatRequest>,
                       fault: Option<StoreFault>)
    returns (stage: RelayStage, userMessage: Message, systemPrompt: Option<string>)
    requires ctx.auth.Some? && db.Valid() && db.held > 0
    requires body.Some? && Truthy(body.value.message) && !FailsAt(fault, ConnectStep)
    modifies ctx`status, ctx`body, db`messages, db`clock, db`held
    ensures db.Valid()
    ensures stage == StageOf(body, fault, old(ChatOwned(db.chats, db.projects, chatId, projectId, ctx.auth.value.userId)))
    ensures stage in {AuthorizeFailed, UserInsertFailed} ==>
      ctx.status == 500 && ctx.body == ErrorBody(InternalError) &&
      db.Snapshot() == old(db.Snapshot()) && db.held == old(db.held) - 1
    ensures stage == ChatMissing ==>
      ctx.status == 404 && ctx.body == ErrorBody(ChatNotFound) &&
      db.Snapshot() == old(db.Snapshot()) && db.held == old(db.held)
    ensures stage == HistoryFailed ==>
      ctx.status == 500 && ctx.body == ErrorBody(InternalError) && db.held == old(db.held) - 1
    ensures stage in {HistoryFailed, Streaming} ==>
      userMessage == Message(old(db.clock), chatId, UserRole, body.value.message.value) &&
      db.messages == old(db.messages) + [userMessage] && db.clock == old(db.clock) + 1
    ensures stage == Streaming ==>
      ctx.status == old(ctx.status) && ctx.body == old(ctx.body) &&
      systemPrompt == old(OwnedChat(db.chats, db.projects, chatId, projectId, ctx.auth.value.userId)).value.project.systemPrompt &&
      chatId in ChatIds(db.chats) && db.held == old(db.held)
  {
    userMessage, systemPrompt := Message(0, chatId, UserRole, ""), None;
    var message := body.value.message;
    if FailsAt(fault, AuthorizeStep) {
      db.Release();
      ctx.Respond(500, ErrorBody(InternalError));
      return AuthorizeFailed, userMessage, systemPrompt;
    }
    var access := OwnedChat(db.chats, db.projects, chatId, projectId, ctx.auth.value.userId);
    if access.None? {
      ctx.Respond(404, ErrorBody(ChatNotFound));
      return ChatMissing, userMessage, systemPrompt;
    }
    systemPrompt := access.value.project.systemPrompt;
    assert chatId in ChatIds(db.chats) by {
      assert access.value.chat in db.chats;
    }
    stage, userMessage := StoreUserMessage(ctx, db, chatId, message.value, fault);
  }

  /** The user insert and the history read of the relay, on the checked-out client,
      for a chat the caller owns; either query failing releases the client. */
  method StoreUserMessage(ctx: Context, db: Database, chatId: Id, message: string, fault: Option<StoreFault>)
    returns (stage: RelayStage, userMessage: Message)
    requires db.Valid() && db.held > 0 && chatId in ChatIds(db.chats)
    modifies ctx`status, ctx`body, db`messages, db`clock, db`held
    ensures db.Valid()
    ensures stage == if FailsAt(fault, InsertUserStep) then UserInsertFailed
                     else if FailsAt(fault, ReadHistoryStep) then HistoryFailed
                     else Streaming
    ensures stage != Streaming ==>
      ctx.status == 500 && ctx.body == ErrorBody(InternalError) && db.held == old(db.held) - 1
    ensures stage == UserInsertFailed ==> db.Snapshot() == old(db.Snapshot())
    ensures stage != UserInsertFailed ==>
      userMessage == Message(old(db.clock), chatId, UserRole, message) &&
      db.messages == old(db.messages) + [userMessage] && db.clock == old(db.clock) + 1
    ensures stage == Streaming ==>
      ctx.status == old(ctx.status) && ctx.body == old(ctx.body) &&
      chatId in ChatIds(db.chats) && db.held == old(db.held)
  {
    userMessage := Message(0, chatId, UserRole, "");
    if FailsAt(fault, InsertUserStep) {
      db.Release();
      ctx.Respond(500, ErrorBody(InternalError));
      return UserInsertFailed, userMessage;
    }
    userMessage := db.InsertMessage(chatId, UserRole, message);
    if FailsAt(fault, ReadHistoryStep) {
      db.Release();
      ctx.Respond(500, ErrorBody(InternalError));
      return HistoryFailed, userMessage;
    }
    stage := Streaming;
  }

  /** `POST /projects/:projectId/chats/:id/messages/stream`.

      Before the stream: a body that is not JSON, and a failing connection, give 500
      with no client held; a missing or empty message gives 400 with no client taken;
      a failing ownership query, user insert or history read gives 500 with the client
      released (a user row already inserted stays). A chat that is not the caller's
      gives 404 and, there being no `finally` on that path, leaves the client checked out.
      No stream is created for any of these (`stream` is null).

      Otherwise the response is a 200 stream: the user row, one `chunk` per fragment of
      the provider's run over the chat's whole history (the new message last), and
      `done` with the stored reply, or `error` when the provider or the assistant insert
      throws. The client is released and the stream closed at the end. */
  method SendMessageStream(ctx: Context, db: Database, projectId: Id, chatId: Id, body: Option<ChatRequest>,
                           apiKey: Option<string>, provider: Request -> ProviderRun, fault: Option<StoreFault>)
    returns (stage: RelayStage, stream: StreamController?)
    requires ctx.auth.Some? && db.Valid()
    modifies ctx`status, ctx`body, db`messages, db`clock, db`held
    ensures db.Valid() && (stream == null <==> stage != Streaming) && (stream != null ==> fresh(stream))
    ensures stage == StageOf(body, fault, old(ChatOwned(db.chats, db.projects, chatId, projectId, ctx.auth.value.userId)))
    ensures stage != Streaming ==> ctx.status == RefusalStatus(stage) && ctx.body == RefusalBody(stage)
    ensures db.held == old(db.held) + (if stage == ChatMissing then 1 else 0)
    ensures stage != HistoryFailed && stage != Streaming ==> db.Snapshot() == old(db.Snapshot())
    ensures stage == HistoryFailed ==>
      db.messages == old(db.messages) + [Message(old(db.clock), chatId, UserRole, body.value.message.value)]
    ensures stage == Streaming ==>
      var user := Message(old(db.clock), chatId, UserRole, body.value.message.value);
      var access := old(OwnedChat(db.chats, db.projects, chatId, projectId, ctx.auth.value.userId)).value;
      var history := HistoryOf(MessagesOf(old(db.messages) + [user], chatId));
      var g := Generate(apiKey, history, OrAbsent(access.project.systemPrompt), provider);
      var insertFault := if fault.Some? then Some(fault.value.reason) else None;
      var reply := Message(old(db.clock) + 1, chatId, AssistantRole, Concat(g.fragments));
      ctx.status == 200 && ctx.body == StreamBody &&
      stream.events == SessionEvents(user, g, insertFault, reply) && stream.closed &&
      db.messages == old(db.messages) + [user] + (if Completed(g, insertFault) then [reply] else [])
  {
    var userMessage, systemPrompt;
    stage, userMessage, systemPrompt := Admit(ctx, db, projectId, chatId, body, fault);
    stream := null;
    if stage == Streaming {
      var insertFault := if fault.Some? then Some(fault.value.reason) else None;
      stream := StartStream(ctx, db, chatId, userMessage, OrAbsent(systemPrompt), apiKey, provider, insertFault);
    }
  }

  /** The 200 answer once the checks pass: the history is read back with the new
      message in it, and the relay runs over it to the end. */
  method StartStream(ctx: Context, db: Database, chatId: Id, userMessage: Message,
                     systemPrompt: Option<string>, apiKey: Option<string>, provider: Request -> ProviderRun,
                     insertFault: Option<string>)
    returns (stream: StreamController)
    requires db.Valid() && chatId in ChatIds(db.chats) && db.held > 0
    modifies ctx`status, ctx`body, db`messages, db`clock, db`held
    ensures fresh(stream) && db.Valid() && db.held == old(db.held) - 1
    ensures var g := Generate(apiKey, HistoryOf(MessagesOf(old(db.messages), chatId)), systemPrompt, provider);
      var reply := Message(old(db.clock), chatId, AssistantRole, Concat(g.fragments));
      ctx.status == 200 && ctx.body == StreamBody &&
      stream.events == SessionEvents(userMessage, g, insertFault, reply) && stream.closed &&
      db.messages == old(db.messages) + (if Completed(g, insertFault) then [reply] else [])
  {
    var history := HistoryOf(MessagesOf(db.messages, chatId));
    ghost var tables := db.Snapshot();
    stream := new StreamController();
    assert db.Snapshot() == tables;
    Relay(db, stream, chatId, userMessage, history, systemPrompt, apiKey, provider, insertFault);
    ctx.Respond(200, StreamBody);
  }

  /** The outcome counts of the relay's table changes: a stream that ends in `done` adds
      the user row and then the reply to the chat; one that ends in `error` adds only
      the user row. */
  lemma SessionRowCount(ms: seq<Message>, user: Message, g: Generation, insertFault: Option<string>, reply: Message)
    requires user.chatId == reply.chatId && user.role == UserRole && reply.role == AssistantRole
    ensures var after := ms + [user] + (if Completed(g, insertFault) then [reply] else []);
      var es := SessionEvents(user, g, insertFault, reply);
      (es[|es| - 1].DoneEvent? ==> MessagesOf(after, user.chatId) == MessagesOf(ms, user.chatId) + [user, reply]) &&
      (es[|es| - 1].ErrorEvent? ==> MessagesOf(after, user.chatId) == MessagesOf(ms, user.chatId) + [user])
  {
    var es := SessionEvents(user, g, insertFault, reply);
    assert es[|es| - 1] == Terminal(g, insertFault, reply);
    MessagesOfSnoc(ms, user, user.chatId);
    if Completed(g, insertFault) {
      MessagesOfSnoc(ms + [user], reply, user.chatId);
      assert MessagesOf(ms, user.chatId) + [user] + [reply] == MessagesOf(ms, user.chatId) + [user, reply];
    } else {
      assert ms + [user] + [] == ms + [user];
    }
  }
}
