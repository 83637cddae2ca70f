# A verified model of the chatbot platform's request handlers and push stream

The service lets an authenticated user do the following:

- register and log in;
- keep projects, each with an optional system prompt;
- keep prompts and chats under each project;
- chat with a language model whose reply is streamed back as `text/event-stream` events.

This project models, in Dafny, the parts of the service that decide what a request does:

- **the bearer-token middleware** (`middleware.dfy`);
- **the account endpoints** (`auth_routes.dfy`): register, login and `/me`;
- **the ownership-scoped CRUD endpoints** for projects, prompts and chats (`projects.dfy`, `prompts.dfy`, `chats.dfy`);
- **the streaming relay** (`chats.dfy`). It stores the user's message, reads the chat's history back and runs the completion generator over it. It streams `userMessage`, then `chunk`s, then `done` or `error`, and stores the reply;
- **the generator** (`completion.dfy`). It assembles the upstream context and filters the provider's deltas;
- **the server's framing of each event** (`framing.dfy`);
- **the browser client** (`api_client.dfy`). It covers the header and error rules of `request`, and the line-buffered decoder of `sendMessageStream`.

The store (`db.dfy`) is a `Database` object:

- five tables kept in insertion order;
- an insertion counter `clock`, which supplies both the ids and the `created_at` order;
- a counter `held` of pooled clients checked out and not yet released.

Every mutating statement of the handlers is a method on the store. The schema's foreign keys, `ON DELETE CASCADE` rules and unique email rule are the invariant `Valid()`. Every handler preserves it.

Each handler is a method on an oak `Context` (`http.dfy`), which holds status, body, `state.auth` and the calls of the downstream `next`. How a handler uses its pooled client depends on the handler:

- The list and get handlers, `login` and `/me` connect and release inline, in the handler's own method.
- `register`, project update and delete, prompt create, update and delete, and chat create and delete put the work on the client in an `...OnClient` method. Each mirrors a `try { ... } finally { client.release() }` block and releases the client on every path through it.
- `Chats.AdmitOnClient` holds the streaming handler's checks before the stream. It mirrors a `try` whose `catch` releases the client and rethrows, with no `finally` (`backend/src/routes/chats.ts:142-176` and `239-242`). So a throwing query releases the client and ends in 500, while the 404 path returns normally and leaves the client checked out.

The external parts are parameters, so every proof holds for any choice of them:

- JSON (a serialiser/parser pair);
- the model provider (a function from request to streamed chunks plus an optional exception);
- `fetch`;
- token signing and verification;
- password hashing and checking;
- which query of the store throws.

The main results:

- **Relay streams.** Every stream the relay writes has the shape `userMessage chunk* (done|error)` and then closes. Its chunks are the provider's non-empty deltas in order. `done` carries the stored reply, whose text is their concatenation.
- **Row counts.** A `done` stream adds exactly the user row and the reply to the chat. An `error` stream adds only the user row, including when the assistant insert fails after all chunks were sent.
- **Refused requests.**
  - A missing message gives 400 before any connection.
  - A foreign chat gives 404 with nothing inserted, and leaves its pooled client checked out.
  - A failing query before the stream gives 500 and releases the client.
- **History.** The history sent to the provider is the whole chat, oldest first, with the new message last.
- **Decoder.** The client's decoding does not depend on how the reads split the text. A trailing partial line is never decoded. Decoding the server's framing gives back the server's events, in order, as callbacks.
- **Ownership.**
  - Listing projects shows only the caller's projects, and creating one makes it the caller's.
  - Getting, updating or deleting a project gives 404 and changes nothing unless the caller owns it. So does every prompt and chat operation on a project the caller does not own.
  - Updates follow `COALESCE` and never change the owner or project.
  - Deletes cascade and keep the schema's references intact.

## Model

| member | source | states |
|---|---|---|
| Middleware.BearerToken | backend/src/middleware/auth.ts:13-21 | a token exists exactly when the header is present and starts, case-sensitively, with `Bearer `; the header is then that prefix followed by the token, i.e. the token is the header minus 7 characters |
| Middleware.BearerTokenRoundTrip | backend/src/middleware/auth.ts:21 | the token parsed from `Bearer ` + t is t |
| Middleware.AuthMiddleware | backend/src/middleware/auth.ts:9-32 | no bearer token: 401 "No token provided"; token that does not verify: 401 "Invalid token"; in both cases `state.auth` and `next` untouched; otherwise `state.auth` is the payload and `next` is called once, seeing it, with the response left alone |
| AuthRoutes.RegistrationError | backend/src/routes/auth.ts:15-25 | the presence check decides first, then the 8-character length rule counted in UTF-16 code units as JavaScript's `length` counts; each message exactly when its condition holds, and no error exactly when both pass |
| AuthRoutes.AstralPasswordAccepted | backend/src/routes/auth.ts:21 | four characters outside the Basic Multilingual Plane pass the 8-character rule, because `length` counts them as eight code units |
| AuthRoutes.Register | backend/src/routes/auth.ts:10-73 | malformed body and a failing store: 500; validation errors (the length counted in UTF-16 code units): 400 before any lookup; an email already present: 409; in all of these the tables are unchanged; otherwise exactly one user row appended, 201 with id and email (no password hash) and the token signed for them; the client count returns to its old value |
| AuthRoutes.RegisterOnClient | backend/src/routes/auth.ts:30-67 | on the checked-out client: duplicate email gives 409 with users untouched, else the insert and the session body; the client is released either way |
| AuthRoutes.Login | backend/src/routes/auth.ts:76-132 | only presence is checked (400); an unknown email and a wrong password give the identical 401 "Invalid credentials"; otherwise 200 with the user and its token; the client is released |
| AuthRoutes.Me | backend/src/routes/auth.ts:135-177 | the same `Bearer ` parsing as the middleware (401 "Unauthorized"), 401 "Invalid token" when verification fails, 404 when the token's user id is not in the table, else 200 with the public user |
| Db.OwnedProject | backend/src/routes/projects.ts:40-42 | a row is found exactly when a project with that id belongs to the caller, and it is such a row |
| Db.ProjectsOf | backend/src/routes/projects.ts:16-18 | the listing holds exactly the caller's projects |
| Db.ProjectsOfNewestFirst | backend/src/routes/projects.ts:17 | on a table in creation order the listing is strictly newest first |
| Db.OwnedChat | backend/src/routes/chats.ts:145-149 | a row is found exactly when the chat is under that project and the caller owns the project; it carries the chat and the project's system prompt |
| Db.ChatsOf | backend/src/routes/chats.ts:27-29 | exactly the project's chats |
| Db.ChatsOfNewestFirst | backend/src/routes/chats.ts:28 | strictly newest first |
| Db.MessagesOf | backend/src/routes/chats.ts:169-171 | exactly the chat's messages |
| Db.MessagesOfOldestFirst | backend/src/routes/chats.ts:170 | the history is strictly oldest first and older than the counter |
| Db.MessagesOfSnoc | backend/src/routes/chats.ts:160-171 | a row appended to a chat comes last in that chat's history and in no other |
| Db.OwnedPrompt | backend/src/routes/prompts.ts:53-57 | found exactly when the prompt is under that project and the caller owns the project |
| Db.PromptsOf | backend/src/routes/prompts.ts:28-30 | exactly the project's prompts |
| Db.PromptsOfNewestFirst | backend/src/routes/prompts.ts:29 | strictly newest first |
| Db.UserByEmail | backend/src/routes/auth.ts:32-34 | found exactly when a user with that email exists, and it has that email |
| Db.UserById | backend/src/routes/auth.ts:158-160 | found exactly when the id is in the table; the row shown is that user's id and email only |
| Db.WithoutProject | backend/src/utils/db.ts:39-82 | deleting a project removes it, its prompts, its chats and the messages of those chats, and nothing else |
| Db.WithoutChat | backend/src/utils/db.ts:63-82 | deleting a chat removes it and its messages and nothing else |
| Db.WithoutPrompt | backend/src/routes/prompts.ts:180-186 | exactly the prompts with another id remain |
| Db.WithoutProjectValid | backend/src/utils/db.ts:39-82 | the project cascade keeps every key, foreign key and the unique email constraint |
| Db.WithoutChatValid | backend/src/utils/db.ts:63-82 | the chat cascade keeps every constraint |
| Db.Database.Connect | backend/src/routes/chats.ts:139 | one more client checked out |
| Db.Database.Release | backend/src/routes/chats.ts:232 | one client given back |
| Db.Database.InsertUser | backend/src/routes/auth.ts:44-48 | for an email not taken: the row is appended with the next id and the store stays valid, emails still unique |
| Db.Database.InsertProject | backend/src/routes/projects.ts:78-82 | for an existing owner: the row is appended with the next id; the store stays valid |
| Db.Database.UpdateProject | backend/src/routes/projects.ts:119-128 | replacing the row of that id, owner kept, keeps the store valid |
| Db.Database.DeleteProject | backend/src/routes/projects.ts:150-153 | the new tables are the project's cascade of the old ones |
| Db.Database.InsertPrompt | backend/src/routes/prompts.ts:105-109 | the row is appended with the next id; valid |
| Db.Database.UpdatePrompt | backend/src/routes/prompts.ts:149-157 | replacing the row of that id, project kept, keeps the store valid |
| Db.Database.DeletePrompt | backend/src/routes/prompts.ts:180-186 | exactly that prompt is removed; valid |
| Db.Database.InsertChat | backend/src/routes/chats.ts:103-107 | the chat is appended with the next id; valid |
| Db.Database.DeleteChat | backend/src/routes/chats.ts:260-266 | the new tables are the chat's cascade of the old ones |
| Db.Database.InsertMessage | backend/src/routes/chats.ts:160-164 | the message is appended with the next id, role from the two allowed; valid |
| Projects.NewProject | backend/src/routes/projects.ts:78-82 | the new row is owned by the caller, and a falsy description or system prompt is stored as null, a truthy one as given |
| Projects.UpdatedProject | backend/src/routes/projects.ts:119-128 | id and owner never change; each given field wins (even `""`), each absent one is kept; `updated_at` is now |
| Projects.UpdateIdempotent | backend/src/routes/projects.ts:119-128 | the same update applied twice leaves the row as once |
| Projects.EmptyStringOnCreateAndUpdate | backend/src/routes/projects.ts:80 | create stores `""` as null while update stores `""` as `""` |
| Projects.ReplaceKeepsOthers | backend/src/routes/projects.ts:126 | rewriting the caller's row keeps every project of every other user |
| Projects.ListProjects | backend/src/routes/projects.ts:9-29 | 200 with exactly the caller's projects, newest first; 500 on a failing store; the client is released |
| Projects.GetProject | backend/src/routes/projects.ts:32-59 | 404 unless the project exists and is the caller's, else 200 with that row |
| Projects.CreateProject | backend/src/routes/projects.ts:62-94 | 400 without a truthy name, before any connection; 500 on a failing store or a caller with no user row; otherwise exactly the new row appended and returned with 201; nothing changes on the error paths |
| Projects.UpdateProject | backend/src/routes/projects.ts:97-139 | 404 and no change unless owned; otherwise the owned row becomes its COALESCE update, no other user's project changes, 200 with the new row |
| Projects.UpdateProjectOnClient | backend/src/routes/projects.ts:107-133 | the same on the checked-out client, which is released on both paths |
| Projects.DeleteProject | backend/src/routes/projects.ts:142-170 | 404 and no change unless owned; otherwise 204, the tables become the project's cascade and every other user's project stays |
| Projects.DeleteProjectOnClient | backend/src/routes/projects.ts:149-164 | the same on the checked-out client, released on both paths |
| Prompts.UpdatedPrompt | backend/src/routes/prompts.ts:149-157 | id and project never change; given name and content win, absent ones are kept |
| Prompts.EmptyUpdateTouchesOnly | backend/src/routes/prompts.ts:150-155 | an update with no fields changes only `updated_at` |
| Prompts.ReplaceKeepsOthers | backend/src/routes/prompts.ts:155 | rewriting one prompt keeps every prompt of every other project |
| Prompts.ListPrompts | backend/src/routes/prompts.ts:9-41 | 404 unless the caller owns the project, else exactly its prompts, newest first |
| Prompts.GetPrompt | backend/src/routes/prompts.ts:44-74 | 404 unless the prompt is under the project and the caller owns it, else that prompt |
| Prompts.CreatePrompt | backend/src/routes/prompts.ts:77-121 | the 400 for a missing name or content comes before the ownership check; then 404 with no insert, or one row in that project with 201 |
| Prompts.CreatePromptOnClient | backend/src/routes/prompts.ts:93-115 | ownership check and insert on the checked-out client, released on both paths |
| Prompts.UpdatePrompt | backend/src/routes/prompts.ts:124-168 | 404 and no change unless owned; otherwise the COALESCE update of that one row, other projects' prompts kept |
| Prompts.UpdatePromptOnClient | backend/src/routes/prompts.ts:135-162 | the same on the checked-out client, released on both paths |
| Prompts.DeletePrompt | backend/src/routes/prompts.ts:171-203 | 404 and no change unless owned; otherwise 204 and exactly that prompt is gone |
| Prompts.DeletePromptOnClient | backend/src/routes/prompts.ts:179-197 | the same on the checked-out client, released on both paths |
| Chats.ListChats | backend/src/routes/chats.ts:9-40 | 404 unless the caller owns the project, else exactly its chats, newest first |
| Chats.GetChat | backend/src/routes/chats.ts:42-81 | 404 unless the chat is under the project and the caller owns it, else the chat with exactly its messages, oldest first |
| Chats.CreateChat | backend/src/routes/chats.ts:84-119 | 404 and no change unless the caller owns the project; otherwise one new chat, with no messages, and 201 |
| Chats.CreateChatOnClient | backend/src/routes/chats.ts:91-113 | the same on the checked-out client, released on both paths |
| Chats.NoMessagesAtClock | backend/src/utils/db.ts:77 | in a valid store no message refers to a chat id not yet issued, so a new chat starts empty |
| Chats.DeleteChat | backend/src/routes/chats.ts:251-283 | 204 only when the chat is under the project and the caller owns it, and then the chat goes with its messages, other chats keeping theirs; otherwise 404 and nothing removed |
| Chats.DeleteChatOnClient | backend/src/routes/chats.ts:259-277 | the same on the checked-out client, released on both paths |
| Chats.StreamController.Enqueue | backend/src/routes/chats.ts:193 | an event is appended to what the stream carries |
| Chats.StreamController.Close | backend/src/routes/chats.ts:233 | the stream is closed; nothing can be enqueued after |
| Chats.HistoryEndsWithNewMessage | backend/src/routes/chats.ts:160-176 | since the user row is inserted before the history read, the history is the chat's earlier history followed by the new message |
| Chats.Terminal | backend/src/routes/chats.ts:208-230 | `done` exactly when the generator finished and the assistant insert succeeded, carrying the stored reply; `error` with the provider's or the insert's message otherwise |
| Chats.SessionShape | backend/src/routes/chats.ts:189-233 | every stream is one `userMessage`, then only `chunk`s, then one terminal event; the chunks are the fragments in order and a `done` message's text is their concatenation |
| Chats.StreamChunks | backend/src/routes/chats.ts:199-206 | the loop enqueues one `chunk` per fragment in order and `fullResponse` is their concatenation |
| Chats.Conclude | backend/src/routes/chats.ts:208-234 | the reply row is inserted only when the generator finished and the insert succeeds; exactly one terminal event is enqueued; the client is released once and the stream closed |
| Chats.StreamReply | backend/src/routes/chats.ts:188-206 | the user event first, then the chunk events of the generator's run over the given history and prompt |
| Chats.Relay | backend/src/routes/chats.ts:184-236 | the stream carries exactly the session events; the messages table gains the reply only on `done`; the client is released and the stream closed |
| Chats.StageOrder | backend/src/routes/chats.ts:129-176 | a request is streamed exactly when its body has a truthy message, the chat is the caller's and no query before the stream fails; an empty message is refused whatever the chat |
| Chats.Admit | backend/src/routes/chats.ts:125-176 | malformed body or failing connect: 500, no client; empty message: 400, no client, no change; foreign chat: 404, nothing inserted, one client left checked out; failing ownership query or user insert: 500, released, no change; failing history read: 500, released, the user row stays; streaming: the user row stored, the project's system prompt in hand, the client still held |
| Chats.AdmitOnClient | backend/src/routes/chats.ts:143-176 | the queries before the stream on the checked-out client, with the same outcomes counted from the connection |
| Chats.StoreUserMessage | backend/src/routes/chats.ts:159-176 | an insert failure changes nothing; otherwise the user row is appended before the history is read; either failure answers 500 and releases the client |
| Chats.SendMessageStream | backend/src/routes/chats.ts:124-248 | the stage follows the checks in source order; a refusal answers 400/404/500 and creates no stream; a 200 stream carries the user row, the chunks of the provider's run over the whole history with the new message last, and the terminal event; the table gains the user row and, on `done`, the reply; only the 404 changes the client count |
| Chats.StartStream | backend/src/routes/chats.ts:169-238 | the history is read after the user insert, the relay runs over it to the end, and the answer is a 200 stream |
| Chats.SessionRowCount | backend/src/routes/chats.ts:209-230 | a stream ending in `done` adds exactly the user row then the reply to the chat's history; one ending in `error` adds only the user row |
| Completion.UpstreamContextShape | backend/src/utils/openai.ts:18-28 | the context has `|messages| + (systemPrompt ? 1 : 0)` turns; the system turn is first exactly when the prompt is truthy; the rest is the history in order and holds no other system turn |
| Completion.ContextIgnoresEmptyPrompt | backend/src/routes/chats.ts:199 | `systemPrompt \|\| undefined` gives the same context, and an empty prompt adds no system turn |
| Completion.Yielded | backend/src/utils/openai.ts:36-41 | no more fragments than chunks, and every fragment is non-empty |
| Completion.YieldedAppend | backend/src/utils/openai.ts:36-41 | the fragments of a chunk stream are those of its first part followed by those of the rest |
| Completion.YieldedIsFilter | backend/src/utils/openai.ts:36-41 | the fragments are exactly the chunks' delta texts with the empty ones removed, in order |
| Completion.YieldedConcat | backend/src/utils/openai.ts:36-41 | skipping empty deltas loses no text |
| Completion.Generate | backend/src/utils/openai.ts:3-42 | without a truthy key it throws "GEMINI_API_KEY is not set" before sending or yielding anything; otherwise it sends the assembled context with the key and `stream: true`, and ends with the provider's exception, if any |
| Completion.GenerateFragments | backend/src/utils/openai.ts:36-41 | with a key, the fragments are the non-empty deltas of the provider's chunks and join to the text of all deltas |
| Completion.BuildContext | backend/src/utils/openai.ts:18-28 | the pushes build exactly the upstream context |
| Completion.YieldDeltas | backend/src/utils/openai.ts:36-41 | the loop yields exactly the truthy deltas, in order |
| Completion.SendToGeminiStream | backend/src/utils/openai.ts:3-42 | the generator's whole run is `Generate` of its inputs |
| Framing.PayloadOf | backend/src/routes/chats.ts:189-230 | each event is serialised with its own `type` tag: `userMessage`, `chunk`, `done`, `error` |
| Framing.PayloadOfInjective | backend/src/routes/chats.ts:189-230 | distinct events have distinct payloads |
| Framing.FrameShape | backend/src/routes/chats.ts:189-192 | a frame is `data: `, the payload's JSON, and a blank line |
| ApiClient.Headers | frontend/src/lib/api.ts:43-51 | `Authorization: Bearer <token>` exactly when a truthy token is stored; `Content-Type` is JSON unless the caller overrides it; the caller's other headers are kept; no other header appears |
| ApiClient.ServerSeesStoredToken | frontend/src/lib/api.ts:49-51 | the server's bearer parsing recovers exactly the stored token |
| ApiClient.ErrorMessage | frontend/src/lib/api.ts:58-62 | the server's non-empty `error` field, else "An error occurred"; never empty |
| ApiClient.Request | frontend/src/lib/api.ts:39-70 | sends those headers; throws with that message on a non-ok status, returns `{}` on 204, else the parsed body |
| ApiClient.Lines | frontend/src/lib/api.ts:222 | `split("\n")` gives at least one piece and no piece holds a newline |
| ApiClient.JoinLines | frontend/src/lib/api.ts:222 | joining the pieces with newlines gives the text back |
| ApiClient.SplitJoin | frontend/src/lib/api.ts:222 | splitting newline-free pieces joined by newlines gives the pieces back |
| ApiClient.LinesAppend | frontend/src/lib/api.ts:221-223 | appending text keeps the lines already ended and re-splits only the last piece with the new text |
| ApiClient.ReadStep | frontend/src/lib/api.ts:221-223 | one read: the ended lines grow by those the buffer plus the new text ends, and the buffer becomes what follows the last newline |
| ApiClient.TrailingPartialHeld | frontend/src/lib/api.ts:221-223 | text without a newline ends no line and only extends the buffer |
| ApiClient.DecodeLines | frontend/src/lib/api.ts:225-238 | at most one callback per line |
| ApiClient.DecodeAppend | frontend/src/lib/api.ts:225-239 | lines are handled in order, the calls of a split sequence are those of the parts in turn, and nothing is handled after a parse error |
| ApiClient.PartialLineDropped | frontend/src/lib/api.ts:216-223 | a trailing partial line does not change what is decoded |
| ApiClient.HandleLines | frontend/src/lib/api.ts:225-239 | the `for` loop over one read's lines: only `data: ` lines are parsed, from character 6, and dispatched on `type` (unknown types call nothing), others skipped, stopping at the first parse error |
| ApiClient.ReadEventStream | frontend/src/lib/api.ts:214-240 | the read loop, whose buffer is always the text after the last newline read so far (so it never holds one), makes the calls of decoding the concatenated reads' complete lines, plus `onError` when `JSON.parse` throws |
| ApiClient.StopsAtParseError | frontend/src/lib/api.ts:227 | a parse error decides the whole stream: later reads are never decoded |
| ApiClient.SendMessageStream | frontend/src/lib/api.ts:181-243 | a non-ok answer calls only `onError` with the server's message or "An error occurred"; a missing body calls only `onError("No response body")`; otherwise the read loop's calls |
| ApiClient.CallbacksOf | frontend/src/lib/api.ts:229-237 | one callback per event, in order |
| ApiClient.RoundTrip | frontend/src/lib/api.ts:221-237 | when every event's JSON is one line that parses back, decoding the server's frames gives back its events in order as callbacks and leaves the buffer empty |
| ApiClient.StreamRoundTrip | frontend/src/lib/api.ts:214-240 | however the reads cut the frames, the client calls back once per server event, in order, and never `onError` on its own |

## Left out

- Network and I/O are parameters, not modelled:
  - the HTTP server and router;
  - TCP;
  - `fetch`, including a network failure of `fetch` itself, which the client's `catch` would report through `onError`;
  - the provider's HTTP client;
  - `ReadableStream` scheduling.
- Request bodies arrive already parsed. JSON that fails to parse, or a `null` body, is the `None` body and answers 500.
- `JSON.stringify` and `JSON.parse` are not modelled. They are an abstract pair. The round trip is proved under the stated assumption `RoundTrips`: one line of JSON per event, parsing back to the same payload.
- `TextEncoder` and `TextDecoder` are not modelled. Reads are taken as already-decoded strings (UTF-8 assumed).
- Ids are the store's insertion counter. They stand for both the UUID key and `created_at`:
  - a malformed UUID in a path, which makes Postgres throw and the handler answer 500, is not modelled;
  - wall-clock `NOW()` is the counter.
- A failing store is modelled as an `unavailable` flag on the CRUD handlers: 500 and nothing changed. In the relay it is a `StoreFault` naming the query that throws. A failure half-way through one SQL statement is not modelled; PostgreSQL makes each statement atomic.
- The SSE response headers are not modelled: `Content-Type`, `Cache-Control` and `Connection` (backend/src/routes/chats.ts:179-181).
- Concurrency is not modelled: concurrent sessions on a chat, pool contention and client disconnects. The source has no locking or cancellation.
- The generator's laziness is not modelled. The generator's whole run is computed before the chunks are enqueued. No observable order changes, since the provider is a function of its request.
- Callbacks that throw are not modelled. The client's callbacks are assumed to return normally. Otherwise the `catch` would report their exception through `onError`.
- `lines.pop() || ""` is modelled as the last piece. `split` always yields at least one piece, and an empty last piece is `""` either way, so the `|| ""` never changes the value.
- An error body whose JSON is not an object, or whose `error` field is not a string, is not modelled separately: the client is modelled as seeing no `error` field.
- Some external code is not part of this model. It appears only as function parameters:
  - token signing and verification: backend/src/utils/jwt.ts;
  - password hashing and checking: utils/password.ts;
  - the completion provider.
- The following are not part of this model:
  - the user interface (frontend/src/routes, components and the auth context);
  - backend/src/main.ts;
  - the pool setup and DDL execution in backend/src/utils/db.ts, except its schema, which is modelled as the invariant `Valid()`.
- The client's other methods are not modelled. `register`, `login`, `getProjects` and the rest are one-line calls of `request`, and `request` is modelled. `localStorage` becomes the `token` parameter.
