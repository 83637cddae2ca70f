/** The relational store behind the handlers (backend/src/utils/db.ts): five tables
    kept in insertion order, the schema's constraints as an invariant, the SQL
    statements the handlers issue as functions over the tables, and the pool of
    client connections reduced to a counter of clients checked out. */
module Db {
  import opened Common
  import opened Types

  function UserKey(u: User): int { u.id }
  function ProjectKey(p: Project): int { p.id }
  function PromptKey(q: Prompt): int { q.id }
  function ChatKey(c: Chat): int { c.id }
  function MessageKey(m: Message): int { m.id }

  /** The email of the user at index `i`, the term the uniqueness of emails is
      stated with. */
  function EmailAt(us: seq<User>, i: int): string
    requires 0 <= i < |us|
  {
    us[i].email
  }

  function UserIds(us: seq<User>): set<Id> { set u | u in us :: u.id }
  function ProjectIds(ps: seq<Project>): set<Id> { set p | p in ps :: p.id }
  function ChatIds(cs: seq<Chat>): set<Id> { set c | c in cs :: c.id }

  /** A snapshot of every table and of the insertion counter. */
  datatype Tables = Tables(
    users: seq<User>,
    projects: seq<Project>,
    prompts: seq<Prompt>,
    chats: seq<Chat>,
    messages: seq<Message>,
    clock: nat)
  {
    /** The schema's constraints: primary keys (ids unique; here also ascending in
        insertion order and below the counter), the foreign keys projects.user_id,
        prompts.project_id, chats.project_id and messages.chat_id, and the unique
        users.email. The role CHECK is the type `Role`. */
    ghost predicate Valid() {
      KeysValid() && ReferencesValid() && EmailsUnique()
    }

    ghost predicate KeysValid() {
      Ascending(users, UserKey) && Below(users, UserKey, clock) &&
      Ascending(projects, ProjectKey) && Below(projects, ProjectKey, clock) &&
      Ascending(prompts, PromptKey) && Below(prompts, PromptKey, clock) &&
      Ascending(chats, ChatKey) && Below(chats, ChatKey, clock) &&
      Ascending(messages, MessageKey) && Below(messages, MessageKey, clock)
    }

    ghost predicate ReferencesValid() {
      (forall p :: p in projects ==> p.userId in UserIds(users)) &&
      (forall q :: q in prompts ==> q.projectId in ProjectIds(projects)) &&
      (forall c :: c in chats ==> c.projectId in ProjectIds(projects)) &&
      (forall m :: m in messages ==> m.chatId in ChatIds(chats))
    }

    ghost predicate EmailsUnique() {
      forall i, j :: 0 <= i < j < |users| ==> EmailAt(users, i) != EmailAt(users, j)
    }
  }

  // ---------------------------------------------------------------- queries

  predicate ProjectOwned(ps: seq<Project>, projectId: Id, userId: Id) {
    exists p :: p in ps && p.id == projectId && p.userId == userId
  }

  /** `SELECT * FROM projects WHERE id = projectId AND user_id = userId`, first row. */
  function OwnedProject(ps: seq<Project>, projectId: Id, userId: Id): (r: Option<Project>)
    ensures r.Some? <==> ProjectOwned(ps, projectId, userId)
    ensures r.Some? ==> r.value in ps && r.value.id == projectId && r.value.userId == userId
  {
    var rows := Filter(ps, (p: Project) => p.id == projectId && p.userId == userId);
    if rows == [] then None else assert rows[0] in rows; Some(rows[0])
  }

  /** `SELECT * FROM projects WHERE user_id = userId ORDER BY created_at DESC`. */
  function ProjectsOf(ps: seq<Project>, userId: Id): (r: seq<Project>)
    ensures forall p :: p in r <==> p in ps && p.userId == userId
  {
    var rows := Filter(ps, (p: Project) => p.userId == userId);
    ReverseMembers(rows);
    Reverse(rows)
  }

  /** Listing is newest first whenever the table is in creation order. */
  lemma ProjectsOfNewestFirst(ps: seq<Project>, userId: Id)
    requires Ascending(ps, ProjectKey)
    ensures Descending(ProjectsOf(ps, userId), ProjectKey)
  {
    var rows := Filter(ps, (p: Project) => p.userId == userId);
    FilterAscending(ps, (p: Project) => p.userId == userId, ProjectKey);
    ReverseAscending(rows, ProjectKey);
  }

  /** The chat `chatId` lies under project `projectId`, which `userId` owns. */
  predicate ChatOwned(cs: seq<Chat>, ps: seq<Project>, chatId: Id, projectId: Id, userId: Id) {
    ProjectOwned(ps, projectId, userId) &&
    exists c :: c in cs && c.id == chatId && c.projectId == projectId
  }

  datatype ChatAccess = ChatAccess(chat: Chat, project: Project)

  /** `SELECT c.*, p.system_prompt FROM chats c JOIN projects p ON c.project_id = p.id
      WHERE c.id = chatId AND c.project_id = projectId AND p.user_id = userId`, first row. */
  function OwnedChat(cs: seq<Chat>, ps: seq<Project>, chatId: Id, projectId: Id, userId: Id): (r: Option<ChatAccess>)
    ensures r.Some? <==> ChatOwned(cs, ps, chatId, projectId, userId)
    ensures r.Some? ==> r.value.chat in cs && r.value.chat.id == chatId && r.value.chat.projectId == projectId
    ensures r.Some? ==> r.value.project in ps && r.value.project.id == projectId && r.value.project.userId == userId
  {
    var project := OwnedProject(ps, projectId, userId);
    var rows := Filter(cs, (c: Chat) => c.id == chatId && c.projectId == projectId);
    if project.None? then None
    else if rows == [] then
      assert forall c :: c in cs && c.id == chatId && c.projectId == projectId ==> c in rows;
      None
    else
      assert rows[0] in rows;
      Some(ChatAccess(rows[0], project.value))
  }

  /** `SELECT * FROM chats WHERE project_id = projectId ORDER BY created_at DESC`. */
  function ChatsOf(cs: seq<Chat>, projectId: Id): (r: seq<Chat>)
    ensures forall c :: c in r <==> c in cs && c.projectId == projectId
  {
    var rows := Filter(cs, (c: Chat) => c.projectId == projectId);
    ReverseMembers(rows);
    Reverse(rows)
  }

  lemma ChatsOfNewestFirst(cs: seq<Chat>, projectId: Id)
    requires Ascending(cs, ChatKey)
    ensures Descending(ChatsOf(cs, projectId), ChatKey)
  {
    var rows := Filter(cs, (c: Chat) => c.projectId == projectId);
    FilterAscending(cs, (c: Chat) => c.projectId == projectId, ChatKey);
    ReverseAscending(rows, ChatKey);
  }

  /** `SELECT * FROM messages WHERE chat_id = chatId ORDER BY created_at ASC`. */
  function MessagesOf(ms: seq<Message>, chatId: Id): (r: seq<Message>)
    ensures forall m :: m in r <==> m in ms && m.chatId == chatId
  {
    Filter(ms, (m: Message) => m.chatId == chatId)
  }

  /** History is oldest first whenever the table is in creation order. */
  lemma MessagesOfOldestFirst(ms: seq<Message>, chatId: Id, bound: int)
    requires Ascending(ms, MessageKey) && Below(ms, MessageKey, bound)
    ensures Ascending(MessagesOf(ms, chatId), MessageKey) && Below(MessagesOf(ms, chatId), MessageKey, bound)
  {
    FilterAscending(ms, (m: Message) => m.chatId == chatId, MessageKey);
    FilterBelow(ms, (m: Message) => m.chatId == chatId, MessageKey, bound);
  }

  /** A message appended to a chat's table comes last in that chat's history, and
      the other chats' histories do not see it. */
  lemma MessagesOfSnoc(ms: seq<Message>, m: Message, chatId: Id)
    ensures MessagesOf(ms + [m], chatId) == MessagesOf(ms, chatId) + (if m.chatId == chatId then [m] else [])
  {
    FilterSnoc(ms, m, (m: Message) => m.chatId == chatId);
  }

  predicate PromptOwned(qs: seq<Prompt>, ps: seq<Project>, promptId: Id, projectId: Id, userId: Id) {
    ProjectOwned(ps, projectId, userId) &&
    exists q :: q in qs && q.id == promptId && q.projectId == projectId
  }

  /** `SELECT p.* FROM prompts p JOIN projects pr ON p.project_id = pr.id
      WHERE p.id = promptId AND p.project_id = projectId AND pr.user_id = userId`, first row. */
  function OwnedPrompt(qs: seq<Prompt>, ps: seq<Project>, promptId: Id, projectId: Id, userId: Id): (r: Option<Prompt>)
    ensures r.Some? <==> PromptOwned(qs, ps, promptId, projectId, userId)
    ensures r.Some? ==> r.value in qs && r.value.id == promptId && r.value.projectId == projectId
  {
    var rows := Filter(qs, (q: Prompt) => q.id == promptId && q.projectId == projectId);
    if !ProjectOwned(ps, projectId, userId) || rows == [] then None else assert rows[0] in rows; Some(rows[0])
  }

  /** `SELECT * FROM prompts WHERE project_id = projectId ORDER BY created_at DESC`. */
  function PromptsOf(qs: seq<Prompt>, projectId: Id): (r: seq<Prompt>)
    ensures forall q :: q in r <==> q in qs && q.projectId == projectId
  {
    var rows := Filter(qs, (q: Prompt) => q.projectId == projectId);
    ReverseMembers(rows);
    Reverse(rows)
  }

  lemma PromptsOfNewestFirst(qs: seq<Prompt>, projectId: Id)
    requires Ascending(qs, PromptKey)
    ensures Descending(PromptsOf(qs, projectId), PromptKey)
  {
    var rows := Filter(qs, (q: Prompt) => q.projectId == projectId);
    FilterAscending(qs, (q: Prompt) => q.projectId == projectId, PromptKey);
    ReverseAscending(rows, PromptKey);
  }

  /** `SELECT * FROM users WHERE email = email`, first row. */
  function UserByEmail(us: seq<User>, email: string): (r: Option<User>)
    ensures r.Some? <==> exists u :: u in us && u.email == email
    ensures r.Some? ==> r.value in us && r.value.email == email
  {
    var rows := Filter(us, (u: User) => u.email == email);
    if rows == [] then None else assert rows[0] in rows; Some(rows[0])
  }

  /** `SELECT id, email, created_at FROM users WHERE id = userId`, first row. */
  function UserById(us: seq<User>, userId: Id): (r: Option<PublicUser>)
    ensures r.Some? <==> userId in UserIds(us)
    ensures r.Some? ==> exists u :: u in us && u.id == userId && r.value == PublicUser(u.id, u.email)
  {
    var rows := Filter(us, (u: User) => u.id == userId);
    if rows == [] then None else assert rows[0] in rows; Some(PublicUser(rows[0].id, rows[0].email))
  }

  // ---------------------------------------------------------------- writes

  /** `UPDATE ... WHERE id = row.id` on a table whose key is `key`: every row with
      that key becomes `row`, and every other row stays where it was. */
  function Replace<T>(rows: seq<T>, key: T -> int, row: T): (r: seq<T>)
    ensures |r| == |rows|
    ensures forall i :: 0 <= i < |rows| ==> r[i] == if key(rows[i]) == key(row) then row else rows[i]
  {
    seq(|rows|, i requires 0 <= i < |rows| => if key(rows[i]) == key(row) then row else rows[i])
  }

  /** The chats of project `projectId`, which its deletion takes with it. */
  function ChatIdsOf(cs: seq<Chat>, projectId: Id): (r: set<Id>)
    ensures forall id :: id in r <==> exists c :: c in cs && c.projectId == projectId && c.id == id
  {
    set c | c in cs && c.projectId == projectId :: c.id
  }

  /** `DELETE FROM projects WHERE id = projectId` with the schema's ON DELETE CASCADE:
      the project's prompts and chats go, and so do the messages of those chats. */
  function WithoutProject(t: Tables, projectId: Id): (r: Tables)
    ensures r.users == t.users && r.clock == t.clock
    ensures forall p :: p in r.projects <==> p in t.projects && p.id != projectId
    ensures forall q :: q in r.prompts <==> q in t.prompts && q.projectId != projectId
    ensures forall c :: c in r.chats <==> c in t.chats && c.projectId != projectId
    ensures forall m :: m in r.messages <==> m in t.messages && m.chatId !in ChatIdsOf(t.chats, projectId)
  {
    var doomed := ChatIdsOf(t.chats, projectId);
    t.(projects := Filter(t.projects, (p: Project) => p.id != projectId),
       prompts := Filter(t.prompts, (q: Prompt) => q.projectId != projectId),
       chats := Filter(t.chats, (c: Chat) => c.projectId != projectId),
       messages := Filter(t.messages, (m: Message) => m.chatId !in doomed))
  }

  /** `DELETE FROM chats WHERE id = chatId` with ON DELETE CASCADE on messages.chat_id. */
  function WithoutChat(t: Tables, chatId: Id): (r: Tables)
    ensures r.users == t.users && r.projects == t.projects && r.prompts == t.prompts && r.clock == t.clock
    ensures forall c :: c in r.chats <==> c in t.chats && c.id != chatId
    ensures forall m :: m in r.messages <==> m in t.messages && m.chatId != chatId
  {
    t.(chats := Filter(t.chats, (c: Chat) => c.id != chatId),
       messages := Filter(t.messages, (m: Message) => m.chatId != chatId))
  }

  /** `DELETE FROM prompts WHERE id = promptId` (nothing references prompts). */
  function WithoutPrompt(qs: seq<Prompt>, promptId: Id): (r: seq<Prompt>)
    ensures forall q :: q in r <==> q in qs && q.id != promptId
  {
    Filter(qs, (q: Prompt) => q.id != promptId)
  }

  /** Deleting a project with its cascade leaves every constraint of the schema intact:
      nothing is left pointing at a removed project or chat. */
  lemma WithoutProjectValid(t: Tables, projectId: Id)
    requires t.Valid()
    ensures WithoutProject(t, projectId).Valid()
  {
    var r := WithoutProject(t, projectId);
    var doomed := ChatIdsOf(t.chats, projectId);
    FilterAscending(t.projects, (p: Project) => p.id != projectId, ProjectKey);
    FilterBelow(t.projects, (p: Project) => p.id != projectId, ProjectKey, t.clock);
    FilterAscending(t.prompts, (q: Prompt) => q.projectId != projectId, PromptKey);
    FilterBelow(t.prompts, (q: Prompt) => q.projectId != projectId, PromptKey, t.clock);
    FilterAscending(t.chats, (c: Chat) => c.projectId != projectId, ChatKey);
    FilterBelow(t.chats, (c: Chat) => c.projectId != projectId, ChatKey, t.clock);
    FilterAscending(t.messages, (m: Message) => m.chatId !in doomed, MessageKey);
    FilterBelow(t.messages, (m: Message) => m.chatId !in doomed, MessageKey, t.clock);
    forall q | q in r.prompts ensures q.projectId in ProjectIds(r.projects) {
      var p :| p in t.projects && p.id == q.projectId;
      assert p in r.projects;
    }
    forall c | c in r.chats ensures c.projectId in ProjectIds(r.projects) {
      var p :| p in t.projects && p.id == c.projectId;
      assert p in r.projects;
    }
    forall m | m in r.messages ensures m.chatId in ChatIds(r.chats) {
      var c :| c in t.chats && c.id == m.chatId;
      assert c in r.chats;
    }
  }

  /** Deleting a chat with its messages leaves every constraint intact. */
  lemma WithoutChatValid(t: Tables, chatId: Id)
    requires t.Valid()
    ensures WithoutChat(t, chatId).Valid()
  {
    var r := WithoutChat(t, chatId);
    FilterAscending(t.chats, (c: Chat) => c.id != chatId, ChatKey);
    FilterBelow(t.chats, (c: Chat) => c.id != chatId, ChatKey, t.clock);
    FilterAscending(t.messages, (m: Message) => m.chatId != chatId, MessageKey);
    FilterBelow(t.messages, (m: Message) => m.chatId != chatId, MessageKey, t.clock);
    forall m | m in r.messages ensures m.chatId in ChatIds(r.chats) {
      var c :| c in t.chats && c.id == m.chatId;
      assert c in r.chats;
    }
  }

  // ---------------------------------------------------------------- the store

  class Database {
    var users: seq<User>
    var projects: seq<Project>
    var prompts: seq<Prompt>
    var chats: seq<Chat>
    var messages: seq<Message>
    /** The next row id, and the current time of `NOW()`. */
    var clock: nat
    /** Pooled clients handed out by `connect()` and not yet given back by `release()`. */
    var held: nat

    function Snapshot(): Tables
      reads this`users, this`projects, this`prompts, this`chats, this`messages, this`clock
    {
      Tables(users, projects, prompts, chats, messages, clock)
    }

    ghost predicate Valid()
      reads this`users, this`projects, this`prompts, this`chats, this`messages, this`clock
    {
      Snapshot().Valid()
    }

    constructor ()
      ensures Valid() && Snapshot() == Tables([], [], [], [], [], 0) && held == 0
    {
      users, projects, prompts, chats, messages := [], [], [], [], [];
      clock, held := 0, 0;
    }

    /** `await db.connect()`. */
    method Connect()
      modifies this`held
      ensures held == old(held) + 1
    {
      held := held + 1;
    }

    /** `client.release()`. */
    method Release()
      requires held > 0
      modifies this`held
      ensures held == old(held) - 1
    {
      held := held - 1;
    }

    /** `INSERT INTO users (email, password_hash) ... RETURNING ...`, for an email not yet taken. */
    method InsertUser(email: string, passwordHash: string) returns (u: User)
      requires Valid() && forall v :: v in users ==> v.email != email
      modifies this`users, this`clock
      ensures Valid()
      ensures u == User(old(clock), email, passwordHash)
      ensures users == old(users) + [u] && clock == old(clock) + 1
    {
      u := User(clock, email, passwordHash);
      AscendingSnoc(users, u, UserKey, clock);
      var before := users;
      users := users + [u];
      clock := clock + 1;
      forall i, j | 0 <= i < j < |users| ensures EmailAt(users, i) != EmailAt(users, j) {
        assert EmailAt(users, i) == EmailAt(before, i);
        if j < |before| {
          assert EmailAt(users, j) == EmailAt(before, j);
        } else {
          assert before[i] in before;
        }
      }
    }

    /** `INSERT INTO projects (user_id, name, description, system_prompt) ... RETURNING *`. */
    method InsertProject(userId: Id, name: string, description: Option<string>, systemPrompt: Option<string>)
      returns (p: Project)
      requires Valid() && userId in UserIds(users)
      modifies this`projects, this`clock
      ensures Valid()
      ensures p == Project(old(clock), userId, name, description, systemPrompt, old(clock))
      ensures projects == old(projects) + [p] && clock == old(clock) + 1
    {
      p := Project(clock, userId, name, description, systemPrompt, clock);
      AscendingSnoc(projects, p, ProjectKey, clock);
      projects := projects + [p];
      clock := clock + 1;
    }

    /** `UPDATE projects SET ... WHERE id = row.id`, where the row keeps its id and owner. */
    method UpdateProject(row: Project)
      requires Valid() && exists p :: p in projects && p.id == row.id && p.userId == row.userId
      modifies this`projects
      ensures Valid()
      ensures projects == Replace(old(projects), ProjectKey, row)
    {
      var before := projects;
      projects := Replace(projects, ProjectKey, row);
      AscendingSameKeys(before, projects, ProjectKey);
      assert ProjectIds(projects) == ProjectIds(before) by {
        forall id | id in ProjectIds(before) ensures id in ProjectIds(projects) {
          var i :| 0 <= i < |before| && before[i].id == id;
          assert projects[i].id == id;
        }
      }
      forall p | p in projects ensures p.userId in UserIds(users) {
        var i :| 0 <= i < |projects| && projects[i] == p;
        assert p == row || p == before[i];
      }
    }

    /** `DELETE FROM projects WHERE id = projectId ...` and its cascade. */
    method DeleteProject(projectId: Id)
      requires Valid()
      modifies this`projects, this`prompts, this`chats, this`messages
      ensures Valid()
      ensures Snapshot() == WithoutProject(old(Snapshot()), projectId)
    {
      var r := WithoutProject(Snapshot(), projectId);
      WithoutProjectValid(Snapshot(), projectId);
      projects, prompts, chats, messages := r.projects, r.prompts, r.chats, r.messages;
      assert Snapshot() == r;
    }

    /** `INSERT INTO prompts (project_id, name, content) ... RETURNING *`. */
    method InsertPrompt(projectId: Id, name: string, content: string) returns (q: Prompt)
      requires Valid() && projectId in ProjectIds(projects)
      modifies this`prompts, this`clock
      ensures Valid()
      ensures q == Prompt(old(clock), projectId, name, content, old(clock))
      ensures prompts == old(prompts) + [q] && clock == old(clock) + 1
    {
      q := Prompt(clock, projectId, name, content, clock);
      AscendingSnoc(prompts, q, PromptKey, clock);
      prompts := prompts + [q];
      clock := clock + 1;
    }

    /** `UPDATE prompts SET ... WHERE id = row.id`, where the row keeps its id and project. */
    method UpdatePrompt(row: Prompt)
      requires Valid() && exists q :: q in prompts && q.id == row.id && q.projectId == row.projectId
      modifies this`prompts
      ensures Valid()
      ensures prompts == Replace(old(prompts), PromptKey, row)
    {
      var before := prompts;
      prompts := Replace(prompts, PromptKey, row);
      AscendingSameKeys(before, prompts, PromptKey);
      forall q | q in prompts ensures q.projectId in ProjectIds(projects) {
        var i :| 0 <= i < |prompts| && prompts[i] == q;
        assert q == row || q == before[i];
      }
    }

    /** `DELETE FROM prompts WHERE id = promptId`. */
    method DeletePrompt(promptId: Id)
      requires Valid()
      modifies this`prompts
      ensures Valid()
      ensures prompts == WithoutPrompt(old(prompts), promptId)
    {
      FilterAscending(prompts, (q: Prompt) => q.id != promptId, PromptKey);
      FilterBelow(prompts, (q: Prompt) => q.id != promptId, PromptKey, clock);
      prompts := WithoutPrompt(prompts, promptId);
    }

    /** `INSERT INTO chats (project_id) ... RETURNING *`. */
    method InsertChat(projectId: Id) returns (c: Chat)
      requires Valid() && projectId in ProjectIds(projects)
      modifies this`chats, this`clock
      ensures Valid()
      ensures c == Chat(old(clock), projectId)
      ensures chats == old(chats) + [c] && clock == old(clock) + 1
    {
      c := Chat(clock, projectId);
      AscendingSnoc(chats, c, ChatKey, clock);
      chats := chats + [c];
      clock := clock + 1;
    }

    /** `DELETE FROM chats WHERE id = chatId ...` and its cascade. */
    method DeleteChat(chatId: Id)
      requires Valid()
      modifies this`chats, this`messages
      ensures Valid()
      ensures Snapshot() == WithoutChat(old(Snapshot()), chatId)
    {
      var r := WithoutChat(Snapshot(), chatId);
      WithoutChatValid(Snapshot(), chatId);
      chats, messages := r.chats, r.messages;
      assert Snapshot() == r;
    }

    /** `INSERT INTO messages (chat_id, role, content) ... RETURNING *`. */
    method InsertMessage(chatId: Id, role: Role, content: string) returns (m: Message)
      requires Valid() && chatId in ChatIds(chats)
      modifies this`messages, this`clock
      ensures Valid()
      ensures m == Message(old(clock), chatId, role, content)
      ensures messages == old(messages) + [m] && clock == old(clock) + 1
    {
      m := Message(clock, chatId, role, content);
      AscendingSnoc(messages, m, MessageKey, clock);
      messages := messages + [m];
      clock := clock + 1;
    }
  }
}
