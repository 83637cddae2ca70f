/** Project endpoints (backend/src/routes/projects.ts): every one is scoped to the
    authenticated caller, whose id the middleware left in `ctx.auth`. */
module Projects {
  import opened Common
  import opened Types
  import opened Http
  import opened Db

  const ProjectNotFound := "Project not found"
  const NameRequired := "Project name is required"

  /** The row `POST /projects` inserts: owned by the caller, and an empty description
      or system prompt (`x || null`) stored as null. */
  function NewProject(id: Id, owner: Id, f: ProjectFields): (p: Project)
    requires Truthy(f.name)
    ensures p.id == id && p.userId == owner && p.name == f.name.value && p.updatedAt == id
    ensures p.description.Some? <==> Truthy(f.description)
    ensures p.description.Some? ==> p.description == f.description
    ensures p.systemPrompt.Some? <==> Truthy(f.systemPrompt)
    ensures p.systemPrompt.Some? ==> p.systemPrompt == f.systemPrompt
  {
    Project(id, owner, f.name.value, OrAbsent(f.description), OrAbsent(f.systemPrompt), id)
  }

  /** The row `PUT /projects/:id` writes (`COALESCE(given, column)` for each field,
      `updated_at = NOW()`): id and owner never change; a field that is given wins,
      even the empty string, and an absent one keeps its value. */
  function UpdatedProject(row: Project, f: ProjectFields, now: nat): (r: Project)
    ensures r.id == row.id && r.userId == row.userId && r.updatedAt == now
    ensures f.name.Some? ==> r.name == f.name.value
    ensures f.name.None? ==> r.name == row.name
    ensures f.description.Some? ==> r.description == f.description
    ensures f.description.None? ==> r.description == row.description
    ensures f.systemPrompt.Some? ==> r.systemPrompt == f.systemPrompt
    ensures f.systemPrompt.None? ==> r.systemPrompt == row.systemPrompt
  {
    row.(name := Coalesce(f.name, row.name),
         description := CoalesceNullable(f.description, row.description),
         systemPrompt := CoalesceNullable(f.systemPrompt, row.systemPrompt),
         updatedAt := now)
  }

  /** Sending the same update twice leaves the row as the first one did. */
  lemma UpdateIdempotent(row: Project, f: ProjectFields, now: nat)
    ensures UpdatedProject(UpdatedProject(row, f, now), f, now) == UpdatedProject(row, f, now)
  {
  }

  /** Create and update disagree on the empty string: create stores it as null,
      update stores it as given. */
  lemma EmptyStringOnCreateAndUpdate(row: Project, id: Id, owner: Id, name: string, now: nat)
    requires name != ""
    ensures NewProject(id, owner, ProjectFields(Some(name), Some(""), Some(""))).description == None
    ensures UpdatedProject(row, ProjectFields(None, Some(""), Some("")), now).description == Some("")
    ensures UpdatedProject(row, ProjectFields(None, Some(""), Some("")), now).systemPrompt == Some("")
  {
  }

  /** Only the caller's row with this id is touched by an update; rows of other ids,
      and so every project of another user, are kept as they were. */
  lemma ReplaceKeepsOthers(ps: seq<Project>, row: Project, owner: Id)
    requires Ascending(ps, ProjectKey)
    requires exists p :: p in ps && p.id == row.id && p.userId == owner
    ensures forall p :: p in ps && p.userId != owner ==> p in Replace(ps, ProjectKey, row)
  {
    var r := Replace(ps, ProjectKey, row);
    var mine :| mine in ps && mine.id == row.id && mine.userId == owner;
    forall p | p in ps && p.userId != owner ensures p in r {
      var i :| 0 <= i < |ps| && ps[i] == p;
      if p.id == row.id {
        AscendingUnique(ps, ProjectKey, p, mine);
      }
      assert r[i] == p;
    }
  }

  /** `GET /projects`: the caller's projects, newest first. */
  method ListProjects(ctx: Context, db: Database, unavailable: bool)
    requires ctx.auth.Some? && db.Valid()
    modifies ctx`status, ctx`body, db`held
    ensures db.held == old(db.held)
    ensures unavailable ==> ctx.status == 500 && ctx.body == ErrorBody(InternalError)
    ensures !unavailable ==>
      ctx.status == 200 && ctx.body.ProjectList? &&
      (forall p :: p in ctx.body.projects <==> p in db.projects && p.userId == ctx.auth.value.userId) &&
      Descending(ctx.body.projects, ProjectKey)
  {
    if unavailable {
      ctx.Respond(500, ErrorBody(InternalError));
      return;
    }
    var caller := ctx.auth.value.userId;
    db.Connect();
    ProjectsOfNewestFirst(db.projects, caller);
    ctx.Respond(200, ProjectList(ProjectsOf(db.projects, caller)));
    db.Release();
  }

  /** `GET /projects/:id`: 404 unless the project exists and the caller owns it. */
  method GetProject(ctx: Context, db: Database, projectId: Id, unavailable: bool)
    requires ctx.auth.Some?
    modifies ctx`status, ctx`body, db`held
    ensures db.held == old(db.held)
    ensures unavailable ==> ctx.status == 500 && ctx.body == ErrorBody(InternalError)
    ensures !unavailable && !ProjectOwned(db.projects, projectId, ctx.auth.value.userId) ==>
      ctx.status == 404 && ctx.body == ErrorBody(ProjectNotFound)
    ensures !unavailable && ProjectOwned(db.projects, projectId, ctx.auth.value.userId) ==>
      ctx.status == 200 && ctx.body.ProjectBody? && ctx.body.project in db.projects &&
      ctx.body.project.id == projectId && ctx.body.project.userId == ctx.auth.value.userId
  {
    if unavailable {
      ctx.Respond(500, ErrorBody(InternalError));
      return;
    }
    var caller := ctx.auth.value.userId;
    db.Connect();
    var found := OwnedProject(db.projects, projectId, caller);
    if found.None? {
      ctx.Respond(404, ErrorBody(ProjectNotFound));
      db.Release();
      return;
    }
    ctx.Respond(200, ProjectBody(found.value));
    db.Release();
  }

  /** `POST /projects`: 400 without a name; otherwise one new row owned by the caller.
      An insert for a caller with no user row breaks the foreign key and fails (500). */
  method CreateProject(ctx: Context, db: Database, body: Option<ProjectFields>, unavailable: bool)
    requires ctx.auth.Some? && db.Valid()
    modifies ctx`status, ctx`body, db`projects, db`clock, db`held
    ensures db.Valid() && db.held == old(db.held)
    ensures body.None? ==>
      ctx.status == 500 && ctx.body == ErrorBody(InternalError) && db.Snapshot() == old(db.Snapshot())
    ensures body.Some? && !Truthy(body.value.name) ==>
      ctx.status == 400 && ctx.body == ErrorBody(NameRequired) && db.Snapshot() == old(db.Snapshot())
    ensures body.Some? && Truthy(body.value.name) &&
            (unavailable || ctx.auth.value.userId !in UserIds(db.users)) ==>
      ctx.status == 500 && ctx.body == ErrorBody(InternalError) && db.Snapshot() == old(db.Snapshot())
    ensures body.Some? && Truthy(body.value.name) &&
            !unavailable && ctx.auth.value.userId in UserIds(db.users) ==>
      var row := NewProject(old(db.clock), ctx.auth.value.userId, body.value);
      db.projects == old(db.projects) + [row] && db.clock == old(db.clock) + 1 &&
      ctx.status == 201 && ctx.body == ProjectBody(row)
  {
    if body.None? {
      ctx.Respond(500, ErrorBody(InternalError));
      return;
    }
    var fields := body.value;
    if !Truthy(fields.name) {
      ctx.Respond(400, ErrorBody(NameRequired));
      return;
    }
    var caller := ctx.auth.value.userId;
    if unavailable || caller !in UserIds(db.users) {
      ctx.Respond(500, ErrorBody(InternalError));
      return;
    }
    db.Connect();
    var row := db.InsertProject(caller, fields.name.value, OrAbsent(fields.description), OrAbsent(fields.systemPrompt));
    ctx.Respond(201, ProjectBody(row));
    db.Release();
  }

  /** `PUT /projects/:id`: 404 unless owned; otherwise the owned row takes the
      COALESCE update and no other row changes. */
  method UpdateProject(ctx: Context, db: Database, projectId: Id, body: Option<ProjectFields>, unavailable: bool)
    requires ctx.auth.Some? && db.Valid()
    modifies ctx`status, ctx`body, db`projects, db`held
    ensures db.Valid() && db.held == old(db.held)
    ensures body.None? || unavailable ==>
      ctx.status == 500 && ctx.body == ErrorBody(InternalError) && db.projects == old(db.projects)
    ensures body.Some? && !unavailable && !ProjectOwned(old(db.projects), projectId, ctx.auth.value.userId) ==>
      ctx.status == 404 && ctx.body == ErrorBody(ProjectNotFound) && db.projects == old(db.projects)
    ensures body.Some? && !unavailable && ProjectOwned(old(db.projects), projectId, ctx.auth.value.userId) ==>
      var row := OwnedProject(old(db.projects), projectId, ctx.auth.value.userId).value;
      var updated := UpdatedProject(row, body.value, db.clock);
      db.projects == Replace(old(db.projects), ProjectKey, updated) &&
      (forall p :: p in old(db.projects) && p.userId != ctx.auth.value.userId ==> p in db.projects) &&
      ctx.status == 200 && ctx.body == ProjectBody(updated)
  {
    if body.None? || unavailable {
      ctx.Respond(500, ErrorBody(InternalError));
      return;
    }
    db.Connect();
    UpdateProjectOnClient(ctx, db, projectId, body.value);
  }

  /** The ownership check and `UPDATE` of `PUT /projects/:id` on the checked-out
      client, released by the `finally`. */
  method UpdateProjectOnClient(ctx: Context, db: Database, projectId: Id, fields: ProjectFields)
    requires ctx.auth.Some? && db.Valid() && db.held > 0
    modifies ctx`status, ctx`body, db`projects, db`held
    ensures db.Valid() && db.held == old(db.held) - 1
    ensures !ProjectOwned(old(db.projects), projectId, ctx.auth.value.userId) ==>
      ctx.status == 404 && ctx.body == ErrorBody(ProjectNotFound) && db.projects == old(db.projects)
    ensures ProjectOwned(old(db.projects), projectId, ctx.auth.value.userId) ==>
      var row := OwnedProject(old(db.projects), projectId, ctx.auth.value.userId).value;
      var updated := UpdatedProject(row, fields, db.clock);
      db.projects == Replace(old(db.projects), ProjectKey, updated) &&
      (forall p :: p in old(db.projects) && p.userId != ctx.auth.value.userId ==> p in db.projects) &&
      ctx.status == 200 && ctx.body == ProjectBody(updated)
  {
    var caller := ctx.auth.value.userId;
    var found := OwnedProject(db.projects, projectId, caller);
    if found.None? {
      ctx.Respond(404, ErrorBody(ProjectNotFound));
      db.Release();
      return;
    }
    var updated := UpdatedProject(found.value, fields, db.clock);
    ReplaceKeepsOthers(db.projects, updated, caller);
    db.UpdateProject(updated);
    ctx.Respond(200, ProjectBody(updated));
    db.Release();
  }

  /** `DELETE /projects/:id`: 404 and no change unless owned; otherwise 204, the row
      goes with its prompts, chats and their messages, and every other user's
      projects stay. */
  method DeleteProject(ctx: Context, db: Database, projectId: Id, unavailable: bool)
    requires ctx.auth.Some? && db.Valid()
    modifies ctx`status, ctx`body, db`projects, db`prompts, db`chats, db`messages, db`held
    ensures db.Valid() && db.held == old(db.held)
    ensures unavailable ==>
      ctx.status == 500 && ctx.body == ErrorBody(InternalError) && db.Snapshot() == old(db.Snapshot())
    ensures !unavailable && !ProjectOwned(old(db.projects), projectId, ctx.auth.value.userId) ==>
      ctx.status == 404 && ctx.body == ErrorBody(ProjectNotFound) && db.Snapshot() == old(db.Snapshot())
    ensures !unavailable && ProjectOwned(old(db.projects), projectId, ctx.auth.value.userId) ==>
      ctx.status == 204 && ctx.body == old(ctx.body) &&
      db.Snapshot() == WithoutProject(old(db.Snapshot()), projectId) &&
      (forall p :: p in old(db.projects) && p.userId != ctx.auth.value.userId ==> p in db.projects)
  {
    if unavailable {
      ctx.Respond(500, ErrorBody(InternalError));
      return;
    }
    db.Connect();
    DeleteProjectOnClient(ctx, db, projectId);
  }

  /** The `DELETE ... RETURNING` of `DELETE /projects/:id` on the checked-out client,
      released by the `finally`. */
  method DeleteProjectOnClient(ctx: Context, db: Database, projectId: Id)
    requires ctx.auth.Some? && db.Valid() && db.held > 0
    modifies ctx`status, ctx`body, db`projects, db`prompts, db`chats, db`messages, db`held
    ensures db.Valid() && db.held == old(db.held) - 1
    ensures !ProjectOwned(old(db.projects), projectId, ctx.auth.value.userId) ==>
      ctx.status == 404 && ctx.body == ErrorBody(ProjectNotFound) && db.Snapshot() == old(db.Snapshot())
    ensures ProjectOwned(old(db.projects), projectId, ctx.auth.value.userId) ==>
      ctx.status == 204 && ctx.body == old(ctx.body) &&
      db.Snapshot() == WithoutProject(old(db.Snapshot()), projectId) &&
      (forall p :: p in old(db.projects) && p.userId != ctx.auth.value.userId ==> p in db.projects)
  {
    var caller := ctx.auth.value.userId;
    var found := OwnedProject(db.projects, projectId, caller);
    if found.None? {
      ctx.Respond(404, ErrorBody(ProjectNotFound));
      db.Release();
      return;
    }
    forall p | p in db.projects && p.userId != caller ensures p.id != projectId {
      if p.id == projectId {
        AscendingUnique(db.projects, ProjectKey, p, found.value);
      }
    }
    db.DeleteProject(projectId);
    ctx.Respond(204, ctx.body);
    db.Release();
  }
}
