/** Prompt endpoints (backend/src/routes/prompts.ts): prompts live under a project, and
    every endpoint first makes sure the caller owns that project. */
module Prompts {
  import opened Common
  import opened Types
  import opened Http
  import opened Db
  import Projects

  const PromptNotFound := "Prompt not found"
  const FieldsRequired := "Name and content are required"

  /** The row `PUT .../prompts/:id` writes: name and content by COALESCE, the
      project and id kept, `updated_at = NOW()`. */
  function UpdatedPrompt(row: Prompt, f: PromptFields, now: nat): (r: Prompt)
    ensures r.id == row.id && r.projectId == row.projectId && r.updatedAt == now
    ensures f.name.Some? ==> r.name == f.name.value
    ensures f.name.None? ==> r.name == row.name
    ensures f.content.Some? ==> r.content == f.content.value
    ensures f.content.None? ==> r.content == row.content
  {
    row.(name := Coalesce(f.name, row.name), content := Coalesce(f.content, row.content), updatedAt := now)
  }

  /** An update with no fields only moves `updated_at`. */
  lemma EmptyUpdateTouchesOnly(row: Prompt, now: nat)
    ensures UpdatedPrompt(row, PromptFields(None, None), now) == row.(updatedAt := now)
  {
  }

  /** Replacing the row of one prompt keeps every prompt of every other project. */
  lemma ReplaceKeepsOthers(qs: seq<Prompt>, row: Prompt)
    requires Ascending(qs, PromptKey)
    requires exists q :: q in qs && q.id == row.id && q.projectId == row.projectId
    ensures forall q :: q in qs && q.projectId != row.projectId ==> q in Replace(qs, PromptKey, row)
  {
    var r := Replace(qs, PromptKey, row);
    var mine :| mine in qs && mine.id == row.id && mine.projectId == row.projectId;
    forall q | q in qs && q.projectId != row.projectId ensures q in r {
      var i :| 0 <= i < |qs| && qs[i] == q;
      if q.id == row.id {
        AscendingUnique(qs, PromptKey, q, mine);
      }
      assert r[i] == q;
    }
  }

  /** `GET /projects/:projectId/prompts`: 404 unless the caller owns the project;
      otherwise its prompts, newest first. */
  method ListPrompts(ctx: Context, db: Database, projectId: Id, unavailable: bool)
    requires ctx.auth.Some? && db.Valid()
    modifies ctx`status, ctx`body, db`held
    ensures db.held == old(db.held)
    ensures unavailable ==> ctx.status == 500 && ctx.body == ErrorBody(InternalError)
    ensures !unavailable && !ProjectOwned(db.projects, projectId, ctx.auth.value.userId) ==>
      ctx.status == 404 && ctx.body == ErrorBody(Projects.ProjectNotFound)
    ensures !unavailable && ProjectOwned(db.projects, projectId, ctx.auth.value.userId) ==>
      ctx.status == 200 && ctx.body.PromptList? &&
      (forall q :: q in ctx.body.prompts <==> q in db.prompts && q.projectId == projectId) &&
      Descending(ctx.body.prompts, PromptKey)
  {
    if unavailable {
      ctx.Respond(500, ErrorBody(InternalError));
      return;
    }
    var caller := ctx.auth.value.userId;
    db.Connect();
    if OwnedProject(db.projects, projectId, caller).None? {
      ctx.Respond(404, ErrorBody(Projects.ProjectNotFound));
      db.Release();
      return;
    }
    PromptsOfNewestFirst(db.prompts, projectId);
    ctx.Respond(200, PromptList(PromptsOf(db.prompts, projectId)));
    db.Release();
  }

  /** `GET /projects/:projectId/prompts/:id`: one 404 for a missing prompt, a prompt of
      another project and a project of another user alike. */
  method GetPrompt(ctx: Context, db: Database, projectId: Id, promptId: Id, unavailable: bool)
    requires ctx.auth.Some?
    modifies ctx`status, ctx`body, db`held
    ensures db.held == old(db.held)
    ensures unavailable ==> ctx.status == 500 && ctx.body == ErrorBody(InternalError)
    ensures !unavailable && !PromptOwned(db.prompts, db.projects, promptId, projectId, ctx.auth.value.userId) ==>
      ctx.status == 404 && ctx.body == ErrorBody(PromptNotFound)
    ensures !unavailable && PromptOwned(db.prompts, db.projects, promptId, projectId, ctx.auth.value.userId) ==>
      ctx.status == 200 && ctx.body.PromptBody? && ctx.body.prompt in db.prompts &&
      ctx.body.prompt.id == promptId && ctx.body.prompt.projectId == projectId
  {
    if unavailable {
      ctx.Respond(500, ErrorBody(InternalError));
      return;
    }
    db.Connect();
    var found := OwnedPrompt(db.prompts, db.projects, promptId, projectId, ctx.auth.value.userId);
    if found.None? {
      ctx.Respond(404, ErrorBody(PromptNotFound));
      db.Release();
      return;
    }
    ctx.Respond(200, PromptBody(found.value));
    db.Release();
  }

  /** `POST /projects/:projectId/prompts`: the 400 for a missing name or content comes
      before the ownership check; then 404, or one new row in that project. */
  method CreatePrompt(ctx: Context, db: Database, projectId: Id, body: Option<PromptFields>, unavailable: bool)
    requires ctx.auth.Some? && db.Valid()
    modifies ctx`status, ctx`body, db`prompts, db`clock, db`held
    ensures db.Valid() && db.held == old(db.held)
    ensures body.None? ==>
      ctx.status == 500 && ctx.body == ErrorBody(InternalError) && db.Snapshot() == old(db.Snapshot())
    ensures body.Some? && (!Truthy(body.value.name) || !Truthy(body.value.content)) ==>
      ctx.status == 400 && ctx.body == ErrorBody(FieldsRequired) && db.Snapshot() == old(db.Snapshot())
    ensures body.Some? && Truthy(body.value.name) && Truthy(body.value.content) && unavailable ==>
      ctx.status == 500 && ctx.body == ErrorBody(InternalError) && db.Snapshot() == old(db.Snapshot())
    ensures body.Some? && Truthy(body.value.name) && Truthy(body.value.content) && !unavailable &&
            !ProjectOwned(db.projects, projectId, ctx.auth.value.userId) ==>
      ctx.status == 404 && ctx.body == ErrorBody(Projects.ProjectNotFound) && db.Snapshot() == old(db.Snapshot())
    ensures body.Some? && Truthy(body.value.name) && Truthy(body.value.content) && !unavailable &&
            ProjectOwned(db.projects, projectId, ctx.auth.value.userId) ==>
      var row := Prompt(old(db.clock), projectId, body.value.name.value, body.value.content.value, old(db.clock));
      db.prompts == old(db.prompts) + [row] && db.clock == old(db.clock) + 1 &&
      ctx.status == 201 && ctx.body == PromptBody(row)
  {
    if body.None? {
      ctx.Respond(500, ErrorBody(InternalError));
      return;
    }
    var fields := body.value;
    if !Truthy(fields.name) || !Truthy(fields.content) {
      ctx.Respond(400, ErrorBody(FieldsRequired));
      return;
    }
    if unavailable {
      ctx.Respond(500, ErrorBody(InternalError));
      return;
    }
    db.Connect();
    CreatePromptOnClient(ctx, db, projectId, fields.name.value, fields.content.value);
  }

  /** The ownership check and insert of `POST .../prompts` on the checked-out client,
      released by the `finally`. */
  method CreatePromptOnClient(ctx: Context, db: Database, projectId: Id, name: string, content: string)
    requires ctx.auth.Some? && db.Valid() && db.held > 0
    modifies ctx`status, ctx`body, db`prompts, db`clock, db`held
    ensures db.Valid() && db.held == old(db.held) - 1
    ensures !ProjectOwned(db.projects, projectId, ctx.auth.value.userId) ==>
      ctx.status == 404 && ctx.body == ErrorBody(Projects.ProjectNotFound) &&
      db.prompts == old(db.prompts) && db.clock == old(db.clock)
    ensures ProjectOwned(db.projects, projectId, ctx.auth.value.userId) ==>
      var row := Prompt(old(db.clock), projectId, name, content, old(db.clock));
      db.prompts == old(db.prompts) + [row] && db.clock == old(db.clock) + 1 &&
      ctx.status == 201 && ctx.body == PromptBody(row)
  {
    var project := OwnedProject(db.projects, projectId, ctx.auth.value.userId);
    if project.None? {
      ctx.Respond(404, ErrorBody(Projects.ProjectNotFound));
      db.Release();
      return;
    }
    assert projectId in ProjectIds(db.projects) by {
      assert project.value in db.projects;
    }
    var row := db.InsertPrompt(projectId, name, content);
    ctx.Respond(201, PromptBody(row));
    db.Release();
  }

  /** `PUT /projects/:projectId/prompts/:id`: 404 unless the caller owns the prompt;
      otherwise the COALESCE update of that one row, every other project's prompts kept. */
  method UpdatePrompt(ctx: Context, db: Database, projectId: Id, promptId: Id, body: Option<PromptFields>,
                      unavailable: bool)
    requires ctx.auth.Some? && db.Valid()
    modifies ctx`status, ctx`body, db`prompts, db`held
    ensures db.Valid() && db.held == old(db.held)
    ensures body.None? || unavailable ==>
      ctx.status == 500 && ctx.body == ErrorBody(InternalError) && db.prompts == old(db.prompts)
    ensures body.Some? && !unavailable &&
            !PromptOwned(old(db.prompts), db.projects, promptId, projectId, ctx.auth.value.userId) ==>
      ctx.status == 404 && ctx.body == ErrorBody(PromptNotFound) && db.prompts == old(db.prompts)
    ensures body.Some? && !unavailable &&
            PromptOwned(old(db.prompts), db.projects, promptId, projectId, ctx.auth.value.userId) ==>
      var row := OwnedPrompt(old(db.prompts), db.projects, promptId, projectId, ctx.auth.value.userId).value;
      var updated := UpdatedPrompt(row, body.value, db.clock);
      db.prompts == Replace(old(db.prompts), PromptKey, updated) &&
      (forall q :: q in old(db.prompts) && q.projectId != projectId ==> q in db.prompts) &&
      ctx.status == 200 && ctx.body == PromptBody(updated)
  {
    if body.None? || unavailable {
      ctx.Respond(500, ErrorBody(InternalError));
      return;
    }
    db.Connect();
    UpdatePromptOnClient(ctx, db, projectId, promptId, body.value);
  }

  /** The ownership check and `UPDATE` of `PUT .../prompts/:id` on the checked-out
      client, released by the `finally`. */
  method UpdatePromptOnClient(ctx: Context, db: Database, projectId: Id, promptId: Id, fields: PromptFields)
    requires ctx.auth.Some? && db.Valid() && db.held > 0
    modifies ctx`status, ctx`body, db`prompts, db`held
    ensures db.Valid() && db.held == old(db.held) - 1
    ensures !PromptOwned(old(db.prompts), db.projects, promptId, projectId, ctx.auth.value.userId) ==>
      ctx.status == 404 && ctx.body == ErrorBody(PromptNotFound) && db.prompts == old(db.prompts)
    ensures PromptOwned(old(db.prompts), db.projects, promptId, projectId, ctx.auth.value.userId) ==>
      var row := OwnedPrompt(old(db.prompts), db.projects, promptId, projectId, ctx.auth.value.userId).value;
      var updated := UpdatedPrompt(row, fields, db.clock);
      db.prompts == Replace(old(db.prompts), PromptKey, updated) &&
      (forall q :: q in old(db.prompts) && q.projectId != projectId ==> q in db.prompts) &&
      ctx.status == 200 && ctx.body == PromptBody(updated)
  {
    var found := OwnedPrompt(db.prompts, db.projects, promptId, projectId, ctx.auth.value.userId);
    if found.None? {
      ctx.Respond(404, ErrorBody(PromptNotFound));
      db.Release();
      return;
    }
    var updated := UpdatedPrompt(found.value, fields, db.clock);
    assert found.value in db.prompts && found.value.id == updated.id;
    ReplaceKeepsOthers(db.prompts, updated);
    db.UpdatePrompt(updated);
    ctx.Respond(200, PromptBody(updated));
    db.Release();
  }

  /** `DELETE /projects/:projectId/prompts/:id`: 404 and no change unless owned;
      otherwise 204 and exactly that prompt is gone. */
  method DeletePrompt(ctx: Context, db: Database, projectId: Id, promptId: Id, unavailable: bool)
    requires ctx.auth.Some? && db.Valid()
    modifies ctx`status, ctx`body, db`prompts, db`held
    ensures db.Valid() && db.held == old(db.held)
    ensures unavailable ==>
      ctx.status == 500 && ctx.body == ErrorBody(InternalError) && db.prompts == old(db.prompts)
    ensures !unavailable && !PromptOwned(old(db.prompts), db.projects, promptId, projectId, ctx.auth.value.userId) ==>
      ctx.status == 404 && ctx.body == ErrorBody(PromptNotFound) && db.prompts == old(db.prompts)
    ensures !unavailable && PromptOwned(old(db.prompts), db.projects, promptId, projectId, ctx.auth.value.userId) ==>
      ctx.status == 204 && ctx.body == old(ctx.body) &&
      (forall q :: q in db.prompts <==> q in old(db.prompts) && q.id != promptId)
  {
    if unavailable {
      ctx.Respond(500, ErrorBody(InternalError));
      return;
    }
    db.Connect();
    DeletePromptOnClient(ctx, db, projectId, promptId);
  }

  /** The `DELETE ... USING projects ... RETURNING` of `DELETE .../prompts/:id` on the
      checked-out client, released by the `finally`. */
  method DeletePromptOnClient(ctx: Context, db: Database, projectId: Id, promptId: Id)
    requires ctx.auth.Some? && db.Valid() && db.held > 0
    modifies ctx`status, ctx`body, db`prompts, db`held
    ensures db.Valid() && db.held == old(db.held) - 1
    ensures !PromptOwned(old(db.prompts), db.projects, promptId, projectId, ctx.auth.value.userId) ==>
      ctx.status == 404 && ctx.body == ErrorBody(PromptNotFound) && db.prompts == old(db.prompts)
    ensures PromptOwned(old(db.prompts), db.projects, promptId, projectId, ctx.auth.value.userId) ==>
      ctx.status == 204 && ctx.body == old(ctx.body) &&
      (forall q :: q in db.prompts <==> q in old(db.prompts) && q.id != promptId)
  {
    var found := OwnedPrompt(db.prompts, db.projects, promptId, projectId, ctx.auth.value.userId);
    if found.None? {
      ctx.Respond(404, ErrorBody(PromptNotFound));
      db.Release();
      return;
    }
    db.DeletePrompt(promptId);
    ctx.Respond(204, ctx.body);
    db.Release();
  }
}
