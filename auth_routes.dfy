/** Account endpoints (backend/src/routes/auth.ts): register, login and `/me` over
    the users table. Password hashing, password checking and token signing are left
    abstract: the hash `register` stores, and the checker and signer, are parameters. */
module AuthRoutes {
  import opened Common
  import opened Types
  import opened Http
  import opened Db
  import opened Middleware

  const MissingCredentials := "Email and password are required"
  const ShortPassword := "Password must be at least 8 characters"
  const UserExists := "User already exists"
  const InvalidCredentials := "Invalid credentials"
  const MinPasswordLength := 8

  /** The checks `register` runs on its body before touching the store, in that order:
      presence of both fields first, then the password length, which is JavaScript's
      `length` and so counts UTF-16 code units. */
  function RegistrationError(c: Credentials): (r: Option<string>)
    ensures r == Some(MissingCredentials) <==> !Truthy(c.email) || !Truthy(c.password)
    ensures r == Some(ShortPassword) <==>
      Truthy(c.email) && Truthy(c.password) && JsLength(c.password.value) < MinPasswordLength
    ensures r.None? <==>
      Truthy(c.email) && Truthy(c.password) && JsLength(c.password.value) >= MinPasswordLength
  {
    if !Truthy(c.email) || !Truthy(c.password) then Some(MissingCredentials)
    else if JsLength(c.password.value) < MinPasswordLength then Some(ShortPassword)
    else None
  }

  /** Four characters outside the Basic Multilingual Plane are eight UTF-16 code units,
      so they meet the length rule although they are only four characters. */
  lemma AstralPasswordAccepted()
    ensures var password := "\U{1F512}\U{1F512}\U{1F512}\U{1F512}";
      |password| == 4 && RegistrationError(Credentials(Some("a@b"), Some(password))).None?
  {
    var password := "\U{1F512}\U{1F512}\U{1F512}\U{1F512}";
    assert password[..3][..2] == password[..2] && password[..2][..1] == password[..1];
    assert JsLength(password[..1]) == 2;
    assert JsLength(password[..2]) == 4;
    assert JsLength(password[..3]) == 6;
  }

  /** `POST /register`. `passwordHash` is what `hashPassword` made of the password;
      `unavailable` says the store fails (500, nothing written). */
  method Register(ctx: Context, db: Database, body: Option<Credentials>, passwordHash: string,
                  generateToken: AuthPayload -> string, unavailable: bool)
    requires db.Valid()
    modifies ctx`status, ctx`body, db`users, db`clock, db`held
    ensures db.Valid() && db.held == old(db.held)
    ensures body.None? ==>
      ctx.status == 500 && ctx.body == ErrorBody(InternalError) && db.Snapshot() == old(db.Snapshot())
    ensures body.Some? && RegistrationError(body.value).Some? ==>
      ctx.status == 400 && ctx.body == ErrorBody(RegistrationError(body.value).value) &&
      db.Snapshot() == old(db.Snapshot())
    ensures body.Some? && RegistrationError(body.value).None? && unavailable ==>
      ctx.status == 500 && ctx.body == ErrorBody(InternalError) && db.Snapshot() == old(db.Snapshot())
    ensures body.Some? && RegistrationError(body.value).None? && !unavailable &&
            UserByEmail(old(db.users), body.value.email.value).Some? ==>
      ctx.status == 409 && ctx.body == ErrorBody(UserExists) && db.Snapshot() == old(db.Snapshot())
    ensures body.Some? && RegistrationError(body.value).None? && !unavailable &&
            UserByEmail(old(db.users), body.value.email.value).None? ==>
      var email, id := body.value.email.value, old(db.clock);
      db.users == old(db.users) + [User(id, email, passwordHash)] && db.clock == id + 1 &&
      ctx.status == 201 &&
      ctx.body == SessionBody(PublicUser(id, email), generateToken(AuthPayload(id, email)))
  {
    if body.None? {
      ctx.Respond(500, ErrorBody(InternalError));
      return;
    }
    var error := RegistrationError(body.value);
    if error.Some? {
      ctx.Respond(400, ErrorBody(error.value));
      return;
    }
    var email := body.value.email.value;
    if unavailable {
      ctx.Respond(500, ErrorBody(InternalError));
      return;
    }
    db.Connect();
    RegisterOnClient(ctx, db, email, passwordHash, generateToken);
  }

  /** The duplicate check and insert of `POST /register` on the checked-out client,
      released by the `finally`. */
  method RegisterOnClient(ctx: Context, db: Database, email: string, passwordHash: string,
                          generateToken: AuthPayload -> string)
    requires db.Valid() && db.held > 0
    modifies ctx`status, ctx`body, db`users, db`clock, db`held
    ensures db.Valid() && db.held == old(db.held) - 1
    ensures UserByEmail(old(db.users), email).Some? ==>
      ctx.status == 409 && ctx.body == ErrorBody(UserExists) &&
      db.users == old(db.users) && db.clock == old(db.clock)
    ensures UserByEmail(old(db.users), email).None? ==>
      var id := old(db.clock);
      db.users == old(db.users) + [User(id, email, passwordHash)] && db.clock == id + 1 &&
      ctx.status == 201 &&
      ctx.body == SessionBody(PublicUser(id, email), generateToken(AuthPayload(id, email)))
  {
    var existing := UserByEmail(db.users, email);
    if existing.Some? {
      ctx.Respond(409, ErrorBody(UserExists));
      db.Release();
      return;
    }
    var user := db.InsertUser(email, passwordHash);
    var token := generateToken(AuthPayload(user.id, user.email));
    ctx.Respond(201, SessionBody(PublicUser(user.id, user.email), token));
    db.Release();
  }

  /** `POST /login`: only presence is checked (no length rule), and an unknown email and
      a wrong password get the same 401 answer. */
  method Login(ctx: Context, db: Database, body: Option<Credentials>,
               verifyPassword: (string, string) -> bool, generateToken: AuthPayload -> string,
               unavailable: bool)
    modifies ctx`status, ctx`body, db`held
    ensures db.held == old(db.held)
    ensures body.None? ==> ctx.status == 500 && ctx.body == ErrorBody(InternalError)
    ensures body.Some? && (!Truthy(body.value.email) || !Truthy(body.value.password)) ==>
      ctx.status == 400 && ctx.body == ErrorBody(MissingCredentials)
    ensures body.Some? && Truthy(body.value.email) && Truthy(body.value.password) && unavailable ==>
      ctx.status == 500 && ctx.body == ErrorBody(InternalError)
    ensures body.Some? && Truthy(body.value.email) && Truthy(body.value.password) && !unavailable ==>
      var found := UserByEmail(db.users, body.value.email.value);
      if found.None? || !verifyPassword(body.value.password.value, found.value.passwordHash) then
        ctx.status == 401 && ctx.body == ErrorBody(InvalidCredentials)
      else
        var u := found.value;
        ctx.status == 200 &&
        ctx.body == SessionBody(PublicUser(u.id, u.email), generateToken(AuthPayload(u.id, u.email)))
  {
    if body.None? {
      ctx.Respond(500, ErrorBody(InternalError));
      return;
    }
    if !Truthy(body.value.email) || !Truthy(body.value.password) {
      ctx.Respond(400, ErrorBody(MissingCredentials));
      return;
    }
    var email, password := body.value.email.value, body.value.password.value;
    if unavailable {
      ctx.Respond(500, ErrorBody(InternalError));
      return;
    }
    db.Connect();
    var found := UserByEmail(db.users, email);
    if found.None? {
      ctx.Respond(401, ErrorBody(InvalidCredentials));
      db.Release();
      return;
    }
    var user := found.value;
    if !verifyPassword(password, user.passwordHash) {
      ctx.Respond(401, ErrorBody(InvalidCredentials));
      db.Release();
      return;
    }
    var token := generateToken(AuthPayload(user.id, user.email));
    ctx.Respond(200, SessionBody(PublicUser(user.id, user.email), token));
    db.Release();
  }

  /** `GET /me`: the same bearer parsing as the middleware, then a lookup by the
      token's user id. */
  method Me(ctx: Context, db: Database, verifyToken: string -> Option<AuthPayload>, unavailable: bool)
    modifies ctx`status, ctx`body, db`held
    ensures db.held == old(db.held)
    ensures BearerToken(ctx.authorization).None? ==>
      ctx.status == 401 && ctx.body == ErrorBody("Unauthorized")
    ensures BearerToken(ctx.authorization).Some? ==>
      var payload := verifyToken(BearerToken(ctx.authorization).value);
      if payload.None? then
        ctx.status == 401 && ctx.body == ErrorBody("Invalid token")
      else if unavailable then
        ctx.status == 500 && ctx.body == ErrorBody(InternalError)
      else if UserById(db.users, payload.value.userId).None? then
        ctx.status == 404 && ctx.body == ErrorBody("User not found")
      else
        ctx.status == 200 && ctx.body == UserBody(UserById(db.users, payload.value.userId).value)
  {
    var token := BearerToken(ctx.authorization);
    if token.None? {
      ctx.Respond(401, ErrorBody("Unauthorized"));
      return;
    }
    var payload := verifyToken(token.value);
    if payload.None? {
      ctx.Respond(401, ErrorBody("Invalid token"));
      return;
    }
    if unavailable {
      ctx.Respond(500, ErrorBody(InternalError));
      return;
    }
    db.Connect();
    var user := UserById(db.users, payload.value.userId);
    if user.None? {
      ctx.Respond(404, ErrorBody("User not found"));
      db.Release();
      return;
    }
    ctx.Respond(200, UserBody(user.value));
    db.Release();
  }
}
