/** Bearer-token authentication in front of every protected route
    (backend/src/middleware/auth.ts). Token verification is a parameter: a partial
    function from token text to the payload it carries. */
module Middleware {
  import opened Common
  import opened Types
  import opened Http

  const BearerPrefix := "Bearer "
  const NoTokenError := "Unauthorized: No token provided"
  const InvalidTokenError := "Unauthorized: Invalid token"

  /** The token of an `Authorization` header: present only when the header exists and
      starts, case-sensitively, with "Bearer "; it is the header without those seven
      characters. A missing or empty header has no token. */
  function BearerToken(header: Option<string>): (token: Option<string>)
    ensures token.Some? <==> header.Some? && StartsWith(header.value, BearerPrefix)
    ensures token.Some? ==> header.value == BearerPrefix + token.value
  {
    if header.Some? && StartsWith(header.value, BearerPrefix) then Some(header.value[7..]) else None
  }

  /** Parsing gives back exactly the token a client put behind the prefix. */
  lemma BearerTokenRoundTrip(token: string)
    ensures BearerToken(Some(BearerPrefix + token)) == Some(token)
  {
    assert (BearerPrefix + token)[..7] == BearerPrefix;
    assert (BearerPrefix + token)[7..] == token;
  }

  /** `authMiddleware`: rejects with 401 unless the header carries a token that
      verifies; otherwise sets `ctx.state.auth` and then calls `next` once. */
  method AuthMiddleware(ctx: Context, verifyToken: string -> Option<AuthPayload>)
    modifies ctx`status, ctx`body, ctx`auth, ctx`nextCalls
    ensures BearerToken(ctx.authorization).None? ==>
      ctx.status == 401 && ctx.body == ErrorBody(NoTokenError) &&
      ctx.auth == old(ctx.auth) && ctx.nextCalls == old(ctx.nextCalls)
    ensures BearerToken(ctx.authorization).Some? && verifyToken(BearerToken(ctx.authorization).value).None? ==>
      ctx.status == 401 && ctx.body == ErrorBody(InvalidTokenError) &&
      ctx.auth == old(ctx.auth) && ctx.nextCalls == old(ctx.nextCalls)
    ensures BearerToken(ctx.authorization).Some? && verifyToken(BearerToken(ctx.authorization).value).Some? ==>
      var payload := verifyToken(BearerToken(ctx.authorization).value);
      ctx.auth == payload && ctx.nextCalls == old(ctx.nextCalls) + [payload] &&
      ctx.status == old(ctx.status) && ctx.body == old(ctx.body)
  {
    var token := BearerToken(ctx.authorization);
    if token.None? {
      ctx.Respond(401, ErrorBody(NoTokenError));
      return;
    }
    var payload := verifyToken(token.value);
    if payload.None? {
      ctx.Respond(401, ErrorBody(InvalidTokenError));
      return;
    }
    ctx.auth := payload;
    ctx.Next();
  }
}
