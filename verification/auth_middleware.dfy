/** The Node server's `verifyToken` middleware,
    server/src/middleware/authMiddleware.js: a bearer token in the
    Authorization header, verified, with the user it names attached to the
    request before the next handler runs.

    `jwt.verify` is an oracle giving the decoded payload or None when it throws;
    `User.findById` gives the user (null when there is none) or None when the
    lookup rejects. */
module AuthMiddleware {
  import opened Common

  /** What the middleware did: refused with a 401 and a message, or called
      `next` once with `req.user` set. */
  datatype Outcome = Denied(status: int, message: string) | Next(user: Val)

  const AccessDenied := Denied(401, "Access denied")

  const Scheme := "Bearer "

  /** `authHeader.split(" ")[1]`, for a header that starts with the scheme. */
  function TokenOf(header: string): (r: string)
    requires StartsWith(header, Scheme)
    ensures ' ' !in r
  {
    BearerFields(header[|Scheme|..]);
    assert header == "Bearer" + [' '] + header[|Scheme|..];
    Split(header, ' ')[1]
  }

  lemma BearerFields(rest: string)
    ensures |Split("Bearer" + [' '] + rest, ' ')| >= 2
    ensures Split("Bearer" + [' '] + rest, ' ')[1] == Split(rest, ' ')[0]
  {
    SplitPrefixed("Bearer", rest, ' ');
  }

  /** `verifyToken`: no header, an empty one or one without the scheme is
      refused; a token that fails to verify, or a lookup that rejects, is
      refused too; otherwise `next` runs with the user found for the payload's
      `_id`. */
  function VerifyToken(header: Option<string>, verify: string -> Option<Val>,
                       findById: Val -> Option<Val>): (r: Outcome)
    ensures header.None? || !StartsWith(header.value, Scheme) ==> r == AccessDenied
    ensures r.Next? ==>
      && header.Some? && StartsWith(header.value, Scheme)
      && verify(TokenOf(header.value)).Some?
      && Get(verify(TokenOf(header.value)).value, "_id").Ok?
      && findById(Get(verify(TokenOf(header.value)).value, "_id").value) == Some(r.user)
    ensures r.Denied? ==> r == AccessDenied
  {
    match header
    case None => AccessDenied
    case Some(h) =>
      if h == "" || !StartsWith(h, Scheme) then AccessDenied
      else match verify(TokenOf(h))
        case None => AccessDenied
        case Some(decoded) =>
          match Get(decoded, "_id")
          case Err(_) => AccessDenied
          case Ok(id) =>
            match findById(id)
            case None => AccessDenied
            case Some(user) => Next(user)
  }

  // ---------------------------------------------------------------------------
  // Properties

  /** The token is the header's text after the scheme, up to the next space. */
  lemma BearerToken(rest: string)
    ensures TokenOf(Scheme + rest) == BeforeFirst(rest, ' ')
  {
    assert (Scheme + rest)[|Scheme|..] == rest;
    assert Scheme + rest == "Bearer" + [' '] + rest;
    BearerFields(rest);
    SplitFirst(rest, ' ');
  }

  /** A well-formed header whose token verifies to a payload object and whose
      lookup resolves calls `next` with that user, even a null one. */
  lemma AcceptedToken(token: string, claims: map<string, Val>, verify: string -> Option<Val>,
                      findById: Val -> Option<Val>)
    requires ' ' !in token && verify(token) == Some(Obj(claims))
    ensures var id := if "_id" in claims then claims["_id"] else Undefined;
      findById(id).Some? ==> VerifyToken(Some(Scheme + token), verify, findById) == Next(findById(id).value)
    ensures var id := if "_id" in claims then claims["_id"] else Undefined;
      findById(id).None? ==> VerifyToken(Some(Scheme + token), verify, findById) == AccessDenied
  {
    BearerToken(token);
    SplitWithoutSeparator(token, ' ');
    SplitFirst(token, ' ');
    assert TokenOf(Scheme + token) == token;
    assert StartsWith(Scheme + token, Scheme);
  }
}
