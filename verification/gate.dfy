/** The JSON replies of the server, and the failure modes every handler
    shares. */
module Http {

  /** A reply: the status code and the JSON body, which is either an error
      (`{ error, success: false }`) or a success payload (`success: true`). */
  datatype Response<+T> = Response(status: nat, body: Body<T>)

  datatype Body<+T> = Failed(error: string) | Succeeded(payload: T)

  const InternalError := "Internal server error"

  /** Whether the database calls of a handler complete or throw. A handler
      whose database call throws answers 500 and changes nothing. */
  datatype Db = Healthy | Failing

  function ServerError<T>(): Response<T> {
    Response(500, Failed(InternalError))
  }
}

/** `ensureAuthenticated`: the token check in front of the protected
    routes. */
module Gate {
  import opened Outcomes
  import opened Http

  /** The payload the login handler signs into a token. */
  datatype Claims = Claims(email: string, id: nat)

  const TokenRequired := "Unauthorized, JWT token is required"
  const TokenRejected := "Unauthorized, JWT token wrong or expired"

  /** Either the request goes on to the handler (`next()`) with `req.user`
      set, or it is answered here. */
  datatype Decision = Pass(user: Claims) | Deny(response: Response<()>)

  /** The decision for a request with the given `authorization` header;
      `verify` stands for `jwt.verify` with the server's secret and the
      current time, `None` meaning it throws. */
  function Authenticate(header: Option<string>, verify: string -> Option<Claims>): (d: Decision)
    ensures d.Deny? ==> d.response.status == 403
    ensures header.None? || header == Some("") ==> d == Deny(Response(403, Failed(TokenRequired)))
    ensures header.Some? && header.value != "" ==>
              (d.Pass? <==> verify(header.value).Some?)
    ensures header.Some? && header.value != "" && verify(header.value).None? ==>
              d == Deny(Response(403, Failed(TokenRejected)))
    ensures d.Pass? ==> header.Some? && verify(header.value) == Some(d.user)
  {
    if header.None? || header.value == "" then Deny(Response(403, Failed(TokenRequired)))
    else match verify(header.value)
      case None => Deny(Response(403, Failed(TokenRejected)))
      case Some(claims) => Pass(claims)
  }

  /** Each refusal names its own cause, for every header and verifier:
      "token is required" exactly when the header is missing or empty, and
      "wrong or expired" exactly when a non-empty header fails to verify. */
  lemma RefusalNamesItsCause(header: Option<string>, verify: string -> Option<Claims>)
    ensures Authenticate(header, verify) == Deny(Response(403, Failed(TokenRequired))) <==>
              header.None? || header == Some("")
    ensures Authenticate(header, verify) == Deny(Response(403, Failed(TokenRejected))) <==>
              header.Some? && header.value != "" && verify(header.value).None?
  {
    assert TokenRequired[24] != TokenRejected[24];
  }

  /** A corollary of `Authenticate`'s contract for a prefixed header. The
      header is verified as it stands: a `Bearer ` prefix is not
      removed, so a token that verifies on its own is refused once the
      prefix is added, unless the verifier also accepts the prefixed text. */
  lemma BearerPrefixNotStripped(token: string, verify: string -> Option<Claims>)
    requires verify("Bearer " + token).None?
    ensures Authenticate(Some("Bearer " + token), verify) == Deny(Response(403, Failed(TokenRejected)))
  {
  }
}
