/**
 * What the `threat-detection` and `privacy-manager` edge functions share before
 * they look at the action: the Authorization header check, the token lookup and
 * the parsing of the JSON body, and the shape of their responses.
 */
module Edge {
  import opened Js
  import opened Schema

  /** The `error` member of a failure response. */
  datatype ErrorText = Text(text: string) | StoreMessage(cause: StoreError)

  /** A JSON response: a 200 with a body, or a status code with an error. */
  datatype Response<B> = Reply(body: B) | Fail(status: int, error: ErrorText)

  /** The outcome of the checks that precede the action switch. */
  datatype Gate =
    | Denied(status: int, reason: string)  // answered with `{error: reason}` and that status
    | Crashed                              // an exception, answered by the catch-all 500
    | Admitted(user: UserId, body: Json)   // the caller and the request body, which is not null

  const InternalError: ErrorText := Text("Internal server error")

  /** `authHeader.replace('Bearer ', '')`: the header with its first "Bearer " removed. */
  function BearerToken(header: string): string {
    ReplaceFirst(header, "Bearer ", "")
  }

  /** A header of the form "Bearer <token>" yields exactly the token. */
  lemma BearerTokenOfScheme(token: string)
    ensures BearerToken("Bearer " + token) == token
  {
    assert ("Bearer " + token)[..7] == "Bearer ";
  }

  /**
   * The checks in order: a missing or empty Authorization header, then a token the
   * identity provider does not resolve, then a body that is not JSON or is `null`
   * (destructuring it throws). Tokens are resolved through the partial map `tokens`.
   */
  function CheckGate(authorization: Option<string>, tokens: map<string, UserId>, body: Option<Json>): (g: Gate)
    ensures (authorization.None? || authorization == Some("")) <==> g == Denied(401, "Unauthorized")
    ensures g == Denied(401, "Invalid token") <==>
      authorization.Some? && authorization.value != "" && BearerToken(authorization.value) !in tokens
    ensures g.Crashed? <==>
      authorization.Some? && authorization.value != "" && BearerToken(authorization.value) in tokens
      && (body.None? || body == Some(JNull))
    ensures g.Admitted? ==>
      && authorization.Some?
      && BearerToken(authorization.value) in tokens
      && g.user == tokens[BearerToken(authorization.value)]
      && body == Some(g.body)
      && g.body != JNull
  {
    if authorization.None? || authorization.value == "" then Denied(401, "Unauthorized")
    else
      var token := BearerToken(authorization.value);
      if token !in tokens then Denied(401, "Invalid token")
      else if body.None? || body.value == JNull then Crashed
      else Admitted(tokens[token], body.value)
  }

  /** The response a request that does not pass the gate receives. */
  function GateResponse<B>(g: Gate): Response<B>
    requires !g.Admitted?
  {
    if g.Denied? then Fail(g.status, Text(g.reason)) else Fail(500, InternalError)
  }

  /**
   * A request the gate stops is answered 401 "Unauthorized" without a usable header,
   * 401 "Invalid token" for an unknown token, and 500 when the body is missing or null.
   */
  lemma GateRejections<B>(authorization: Option<string>, tokens: map<string, UserId>, body: Option<Json>)
    ensures var g := CheckGate(authorization, tokens, body);
      !g.Admitted? ==>
        var r: Response<B> := GateResponse(g);
        && r.Fail?
        && (r.status == 401 <==> authorization.None? || authorization.value == "" || BearerToken(authorization.value) !in tokens)
        && (r.status == 401 ==> r.error in {Text("Unauthorized"), Text("Invalid token")})
        && (r.status != 401 ==> r == Fail(500, InternalError) && (body.None? || body == Some(JNull)))
  {
  }
}
