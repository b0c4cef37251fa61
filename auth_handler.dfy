/** The decision of `AuthHandler.GenerateToken`: an ordered chain of checks on
    the decoded request, then one call to the token generator. The generator
    is a function parameter (user id and lifetime in seconds to a token or an
    error); a reply that does not depend on it was decided before any token
    was generated. */
module AuthHandler {
  import opened Errors
  import opened HttpStatus

  /** The only password the demo accepts. */
  const DemoPassword: string := "demo-password-123"

  /** `time.Hour`, in seconds. */
  const TokenLifetime: int := 3600

  datatype TokenRequest = TokenRequest(userId: string, password: string)

  /** A status with the token, when one is sent. */
  datatype TokenReply = TokenReply(status: int, token: Option<string>)

  /** `GenerateToken`; `body` is `None` when it does not decode. */
  function GenerateToken(body: Option<TokenRequest>, generate: (string, int) -> Result<string>): (r: TokenReply)
    ensures r.token.Some? <==> r.status == OK
    ensures body.None? ==> r.status == BadRequest
    ensures body.Some? && |body.value.userId| == 0 ==> r.status == BadRequest
    ensures body.Some? && |body.value.userId| > 0 && |body.value.password| == 0 ==> r.status == BadRequest
    ensures (&& body.Some? && |body.value.userId| > 0 && |body.value.password| > 0
             && body.value.password != DemoPassword) ==> r.status == Unauthorized
    ensures r.status == OK <==>
      && body.Some? && |body.value.userId| > 0 && body.value.password == DemoPassword
      && generate(body.value.userId, TokenLifetime).Success?
    ensures r.status == OK ==> r.token == Some(generate(body.value.userId, TokenLifetime).value)
    ensures r.status == InternalServerError <==>
      && body.Some? && |body.value.userId| > 0 && body.value.password == DemoPassword
      && generate(body.value.userId, TokenLifetime).Failure?
  {
    if body.None? then TokenReply(BadRequest, None)
    else
      var req := body.value;
      if |req.userId| == 0 then TokenReply(BadRequest, None)
      else if |req.password| == 0 then TokenReply(BadRequest, None)
      else if req.password != DemoPassword then TokenReply(Unauthorized, None)
      else
        var token := generate(req.userId, TokenLifetime);
        if token.Failure? then TokenReply(InternalServerError, None)
        else TokenReply(OK, Some(token.value))
  }

  /** Requests rejected with 400 or 401 get the same reply whatever the
      generator would do: no token is generated for them. */
  lemma RejectedBeforeGenerating(body: Option<TokenRequest>,
                                 g1: (string, int) -> Result<string>, g2: (string, int) -> Result<string>)
    requires GenerateToken(body, g1).status in {BadRequest, Unauthorized}
    ensures GenerateToken(body, g1) == GenerateToken(body, g2)
  {
  }

  /** A request that sends a user id but no password is a bad request, never
      an authorised one. */
  lemma MissingPasswordRejected(userId: string, generate: (string, int) -> Result<string>)
    ensures GenerateToken(Some(TokenRequest(userId, "")), generate).status == BadRequest
  {
  }
}
