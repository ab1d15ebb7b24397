/** `_api_response`: how an HTTP reply becomes a payload or an exception.
    The transport itself is not modelled; a reply is its status and, when
    the body parsed as a JSON object, that object. */
module Api {
  import opened Wrappers
  import opened Errors
  import Constants

  /** A parsed JSON object: the value of its `error` key, if any, and the rest. */
  datatype Body<T> = Body(error: Option<string>, payload: T)

  /** A reply: its status, and its body when it parsed (None: `resp.json()` raised). */
  datatype Reply<T> = Reply(status: int, body: Option<Body<T>>)

  function ApiResponse<T>(reply: Reply<T>): (r: Result<Body<T>>)
    ensures reply.status != 200 ==> r == Err(ClientError(BadStatus(reply.status)))
    ensures reply.status == 200 && reply.body.None? ==> r == Err(ClientError(InvalidJson))
    ensures r.Ok? <==> reply.status == 200 && reply.body.Some? && reply.body.value.error.None?
    ensures r.Ok? ==> r.value == reply.body.value
    ensures (r.Err? && r.error.AuthError?) <==>
      reply.status == 200 && reply.body.Some? && reply.body.value.error.Some? &&
      reply.body.value.error.value in Constants.AuthErrorCodes
    ensures r.Err? && r.error.AuthError? ==> r.error.code == reply.body.value.error.value
  {
    if reply.status != 200 then
      Err(ClientError(BadStatus(reply.status)))
    else if reply.body.None? then
      Err(ClientError(InvalidJson))
    else if reply.body.value.error.Some? then
      var code := reply.body.value.error.value;
      if code in Constants.AuthErrorCodes then Err(AuthError(code)) else Err(ClientError(ErrorCode(code)))
    else
      Ok(reply.body.value)
  }

  /** The three ways a reply fails are exclusive, and an `error` key that is
      not an auth code is always a client error carrying that code. */
  lemma UnknownCodeIsClientError<T>(reply: Reply<T>, code: string)
    requires reply.status == 200 && reply.body.Some? && reply.body.value.error == Some(code)
    requires code !in Constants.AuthErrorCodes
    ensures ApiResponse(reply) == Err(ClientError(ErrorCode(code)))
  {
  }
}
