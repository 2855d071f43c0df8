/** The slice of an Express request/response pair the middleware touch: the
    authenticated user attached to the request, the error replies written
    with the helpers of src/utils/response.ts, and the calls to `next`. */
module Http {
  import opened Prelude

  /** `req.user` as the authentication middleware sets it. */
  datatype ReqUser = ReqUser(id: string, email: string, role: Option<string>)

  /** An error body as `sendError` writes it; the timestamp is not modelled. */
  datatype Reply = Reply(statusCode: int, error: string, message: string)

  function Unauthorized(message: string): Reply
  {
    Reply(401, "UNAUTHORIZED", message)
  }

  function BadRequest(message: string): Reply
  {
    Reply(400, "BAD_REQUEST", message)
  }

  function InternalError(message: string): Reply
  {
    Reply(500, "INTERNAL_ERROR", message)
  }

  /** One request passing through a middleware. */
  class Exchange {
    var user: Option<ReqUser>
    var replies: seq<Reply>
    var nextCalls: nat

    constructor(user: Option<ReqUser>)
      ensures this.user == user && replies == [] && nextCalls == 0
    {
      this.user := user;
      replies := [];
      nextCalls := 0;
    }

    /** `res.status(code).json(body)` */
    method Send(reply: Reply)
      modifies this
      ensures replies == old(replies) + [reply]
      ensures user == old(user) && nextCalls == old(nextCalls)
    {
      replies := replies + [reply];
    }

    /** `next()` */
    method Next()
      modifies this
      ensures nextCalls == old(nextCalls) + 1
      ensures user == old(user) && replies == old(replies)
    {
      nextCalls := nextCalls + 1;
    }

    /** `req.user = u` */
    method SetUser(u: ReqUser)
      modifies this
      ensures user == Some(u)
      ensures replies == old(replies) && nextCalls == old(nextCalls)
    {
      user := Some(u);
    }
  }
}
