/**
 * `protect`: the session gate in front of every protected route. A request
 * without a token cookie, or whose token does not verify, is answered 401;
 * otherwise the decoded payload becomes `req.user` and `next` runs.
 */
module AuthMiddleware {
  import opened Wrappers
  import opened JsText
  import opened Store

  /** The payload signed into a session token: the user's id. */
  datatype TokenPayload = TokenPayload(id: UserId)

  /** `jwt.verify(token, secret)`: the payload, or a thrown error (bad signature, expired, malformed). */
  datatype VerifyOutcome = Verified(payload: TokenPayload) | VerifyFailed

  datatype Decision = Reject(message: string) | Admit(payload: TokenPayload)

  /** The 401 reply `protect` sends. */
  datatype Unauthorized = Unauthorized(status: nat, message: string)

  /**
   * The decision on a request's `token` cookie; `verify` is what verification
   * gives for that token and is consulted only when a token is there.
   */
  function Decide(token: Option<string>, verify: VerifyOutcome): (d: Decision)
    ensures d.Admit? <==> Truthy(token) && verify.Verified?
    ensures d.Admit? ==> d.payload == verify.payload
    ensures !Truthy(token) ==> d == Reject("Unauthorized user")
    ensures Truthy(token) && verify.VerifyFailed? ==> d == Reject("Invalid token")
  {
    if !Truthy(token) then Reject("Unauthorized user")
    else match verify
      case VerifyFailed => Reject("Invalid token")
      case Verified(payload) => Admit(payload)
  }

  /** A missing token is refused whatever verification would have said. */
  lemma MissingTokenIgnoresVerify(v1: VerifyOutcome, v2: VerifyOutcome)
    ensures Decide(None, v1) == Decide(None, v2) == Reject("Unauthorized user")
    ensures Decide(Some(""), v1) == Reject("Unauthorized user")
  {
  }

  /** The part of an Express request the middleware reads and writes. */
  class Request {
    const token: Option<string>
    var user: Option<TokenPayload>

    constructor (token: Option<string>)
      ensures this.token == token && user == None
    {
      this.token := token;
      user := None;
    }
  }

  /**
   * `protect(req, res, next)`: on every path exactly one of "answer 401" and
   * "call next once" happens; `req.user` is written only on the second.
   */
  method Protect(req: Request, verify: VerifyOutcome) returns (reply: Option<Unauthorized>, nextCalls: nat)
    modifies req`user
    ensures reply.Some? <==> nextCalls == 0
    ensures nextCalls <= 1
    ensures !Truthy(req.token) ==> reply == Some(Unauthorized(401, "Unauthorized user")) && req.user == old(req.user)
    ensures Truthy(req.token) && verify.VerifyFailed? ==> reply == Some(Unauthorized(401, "Invalid token")) && req.user == old(req.user)
    ensures nextCalls == 1 <==> Truthy(req.token) && verify.Verified?
    ensures nextCalls == 1 ==> req.user == Some(verify.payload)
  {
    match Decide(req.token, verify) {
      case Reject(message) =>
        reply, nextCalls := Some(Unauthorized(401, message)), 0;
      case Admit(payload) =>
        req.user := Some(payload);
        reply, nextCalls := None, 1;
    }
  }
}
