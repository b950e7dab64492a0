/**
 * The boundary between the gateway and the identity provider (Ory Kratos).
 * Every HTTP exchange is an input value here: the gateway's side of it is a
 * `Call`, the provider's side a `Reply`. Failures the resolvers can raise are
 * a `Fault`.
 */
module Kratos {
  import opened Python

  /**
   * A reply received from the provider: its status code, its body as
   * `resp.json()` decodes it (`None` when `resp.json()` raises because the
   * body is not JSON) and its body as `resp.text`.
   */
  datatype Response = Response(status: int, body: Option<Json>, text: string)

  /** What one `requests` call produced: a reply, or the exception it raised (with its `str`). */
  datatype Reply =
    | Received(response: Response)
    | TransportError(description: string)

  /** One outbound request to the provider, with everything it carries. */
  datatype Call =
    | Whoami(sessionToken: Option<string>)   // GET /sessions/whoami, header X-Session-Token (left out when None)
    | CreateIdentity(payload: Json)           // POST /admin/identities
    | InitLoginFlow                           // GET /self-service/login/api
    | SubmitLogin(flow: Json, payload: Json)  // POST /self-service/login?flow=<flow>

  /** The exceptions a resolver can let escape. */
  datatype Fault =
    | Transport(description: string)  // raised by `requests` itself
    | BodyNotJson                     // `resp.json()` on a body that is not JSON
    | Raised(error: PyError)          // a lookup on the decoded body failed
    | FlowInitFailed(text: string)    // "Failed to init login flow: <text>"
    | FlowIdMissing                   // "Login flow id missing"
    | InvalidCredentials(details: Json) // "Invalid credentials: <details>"
    | NoSessionToken                  // "No session token returned"

  /** The reply is a received response with this status code. */
  predicate HasStatus(reply: Reply, code: int) {
    reply.Received? && reply.response.status == code
  }

  /** The decoded body of a received reply, if it is JSON. */
  function Body(reply: Reply): Option<Json> {
    match reply
    case Received(resp) => resp.body
    case TransportError(_) => None
  }

  /** `resp.json()`: the decoded body, or the exception it raises. */
  function DecodeJson(resp: Response): Result<Json, Fault> {
    match resp.body
    case Some(b) => Ok(b)
    case None => Err(BodyNotJson)
  }
}
