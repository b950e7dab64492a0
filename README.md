# ory-graphql gateway: the identity-provider orchestration, modelled in Dafny

The gateway exposes a GraphQL API (`me`, `registerUser`, `login`) and
answers each operation by calling Ory Kratos, the identity provider: a
whoami lookup for `me`, an administrative identity creation for
`registerUser`, and the two-step self-service login flow (initiate a flow,
then submit credentials against it) for `login`. This project models the
decision logic of `server.py` that maps the provider's replies to API
results.

The network is abstracted away. Every provider reply is an input value
(`Kratos.Reply`): a received response with status code, decoded JSON body
(absent when the body is not JSON) and raw text, or an exception raised by
the HTTP client. Every resolver returns its result together with the list
of provider calls it made (`Server.Traced`), so the order of the login
handshake and the exact requests sent can be stated and proved.

Files:

- `python.dfy` (module `Python`): decoded JSON values, Python truthiness,
  strict subscripting chains (`j["a"]["b"]`) and lenient `.get(k) or default`
  chains, with the inductive lemmas that relate the two kinds of chain.
- `kratos.dfy` (module `Kratos`): provider replies, calls and the
  exceptions a resolver can let escape (`Fault`).
- `server.dfy` (module `Server`): `get_kratos_session`, `resolve_me`,
  `resolve_register_user` and `resolve_login`, with the payloads they send.
- `properties.dfy` (module `ServerProperties`): properties spanning several
  calls or operations: submission only after a granted flow, the flow gate,
  rejection on a non-200 submission, the registration payload's exact
  shape, and agreement between the email `login` reports and the one `me`
  reports.

Behaviour of the code worth knowing, which the model keeps:

- `me` does not short-circuit on an absent session token: whoami is called
  anyway, with the header left out (`Whoami(None)` in the trace).
- `me` lets three things escape: an exception from the HTTP client, a 200
  body that is not JSON, and a truthy 200 body without
  `identity.traits.email` (KeyError or TypeError).
  These are `Err` results of `Server.ResolveMe`.
- A failed flow initiation, missing flow id, rejected submission and missing
  token are raised exceptions in the code; they are `Err` results carrying a
  `Fault` here. Each raise site has its own `Fault` constructor; the
  model does not group them into broader error categories.
- The email in a login reply is read with `.get(...) or {}` at every level,
  so a level that is missing or falsy yields `""`, but a level that is a
  truthy non-dict (a string, a list, a number) raises AttributeError, and
  this happens before the token is checked.
- The code never checks that the session token, flow id or email are
  strings; the model keeps them as JSON values.

## Model

| member | source | states |
|---|---|---|
| `Python.GetOrPath` | server.py:92-95 | the chained `.get(k) or {}` email lookup yields the default or a truthy value, and its only exception is AttributeError |
| `Python.GetOrPathFromEmpty` | server.py:92-95 | once a level has fallen back to `{}`, the rest of the chain yields the default |
| `Python.GetOrPathFindsPresentValue` | server.py:92-95 | when every level is present and the final value is truthy, the lenient chain returns what strict subscripting returns |
| `Python.GetOrPathNonDefaultIsPresent` | server.py:92-95 | a lenient result other than the default was reached through present levels, so strict subscripting reaches the same value |
| `Python.GetOrPathRaisesOnlyIfSubscriptRaises` | server.py:92-95 | the lenient chain raises only where strict subscripting of the same path raises too |
| `Server.GetKratosSession` | server.py:21-26 | exactly one whoami call carrying the token; a non-200 status yields None, a 200 with a JSON body yields that body, a client exception and an undecodable 200 body each escape, and nothing else does |
| `Server.ResolveMe` | server.py:35-41 | "Unauthorized" whenever the status is not 200 or the 200 body is falsy; any other answer is the value at `identity.traits.email` of a 200 body, and that value is returned whenever present; a client exception, an undecodable 200 body and a truthy 200 body without that path each raise their own fault, and nothing else raises |
| `Server.RegistrationPayload` | server.py:49-53 | the payload has exactly the keys `schema_id`, `traits`, `credentials`; `schema_id` is "default", `traits` holds only `email`, `credentials.password.config` holds only `password`, with the caller's values |
| `Server.ResolveRegisterUser` | server.py:46-59 | one identity-creation call with that payload; the success message naming the email is returned exactly when the status is 200 or 201, otherwise "Registration failed: " followed by the response text or the exception's text; it never raises |
| `Server.FailureIsNotSuccess` | server.py:55-59 | no failure message can equal the success message, whatever the detail and email |
| `Server.SubmitPayload` | server.py:76-80 | the submitted credentials are exactly `method = "password"` and the caller's identifier and password, unchanged |
| `Server.InitFlow` | server.py:65-71 | a flow id is granted exactly when the status is 200 and the body is a dict with a truthy `id`, which is the id returned; a non-200 status fails with the response text; a dict body without a truthy id fails with "flow id missing"; a client exception, an undecodable 200 body and a non-dict 200 body each raise their own fault |
| `Server.FinishLogin` | server.py:83-100 | a non-200 submission status fails with "Invalid credentials" and the decoded body or `{"raw": text}`; success requires a 200 reply with a truthy `session_token`, which is the token returned; a client exception, an undecodable or non-dict 200 body and a truthy non-dict level on the email path each raise their own fault; otherwise a 200 dict without a truthy token fails with "No session token returned", and one with a truthy token succeeds with that token and the leniently read email, which is "" when a level is missing or falsy and otherwise the value at `session.identity.traits.email` |
| `Server.SessionEmailAgreesWithSubscript` | server.py:92-95 | login's lenient email lookup agrees with strict subscripting of `session.identity.traits.email` in both directions |
| `Server.ResolveLogin` | server.py:62-100 | the trace starts with the flow initiation and has a submission exactly when a flow id was granted; the submission targets that id with the caller's credentials; without a flow the result is the initiation failure |
| `ServerProperties.SubmitOnlyAfterFlowGranted` | server.py:65-81 | in every login trace a submission appears only right after a flow initiation that granted an id, and targets that id |
| `ServerProperties.LoginStopsAtFlowGate` | server.py:66-71 | a non-200 initiation status or a missing or falsy flow id ends login with that failure and a trace holding the initiation call alone |
| `ServerProperties.RejectedSubmitIsInvalidCredentials` | server.py:83-88 | after a granted flow, any submission status other than 200 fails with "Invalid credentials", whatever the body, with the decoded body or `{"raw": text}` as details |
| `ServerProperties.LoginEmailIsWhatMeReports` | server.py:90-100 | a non-empty email reported by a successful login is exactly what `me` answers for the session object carried by the same reply |
| `ServerProperties.RegistrationPayloadIsItsShape` | server.py:49-53 | any JSON value with the registration payload's shape is the payload built from its email and password: nothing else is sent |
| `ServerProperties.RegistrationPayloadInjective` | server.py:49-54 | the payload carries the email and password unchanged: different credentials give different payloads |
| `ServerProperties.LoginSuccessExample` | server.py:90-100 | a 200 submission with token "abc" and email "a@b.com" logs in with exactly those |
| `ServerProperties.LoginWithoutTokenExample` | server.py:97-98 | a 200 submission without `session_token` fails with "No session token returned" even though an email is present |

## Left out

- The Flask application, the `/graphql` route, the explorer page, schema loading and GraphQL execution (server.py:1-15, 103-117): framework plumbing with no decisions.
- `resolve_hello`: it returns a constant string.
- The HTTP calls themselves and `resp.json()`: each reply is an input, and the decoded body and the raw text are independent inputs, so the model does not tie the body to the text it was parsed from.
- The provider base URLs and the URL strings built from them; a call records its endpoint by its `Call` constructor and the flow id and payload it carries.
- The exact text of the raised exceptions (`str(exc)`, and the `repr` of the rejection details): each raise site is a `Fault` constructor carrying its detail value. The registration failure message keeps its text, with the exception's `str` as an input.
- JSON numbers are modelled as reals: integers and finite floats; the non-standard `NaN` and `Infinity` that Python's decoder accepts are not modelled.
- The GraphQL layer's coercion of the resolvers' return values to `String` (for instance a non-string email or token) is not part of this model.
