/** The request-handling layer of the Cloud Functions Express app: five
    route handlers, the ordered exact-match dispatcher over them, the 404
    fall-through and the 500 error responder.  Every handler writes exactly
    one `res.status(...).json(...)`, so each is a function from the request
    to the response it sends. */
module Api {

  import opened Wrappers
  import opened Json
  import EmailPattern

  /** The parts of an Express request the app reads. */
  datatype Request = Request(
    verb: string,             // req.method, e.g. "GET"
    path: string,             // req.path: the URL path without its query string
    queryId: Option<string>,  // req.query.id
    body: Body)               // req.body as parsed by express.json()

  /** The three fields `POST /submitData` destructures from `req.body`. */
  datatype Body = Body(name: Option<string>, email: Option<string>, message: Option<string>)

  /** What the handlers read from outside the request: the results of the
      first and the second `new Date().toISOString()` of a handler,
      `process.uptime()` and the token `Math.random().toString(36).substring(2, 15)`. */
  datatype Env = Env(now: string, later: string, uptime: real, token: string)

  /** `res.status(status).json(body)`. */
  datatype Response = Response(status: int, body: Value)

  /** JavaScript truthiness of a string-valued field: `undefined` and `""`
      are falsy, every other string is truthy. */
  predicate Truthy(v: Option<string>)
  {
    v.Some? && v.value != ""
  }

  // ---------------------------------------------------------------------
  // Routes and the dispatcher

  datatype Endpoint = Hello | GetUser | GetData | SubmitData | Health

  /** One `app.get(path, ...)` or `app.post(path, ...)` registration. */
  datatype Route = Route(verb: string, path: string, endpoint: Endpoint)

  /** The routes in the order the app registers them. */
  const Routes: seq<Route> := [
    Route("GET", "/hello", Hello),
    Route("GET", "/getUser", GetUser),
    Route("GET", "/getData", GetData),
    Route("POST", "/submitData", SubmitData),
    Route("GET", "/health", Health)
  ]

  /** The directory of endpoints listed by the 404 response. */
  const EndpointDirectory: seq<string> := [
    "GET /hello",
    "GET /getUser?id=123",
    "GET /getData",
    "POST /submitData",
    "GET /health"
  ]

  /** The directory as the JSON array the 404 response carries. */
  const EndpointList: Value := Arr([
    Str(EndpointDirectory[0]), Str(EndpointDirectory[1]), Str(EndpointDirectory[2]),
    Str(EndpointDirectory[3]), Str(EndpointDirectory[4])
  ])

  /** A route handles a request when its method and its path equal the
      request's exactly. */
  predicate Matches(route: Route, verb: string, path: string)
  {
    route.verb == verb && route.path == path
  }

  /** Some registered route handles `verb path`. */
  predicate Registered(verb: string, path: string)
  {
    exists i :: 0 <= i < |Routes| && Matches(Routes[i], verb, path)
  }

  /** The index of the first route in `routes` that matches, Express's
      in-order search of the routing stack. */
  function FindRoute(routes: seq<Route>, verb: string, path: string): (r: Option<nat>)
    ensures r.Some? ==> r.value < |routes| && Matches(routes[r.value], verb, path)
    ensures r.Some? ==> forall j :: 0 <= j < r.value ==> !Matches(routes[j], verb, path)
    ensures r.None? <==> forall j :: 0 <= j < |routes| ==> !Matches(routes[j], verb, path)
  {
    if |routes| == 0 then None
    else if Matches(routes[0], verb, path) then Some(0)
    else match FindRoute(routes[1..], verb, path)
      case None => None
      case Some(i) => Some(i + 1)
  }

  // ---------------------------------------------------------------------
  // Handlers

  /** GET /hello */
  function HelloResponse(env: Env): (r: Response)
    ensures r.status == 200
    ensures Keys(r.body) == {Message, Timestamp, Environment, Version}
    ensures Field(r.body, Message) == Some(Str("Hello from Firebase Cloud Functions!"))
    ensures Field(r.body, Timestamp) == Some(Str(env.now))
  {
    Response(200, Obj(map[
      Message := Str("Hello from Firebase Cloud Functions!"),
      Timestamp := Str(env.now),
      Environment := Str("production"),
      Version := Str("1.0.0")
    ]))
  }

  /** The mock user whose id is the one the caller supplied. */
  function MockUser(id: string): Value
  {
    Obj(map[
      Id := Str(id),
      Name := Str("John Doe"),
      Email := Str("john.doe@example.com"),
      Role := Str("Developer"),
      JoinedDate := Str("2024-01-15"),
      IsActive := Bool(true)
    ])
  }

  /** The mock user has exactly the six members of the profile. */
  lemma MockUserKeys(id: string)
    ensures Keys(MockUser(id)) == {Id, Name, Email, Role, JoinedDate, IsActive}
  {
  }

  /** The mock user echoes the id and carries the fixed profile. */
  lemma MockUserFields(id: string)
    ensures Field(MockUser(id), Id) == Some(Str(id))
    ensures Field(MockUser(id), Name) == Some(Str("John Doe"))
    ensures Field(MockUser(id), Email) == Some(Str("john.doe@example.com"))
    ensures Field(MockUser(id), Role) == Some(Str("Developer"))
    ensures Field(MockUser(id), JoinedDate) == Some(Str("2024-01-15"))
    ensures Field(MockUser(id), IsActive) == Some(Bool(true))
  {
  }

  /** GET /getUser: 400 without a usable id, otherwise the mock user. */
  function GetUserResponse(id: Option<string>, env: Env): (r: Response)
    ensures r.status == 200 || r.status == 400
    ensures r.status == 400 <==> !Truthy(id)
    ensures r.status == 400 ==>
      && Keys(r.body) == {Error, Message}
      && Field(r.body, Error) == Some(Str("User ID is required"))
    ensures r.status == 200 ==>
      && Keys(r.body) == {Message, Data, Timestamp}
      && Field(r.body, Message) == Some(Str("User fetched successfully"))
      && Field(r.body, Data) == Some(MockUser(id.value))
  {
    if !Truthy(id) then
      Response(400, Obj(map[
        Error := Str("User ID is required"),
        Message := Str("Please provide a user ID in the query parameter")
      ]))
    else
      Response(200, Obj(map[
        Message := Str("User fetched successfully"),
        Data := MockUser(id.value),
        Timestamp := Str(env.now)
      ]))
  }

  /** One item of the fixed list. */
  function Item(id: nat, title: string, description: string, status: string, createdAt: string): Value
  {
    Obj(map[
      Id := Number(id as real),
      Title := Str(title),
      Description := Str(description),
      Status := Str(status),
      CreatedAt := Str(createdAt)
    ])
  }

  /** An item's `status` member is the status it was built with. */
  lemma ItemStatus(id: nat, title: string, description: string, status: string, createdAt: string)
    ensures Keys(Item(id, title, description, status, createdAt)) == {Id, Title, Description, Status, CreatedAt}
    ensures Field(Item(id, title, description, status, createdAt), Status) == Some(Str(status))
  {
  }

  /** The four sample items of GET /getData. */
  const SampleData: seq<Value> := [
    Item(1, "First Item", "This is the first sample item", "active", "2024-01-10"),
    Item(2, "Second Item", "This is the second sample item", "active", "2024-01-11"),
    Item(3, "Third Item", "This is the third sample item", "inactive", "2024-01-12"),
    Item(4, "Fourth Item", "This is the fourth sample item", "active", "2024-01-13")
  ]

  /** GET /getData: the sample list with its length as `count`. */
  function GetDataResponse(env: Env): (r: Response)
    ensures r.status == 200
    ensures Keys(r.body) == {Message, Data, Count, Timestamp}
    ensures Field(r.body, Data) == Some(Arr(SampleData))
    ensures Field(r.body, Count) == Some(Number(|SampleData| as real))
  {
    Response(200, Obj(map[
      Message := Str("Data fetched successfully"),
      Data := Arr(SampleData),
      Count := Number(|SampleData| as real),
      Timestamp := Str(env.now)
    ]))
  }

  /** All three required fields of a submission are truthy. */
  predicate HasRequiredFields(b: Body)
  {
    Truthy(b.name) && Truthy(b.email) && Truthy(b.message)
  }

  /** The submission record a successful POST /submitData echoes. */
  function Submission(b: Body, env: Env): Value
    requires HasRequiredFields(b)
  {
    Obj(map[
      Id := Str(env.token),
      Name := Str(b.name.value),
      Email := Str(b.email.value),
      Message := Str(b.message.value),
      Status := Str("received"),
      SubmittedAt := Str(env.now)
    ])
  }

  /** The submission echoes the three fields unchanged, is "received", and
      is identified by the minted token (no uniqueness is claimed). */
  lemma SubmissionFields(b: Body, env: Env)
    requires HasRequiredFields(b)
    ensures Keys(Submission(b, env)) == {Id, Name, Email, Message, Status, SubmittedAt}
    ensures Field(Submission(b, env), Id) == Some(Str(env.token))
    ensures Field(Submission(b, env), Name) == Some(Str(b.name.value))
    ensures Field(Submission(b, env), Email) == Some(Str(b.email.value))
    ensures Field(Submission(b, env), Message) == Some(Str(b.message.value))
    ensures Field(Submission(b, env), Status) == Some(Str("received"))
  {
  }

  /** POST /submitData: the required-fields check, then the e-mail check,
      then the 201 acknowledgement echoing the submission. */
  function SubmitDataResponse(b: Body, env: Env): (r: Response)
    ensures r.status == 201 || r.status == 400
    ensures !HasRequiredFields(b) ==>
      && r.status == 400
      && Keys(r.body) == {Error, Message, RequiredFields}
      && Field(r.body, Error) == Some(Str("Missing required fields"))
      && Field(r.body, RequiredFields) == Some(Arr([Str("name"), Str("email"), Str("message")]))
    ensures HasRequiredFields(b) && !EmailPattern.IsValidEmail(b.email.value) ==>
      && r.status == 400
      && Keys(r.body) == {Error, Message}
      && Field(r.body, Error) == Some(Str("Invalid email format"))
    ensures r.status == 201 <==> HasRequiredFields(b) && EmailPattern.IsValidEmail(b.email.value)
    ensures r.status == 201 ==>
      && Keys(r.body) == {Message, Data, Timestamp}
      && Field(r.body, Message) == Some(Str("Data submitted successfully"))
      && Field(r.body, Data) == Some(Submission(b, env))
  {
    if !(Truthy(b.name) && Truthy(b.email) && Truthy(b.message)) then
      Response(400, Obj(map[
        Error := Str("Missing required fields"),
        Message := Str("Please provide name, email, and message"),
        RequiredFields := Arr([Str("name"), Str("email"), Str("message")])
      ]))
    else if !EmailPattern.IsValidEmail(b.email.value) then
      Response(400, Obj(map[
        Error := Str("Invalid email format"),
        Message := Str("Please provide a valid email address")
      ]))
    else
      Response(201, Obj(map[
        Message := Str("Data submitted successfully"),
        Data := Submission(b, env),
        Timestamp := Str(env.later)
      ]))
  }

  /** GET /health */
  function HealthResponse(env: Env): (r: Response)
    ensures r.status == 200
    ensures Keys(r.body) == {Status, Uptime, Timestamp, Service}
    ensures Field(r.body, Status) == Some(Str("healthy"))
    ensures Field(r.body, Uptime) == Some(Number(env.uptime))
  {
    Response(200, Obj(map[
      Status := Str("healthy"),
      Uptime := Number(env.uptime),
      Timestamp := Str(env.now),
      Service := Str("Firebase Cloud Functions")
    ]))
  }

  /** The handler bound to an endpoint, applied to the request. */
  function Run(e: Endpoint, req: Request, env: Env): Response
  {
    match e
    case Hello => HelloResponse(env)
    case GetUser => GetUserResponse(req.queryId, env)
    case GetData => GetDataResponse(env)
    case SubmitData => SubmitDataResponse(req.body, env)
    case Health => HealthResponse(env)
  }

  // ---------------------------------------------------------------------
  // Fallbacks

  /** The 404 handler, reached when no route matched. */
  function NotFoundResponse(req: Request): (r: Response)
    ensures r.status == 404
    ensures Keys(r.body) == {Error, Message, AvailableEndpoints}
    ensures Field(r.body, Error) == Some(Str("Endpoint not found"))
    ensures Field(r.body, Message) ==
      Some(Str("The endpoint " + req.verb + " " + req.path + " does not exist"))
    ensures Field(r.body, AvailableEndpoints) == Some(EndpointList)
  {
    Response(404, Obj(map[
      Error := Str("Endpoint not found"),
      Message := Str("The endpoint " + req.verb + " " + req.path + " does not exist"),
      AvailableEndpoints := EndpointList
    ]))
  }

  /** The error middleware: a handler or middleware raised an error whose
      message is `message`. */
  function ServerErrorResponse(message: string, env: Env): (r: Response)
    ensures r.status == 500
    ensures Keys(r.body) == {Error, Message, Timestamp}
    ensures Field(r.body, Error) == Some(Str("Internal server error"))
    ensures Field(r.body, Message) == Some(Str(message))
  {
    Response(500, Obj(map[
      Error := Str("Internal server error"),
      Message := Str(message),
      Timestamp := Str(env.now)
    ]))
  }

  /** The whole app: `fault` is the message of the error raised while the
      request was being handled, if one was; otherwise the first matching
      route answers, and the 404 handler answers when none matches. */
  function Serve(req: Request, env: Env, fault: Option<string>): Response
  {
    if fault.Some? then ServerErrorResponse(fault.value, env)
    else match FindRoute(Routes, req.verb, req.path)
      case None => NotFoundResponse(req)
      case Some(i) => Run(Routes[i].endpoint, req, env)
  }
}
