/** What the app promises its callers, stated about the whole app (`Serve`)
    rather than about one handler. */
module ApiProperties {

  import opened Wrappers
  import opened Json
  import EmailPattern
  import opened Api

  // ---------------------------------------------------------------------
  // Dispatch

  /** No two registrations share a method and a path, so the first match
      is the only match. */
  lemma RoutesAreDistinct()
    ensures |Routes| == 5
    ensures forall i, j :: 0 <= i < j < |Routes| ==>
      !Matches(Routes[j], Routes[i].verb, Routes[i].path)
  {
  }

  /** A request whose method and path are those of a registration is
      answered by that registration's handler when nothing faults. */
  lemma DispatchToMatchingRoute(req: Request, env: Env, i: nat)
    requires i < |Routes| && Matches(Routes[i], req.verb, req.path)
    ensures Serve(req, env, None) == Run(Routes[i].endpoint, req, env)
  {
    RoutesAreDistinct();
  }

  /** Each registration's method and path reach its own handler. */
  lemma ServesHello(req: Request, env: Env)
    requires req.verb == "GET" && req.path == "/hello"
    ensures Serve(req, env, None) == HelloResponse(env)
  {
    DispatchToMatchingRoute(req, env, 0);
    assert Run(Hello, req, env) == HelloResponse(env);
  }

  lemma ServesGetUser(req: Request, env: Env)
    requires req.verb == "GET" && req.path == "/getUser"
    ensures Serve(req, env, None) == GetUserResponse(req.queryId, env)
  {
    DispatchToMatchingRoute(req, env, 1);
    assert Run(GetUser, req, env) == GetUserResponse(req.queryId, env);
  }

  lemma ServesGetData(req: Request, env: Env)
    requires req.verb == "GET" && req.path == "/getData"
    ensures Serve(req, env, None) == GetDataResponse(env)
  {
    DispatchToMatchingRoute(req, env, 2);
    assert Run(GetData, req, env) == GetDataResponse(env);
  }

  lemma ServesSubmitData(req: Request, env: Env)
    requires req.verb == "POST" && req.path == "/submitData"
    ensures Serve(req, env, None) == SubmitDataResponse(req.body, env)
  {
    DispatchToMatchingRoute(req, env, 3);
    assert Run(SubmitData, req, env) == SubmitDataResponse(req.body, env);
  }

  lemma ServesHealth(req: Request, env: Env)
    requires req.verb == "GET" && req.path == "/health"
    ensures Serve(req, env, None) == HealthResponse(env)
  {
    DispatchToMatchingRoute(req, env, 4);
    assert Run(Health, req, env) == HealthResponse(env);
  }

  /** Routing reads only the method and the path: whatever query and body
      a request carries, the handler that answers it is the one its method
      and path select, and it gets the 404 exactly when they select none. */
  lemma RoutingIgnoresQueryAndBody(req: Request, env: Env, id: Option<string>, b: Body)
    ensures FindRoute(Routes, req.verb, req.path).Some? ==>
      var i := FindRoute(Routes, req.verb, req.path).value;
      Serve(req.(queryId := id, body := b), env, None) == Run(Routes[i].endpoint, req.(queryId := id, body := b), env)
    ensures FindRoute(Routes, req.verb, req.path).None? ==>
      Serve(req.(queryId := id, body := b), env, None) == NotFoundResponse(req.(queryId := id, body := b))
  {
  }

  /** Every entry of the 404 directory names the route registered at the
      same position, as "<method> <path>", followed at most by an example
      query string. */
  lemma EndpointDirectoryNamesRoutes()
    ensures |EndpointDirectory| == |Routes|
    ensures forall i :: 0 <= i < |Routes| ==>
      var sig := Routes[i].verb + " " + Routes[i].path;
      |sig| <= |EndpointDirectory[i]| && EndpointDirectory[i][..|sig|] == sig
      && (|sig| < |EndpointDirectory[i]| ==> EndpointDirectory[i][|sig|] == '?')
  {
    assert EndpointDirectory[1][..12] == "GET /getUser";
  }

  /** An unregistered method/path pair gets the 404 response, whose message
      names the method and the path and whose directory lists the five
      endpoints in order; and only such a pair gets a 404. */
  lemma NotFoundIffUnregistered(req: Request, env: Env)
    ensures Serve(req, env, None).status == 404 <==> !Registered(req.verb, req.path)
    ensures !Registered(req.verb, req.path) ==> Serve(req, env, None) == NotFoundResponse(req)
  {
    var k := FindRoute(Routes, req.verb, req.path);
    if k.Some? {
      assert Matches(Routes[k.value], req.verb, req.path);
      assert Routes[k.value].endpoint.Hello? || Routes[k.value].endpoint.GetUser?
          || Routes[k.value].endpoint.GetData? || Routes[k.value].endpoint.SubmitData?
          || Routes[k.value].endpoint.Health?;
    }
  }

  /** The body of every 404 response. */
  lemma NotFoundBody(req: Request)
    ensures Keys(NotFoundResponse(req).body) == {Error, Message, AvailableEndpoints}
    ensures Field(NotFoundResponse(req).body, Error) == Some(Str("Endpoint not found"))
    ensures Field(NotFoundResponse(req).body, Message) ==
      Some(Str("The endpoint " + req.verb + " " + req.path + " does not exist"))
    ensures Field(NotFoundResponse(req).body, AvailableEndpoints) == Some(Arr([
      Str("GET /hello"), Str("GET /getUser?id=123"), Str("GET /getData"),
      Str("POST /submitData"), Str("GET /health")]))
  {
  }

  /** The examples of unregistered pairs: a registered path with the other
      method. */
  lemma WrongMethodIsNotFound(env: Env, id: Option<string>, b: Body)
    ensures Serve(Request("POST", "/hello", id, b), env, None).status == 404
    ensures Serve(Request("GET", "/submitData", id, b), env, None).status == 404
  {
    assert FindRoute(Routes, "POST", "/hello") == None;
    assert FindRoute(Routes, "GET", "/submitData") == None;
  }

  /** An error raised while handling any request gets the 500 response
      carrying the error's message verbatim. */
  lemma FaultIsServerError(req: Request, env: Env, m: string)
    ensures Serve(req, env, Some(m)).status == 500
    ensures Field(Serve(req, env, Some(m)).body, Error) == Some(Str("Internal server error"))
    ensures Field(Serve(req, env, Some(m)).body, Message) == Some(Str(m))
  {
  }

  // ---------------------------------------------------------------------
  // Endpoints, reached through the dispatcher

  /** GET /hello always answers 200 with its greeting. */
  lemma HelloIsOk(req: Request, env: Env)
    requires req.verb == "GET" && req.path == "/hello"
    ensures Serve(req, env, None).status == 200
    ensures Field(Serve(req, env, None).body, Message) == Some(Str("Hello from Firebase Cloud Functions!"))
  {
    ServesHello(req, env);
  }

  /** GET /getUser without an id, or with an empty one, answers 400 with
      no `data` member. */
  lemma GetUserWithoutId(req: Request, env: Env)
    requires req.verb == "GET" && req.path == "/getUser" && !Truthy(req.queryId)
    ensures Serve(req, env, None).status == 400
    ensures Field(Serve(req, env, None).body, Error) == Some(Str("User ID is required"))
    ensures !HasKey(Serve(req, env, None).body, Data)
  {
    ServesGetUser(req, env);
  }

  /** GET /getUser with a non-empty id answers 200 with the fixed user whose
      id is the supplied one, verbatim. */
  lemma GetUserEchoesId(req: Request, env: Env)
    requires req.verb == "GET" && req.path == "/getUser" && Truthy(req.queryId)
    ensures Serve(req, env, None).status == 200
    ensures Field(Serve(req, env, None).body, Data).Some?
    ensures Field(Field(Serve(req, env, None).body, Data).value, Id) == Some(Str(req.queryId.value))
    ensures Field(Field(Serve(req, env, None).body, Data).value, Name) == Some(Str("John Doe"))
    ensures Field(Field(Serve(req, env, None).body, Data).value, Email) == Some(Str("john.doe@example.com"))
    ensures Field(Field(Serve(req, env, None).body, Data).value, Role) == Some(Str("Developer"))
    ensures Field(Field(Serve(req, env, None).body, Data).value, JoinedDate) == Some(Str("2024-01-15"))
    ensures Field(Field(Serve(req, env, None).body, Data).value, IsActive) == Some(Bool(true))
  {
    ServesGetUser(req, env);
    MockUserFields(req.queryId.value);
  }

  /** An item's `status` is "active" or "inactive". */
  predicate HasKnownStatus(item: Value)
  {
    Field(item, Status) == Some(Str("active")) || Field(item, Status) == Some(Str("inactive"))
  }

  /** Every sample item is active or inactive. */
  lemma SampleDataStatuses()
    ensures |SampleData| == 4
    ensures forall k :: 0 <= k < |SampleData| ==> HasKnownStatus(SampleData[k])
  {
    ItemStatus(1, "First Item", "This is the first sample item", "active", "2024-01-10");
    ItemStatus(2, "Second Item", "This is the second sample item", "active", "2024-01-11");
    ItemStatus(3, "Third Item", "This is the third sample item", "inactive", "2024-01-12");
    ItemStatus(4, "Fourth Item", "This is the fourth sample item", "active", "2024-01-13");
  }

  /** GET /getData always answers 200 with `count` equal to the length of
      `data`, which is 4, and every item active or inactive. */
  lemma GetDataCount(req: Request, env: Env)
    requires req.verb == "GET" && req.path == "/getData"
    ensures Serve(req, env, None).status == 200
    ensures Field(Serve(req, env, None).body, Data).Some?
    ensures Field(Serve(req, env, None).body, Data).value.Arr?
    ensures |Field(Serve(req, env, None).body, Data).value.items| == 4
    ensures Field(Serve(req, env, None).body, Count) ==
      Some(Number(|Field(Serve(req, env, None).body, Data).value.items| as real))
    ensures forall k :: 0 <= k < 4 ==>
      HasKnownStatus(Field(Serve(req, env, None).body, Data).value.items[k])
  {
    ServesGetData(req, env);
    SampleDataStatuses();
  }

  /** POST /submitData with a missing or empty name, email or message
      answers 400 naming the three required fields, whatever the e-mail. */
  lemma SubmitMissingFields(req: Request, env: Env)
    requires req.verb == "POST" && req.path == "/submitData" && !HasRequiredFields(req.body)
    ensures Serve(req, env, None).status == 400
    ensures Field(Serve(req, env, None).body, Error) == Some(Str("Missing required fields"))
    ensures Field(Serve(req, env, None).body, RequiredFields) ==
      Some(Arr([Str("name"), Str("email"), Str("message")]))
  {
    ServesSubmitData(req, env);
  }

  /** The required-fields check comes first: while name or message is
      missing, no e-mail value changes the response. */
  lemma MissingFieldsShadowEmail(req: Request, env: Env, e: Option<string>)
    requires req.verb == "POST" && req.path == "/submitData"
    requires !Truthy(req.body.name) || !Truthy(req.body.message)
    ensures Serve(req, env, None) == Serve(req.(body := req.body.(email := e)), env, None)
  {
    ServesSubmitData(req, env);
    ServesSubmitData(req.(body := req.body.(email := e)), env);
  }

  /** With the three fields present, POST /submitData answers 400 "Invalid
      email format" exactly when the e-mail does not match the pattern. */
  lemma SubmitInvalidEmailIff(req: Request, env: Env)
    requires req.verb == "POST" && req.path == "/submitData" && HasRequiredFields(req.body)
    ensures Serve(req, env, None).status == 400 <==> !EmailPattern.MatchesPattern(req.body.email.value)
    ensures Serve(req, env, None).status == 400 ==>
      Field(Serve(req, env, None).body, Error) == Some(Str("Invalid email format"))
  {
    ServesSubmitData(req, env);
    EmailPattern.ValidEmailIffPattern(req.body.email.value);
  }

  /** A successful submission answers 201 and echoes name, email and
      message unchanged, with status "received" and the minted token as id. */
  lemma SubmitAccepted(req: Request, env: Env)
    requires req.verb == "POST" && req.path == "/submitData" && HasRequiredFields(req.body)
    requires EmailPattern.IsValidEmail(req.body.email.value)
    ensures Serve(req, env, None).status == 201
    ensures Field(Serve(req, env, None).body, Message) == Some(Str("Data submitted successfully"))
    ensures Field(Serve(req, env, None).body, Data).Some?
    ensures Field(Field(Serve(req, env, None).body, Data).value, Id) == Some(Str(env.token))
    ensures Field(Field(Serve(req, env, None).body, Data).value, Name) == Some(Str(req.body.name.value))
    ensures Field(Field(Serve(req, env, None).body, Data).value, Email) == Some(Str(req.body.email.value))
    ensures Field(Field(Serve(req, env, None).body, Data).value, Message) == Some(Str(req.body.message.value))
    ensures Field(Field(Serve(req, env, None).body, Data).value, Status) == Some(Str("received"))
  {
    ServesSubmitData(req, env);
    SubmissionFields(req.body, env);
  }

  /** A submission whose e-mail has no `@` is refused. */
  lemma SubmitExampleBadEmail(env: Env)
    ensures Serve(Request("POST", "/submitData", None, Body(Some("A"), Some("bad"), Some("hi"))), env, None).status == 400
  {
    EmailPattern.MisshapenEmails();
    ServesSubmitData(Request("POST", "/submitData", None, Body(Some("A"), Some("bad"), Some("hi"))), env);
  }

  /** A submission with a well-formed e-mail is accepted. */
  lemma SubmitExampleAccepted(env: Env)
    ensures Serve(Request("POST", "/submitData", None, Body(Some("A"), Some("a@b.com"), Some("hi"))), env, None).status == 201
  {
    EmailPattern.AcceptedEmails();
    EmailPattern.ValidEmailIffPattern("a@b.com");
    SubmitAccepted(Request("POST", "/submitData", None, Body(Some("A"), Some("a@b.com"), Some("hi"))), env);
  }

  /** A submission with an empty name is refused, whatever its e-mail. */
  lemma SubmitExampleEmptyName(env: Env)
    ensures Serve(Request("POST", "/submitData", None, Body(Some(""), Some("a@b.com"), Some("hi"))), env, None).status == 400
  {
    ServesSubmitData(Request("POST", "/submitData", None, Body(Some(""), Some("a@b.com"), Some("hi"))), env);
  }

  /** GET /health always answers 200 with status "healthy" and the process
      uptime it read. */
  lemma HealthIsOk(req: Request, env: Env)
    requires req.verb == "GET" && req.path == "/health"
    ensures Serve(req, env, None).status == 200
    ensures Field(Serve(req, env, None).body, Status) == Some(Str("healthy"))
    ensures Field(Serve(req, env, None).body, Uptime) == Some(Number(env.uptime))
  {
    ServesHealth(req, env);
  }

  // ---------------------------------------------------------------------
  // The envelope

  /** The envelope of each handler's responses. */
  lemma HandlerEnvelope(e: Endpoint, req: Request, env: Env)
    ensures Run(e, req, env).status in {200, 201, 400}
    ensures Run(e, req, env).status == 400 ==>
      HasKey(Run(e, req, env).body, Error) && HasKey(Run(e, req, env).body, Message)
    ensures Run(e, req, env).status < 400 ==> HasKey(Run(e, req, env).body, Timestamp)
    ensures Run(e, req, env).status < 400 && !HasKey(Run(e, req, env).body, Message) ==> e == Health
  {
    match e
    case Hello =>
    case GetUser =>
    case GetData =>
    case SubmitData =>
    case Health =>
  }

  /** Every response has one of five status codes; every error response
      carries `error` and `message`; every success carries `timestamp`, and
      every success but the health check's carries `message`. */
  lemma EnvelopeShape(req: Request, env: Env, fault: Option<string>)
    ensures Serve(req, env, fault).status in {200, 201, 400, 404, 500}
    ensures Serve(req, env, fault).status >= 400 ==>
      HasKey(Serve(req, env, fault).body, Error) && HasKey(Serve(req, env, fault).body, Message)
    ensures Serve(req, env, fault).status < 400 ==>
      HasKey(Serve(req, env, fault).body, Timestamp)
    ensures Serve(req, env, fault).status < 400 && !HasKey(Serve(req, env, fault).body, Message) ==>
      fault.None? && req.verb == "GET" && req.path == "/health"
  {
    if fault.None? {
      var k := FindRoute(Routes, req.verb, req.path);
      if k.Some? {
        assert Matches(Routes[k.value], req.verb, req.path);
        HandlerEnvelope(Routes[k.value].endpoint, req, env);
        assert Routes[k.value].endpoint == Health ==> k.value == 4;
      }
    }
  }
}
