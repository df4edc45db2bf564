# Cloud Functions request layer, modelled in Dafny

This project models the request-handling layer of the Express app in
`functions/src/index.ts`, the app that Firebase Cloud Functions serves. The
model covers:

- five route handlers: `GET /hello`, `GET /getUser`, `GET /getData`,
  `POST /submitData` and `GET /health`;
- the ordered, exact-match dispatcher over them;
- the 404 fall-through handler;
- the 500 error middleware.

Each handler makes a single `res.status(...).json(...)` call and changes no
shared state, so every handler is a pure function from the request to the
response. A response is a status code plus a JSON value (`Json.Value`). The
whole app is `Api.Serve`.

Modules:

- `Wrappers`: `Option`.
- `Json`: JSON values. Objects are maps from member names (the `Key`
  enumeration) to values. `Field` is member lookup.
- `EmailPattern`: the e-mail regular expression
  `^[^\s@]+@[^\s@]+\.[^\s@]+$` of `POST /submitData`, in two forms:
  - `MatchesPattern` is the reference reading: three non-empty runs without
    whitespace or `@`, joined by `@` and `.`;
  - `IsValidEmail` is the decidable check used by the handler. It splits the
    string at the first `@`, then requires a non-empty local part and a domain
    that holds a `.` other than its first and last character.

  The two forms are proved equal. Whitespace is ECMAScript's `\s` class.
- `Api`: the request, body, environment and response types, the route table,
  the handlers, the dispatcher and the fallbacks.
- `ApiProperties`: what the app promises, stated about `Serve`.

The model receives the clocks and the random id as values in `Env`:

- `now` is the first `new Date().toISOString()` a handler evaluates.
- `later` is the second one, which only `POST /submitData` makes: line 148
  reads the clock for `submittedAt`, then line 150 reads it for `timestamp`.
- `uptime` is `process.uptime()`.
- `token` is the submission id that line 138 mints.

The `fault` argument of `Serve` carries the message of an error raised while
a request is handled. Such an error passes to the error middleware at lines
187-195.

Every success response carries `timestamp`, and all but the `/health`
response (lines 159-164) carry `message`; `ApiProperties.EnvelopeShape`
states this.

## Model

| member | source | states |
|---|---|---|
| EmailPattern.MatchesPattern | functions/src/index.ts:128 | no contract of its own: the reference reading of the regular expression, L@D1.D2 with three non-empty runs without whitespace or `@`; `ValidEmailIffPattern` ties it to `IsValidEmail` |
| EmailPattern.IsValidEmail | functions/src/index.ts:128-129 | no contract of its own: `emailRegex.test(email)` decided by a split at the first `@`; `ValidEmailIffPattern` proves it equal to `MatchesPattern`, `ValidEmailHasOneAt` that it admits one `@` |
| EmailPattern.FirstAt | functions/src/index.ts:128-129 | the index it returns is that of an `@` that no earlier `@` precedes; it returns none exactly when the string has no `@` |
| EmailPattern.ValidEmailMatches | functions/src/index.ts:128-129 | every string the decision procedure accepts is matched by `^[^\s@]+@[^\s@]+\.[^\s@]+$` |
| EmailPattern.SplitIsValidEmail | functions/src/index.ts:128-129 | any split of a string the way the regular expression reads it falls at the first `@`, so the decision procedure accepts the string |
| EmailPattern.MatchesIsValidEmail | functions/src/index.ts:128-129 | every string the regular expression matches is accepted by the decision procedure |
| EmailPattern.ValidEmailIffPattern | functions/src/index.ts:128-129 | the decision procedure accepts exactly the strings the regular expression matches |
| EmailPattern.ValidEmailHasOneAt | functions/src/index.ts:128-129 | an accepted address has exactly one `@` |
| EmailPattern.AcceptedEmails | functions/src/index.ts:128-129 | `a@b.com` is accepted |
| EmailPattern.DoubleDotEmail | functions/src/index.ts:128-129 | `a@b..c` is accepted: the domain may hold further dots |
| EmailPattern.MisshapenEmails | functions/src/index.ts:128-135 | `bad`, `@b.com`, `a@.com` and `a@b.` are rejected |
| EmailPattern.ForbiddenCharEmails | functions/src/index.ts:128-135 | an address with a second `@` or with a space is rejected |
| Api.Truthy | functions/src/index.ts:118 | no contract of its own: the `!x` tests of lines 40 and 118 on a string field; `GetUserResponse` and `SubmitDataResponse` state what each outcome of it leads to |
| Api.FindRoute | functions/src/index.ts:23-158 | the route it returns matches the method and the path, and no earlier route does; it returns none exactly when no route matches |
| Api.HelloResponse | functions/src/index.ts:23-31 | status 200, the four members, the greeting and the timestamp |
| Api.MockUser | functions/src/index.ts:49-56 | no contract of its own: the mock user for an id; `MockUserKeys` and `MockUserFields` state its members |
| Api.MockUserKeys | functions/src/index.ts:49-56 | the mock user has exactly the six profile members |
| Api.MockUserFields | functions/src/index.ts:49-56 | the mock user's id is the supplied id, and its other five members have the fixed values |
| Api.GetUserResponse | functions/src/index.ts:37-63 | status 400 exactly when the id is absent or empty, and then the error body; otherwise 200 with the mock user for that id |
| Api.SampleData | functions/src/index.ts:70-99 | the four sample items; `SampleDataStatuses` states their number and statuses, `GetDataCount` the count the handler reports |
| Api.ItemStatus | functions/src/index.ts:71-98 | a sample item has the five item members, and its `status` is the one it was built with |
| Api.GetDataResponse | functions/src/index.ts:69-107 | status 200, `data` is the sample list, `count` is the list's length |
| Api.Submission | functions/src/index.ts:142-149 | no contract of its own: the echoed submission record; `SubmissionFields` states its members |
| Api.SubmissionFields | functions/src/index.ts:138-149 | the echoed record has the token as id, the three fields unchanged and status `received` |
| Api.SubmitDataResponse | functions/src/index.ts:114-152 | missing fields give 400 with the required-field list; then an invalid e-mail gives 400 `Invalid email format`; status 201 exactly when both checks pass, with the echoed record |
| Api.HealthResponse | functions/src/index.ts:158-165 | status 200, `status` is `healthy`, and the uptime is the one read |
| Api.Run | functions/src/index.ts:23-165 | no contract of its own: binds each endpoint to its handler; `ServesHello` .. `ServesHealth` and `HandlerEnvelope` state what it answers |
| Api.NotFoundResponse | functions/src/index.ts:170-181 | status 404, the error, the message naming the method and the path, and the five-entry directory |
| Api.ServerErrorResponse | functions/src/index.ts:187-195 | status 500, `Internal server error`, and the error's own message |
| Api.Serve | functions/src/index.ts:23-195 | no contract of its own: the routing stack (fault gives 500, else first match, else 404); `DispatchToMatchingRoute`, `NotFoundIffUnregistered`, `FaultIsServerError` and `EnvelopeShape` state its behaviour |
| ApiProperties.RoutesAreDistinct | functions/src/index.ts:23-158 | no two registrations share both a method and a path |
| ApiProperties.DispatchToMatchingRoute | functions/src/index.ts:23-165 | a request whose method and path are a registration's is answered by that registration's handler |
| ApiProperties.ServesHello | functions/src/index.ts:23 | `GET /hello` reaches the hello handler |
| ApiProperties.ServesGetUser | functions/src/index.ts:37 | `GET /getUser` reaches the user handler |
| ApiProperties.ServesGetData | functions/src/index.ts:69 | `GET /getData` reaches the data handler |
| ApiProperties.ServesSubmitData | functions/src/index.ts:114 | `POST /submitData` reaches the submission handler |
| ApiProperties.ServesHealth | functions/src/index.ts:158 | `GET /health` reaches the health handler |
| ApiProperties.RoutingIgnoresQueryAndBody | functions/src/index.ts:23-158 | the route chosen depends only on the method and the path, never on the query or the body |
| ApiProperties.EndpointDirectoryNamesRoutes | functions/src/index.ts:174-180 | entry i of the 404 directory is route i's "method path", followed at most by an example query string |
| ApiProperties.NotFoundIffUnregistered | functions/src/index.ts:170-181 | status 404 exactly when no registration has the method and the path, and then the response is the 404 handler's |
| ApiProperties.NotFoundBody | functions/src/index.ts:171-180 | the 404 body lists exactly the five endpoints, in order |
| ApiProperties.WrongMethodIsNotFound | functions/src/index.ts:170-181 | `POST /hello` and `GET /submitData` get 404 |
| ApiProperties.FaultIsServerError | functions/src/index.ts:187-195 | a request whose handling raised an error gets 500, `Internal server error` and that error's message verbatim |
| ApiProperties.HelloIsOk | functions/src/index.ts:23-31 | `GET /hello` always answers 200 with the greeting |
| ApiProperties.GetUserWithoutId | functions/src/index.ts:38-46 | `GET /getUser` with an absent or empty id answers 400 `User ID is required`, with no `data` member |
| ApiProperties.GetUserEchoesId | functions/src/index.ts:49-62 | `GET /getUser` with a non-empty id answers 200; `data.id` is the id verbatim and the other five members are fixed |
| ApiProperties.SampleDataStatuses | functions/src/index.ts:70-99 | the sample list has four items, each `active` or `inactive` |
| ApiProperties.GetDataCount | functions/src/index.ts:69-107 | `GET /getData` answers 200 with count == length of data == 4, and every item is active or inactive |
| ApiProperties.SubmitMissingFields | functions/src/index.ts:118-125 | a missing or empty name, email or message gives 400 `Missing required fields` with `requiredFields` = name, email, message |
| ApiProperties.MissingFieldsShadowEmail | functions/src/index.ts:118-135 | while name or message is missing, no e-mail value changes the response |
| ApiProperties.SubmitInvalidEmailIff | functions/src/index.ts:127-135 | with the three fields present, the answer is 400 `Invalid email format` exactly when the e-mail fails the regular expression |
| ApiProperties.SubmitAccepted | functions/src/index.ts:137-151 | an accepted submission answers 201 `Data submitted successfully`, echoing the three fields unchanged, with status `received` and the token as id |
| ApiProperties.SubmitExampleBadEmail | functions/src/index.ts:127-135 | the submission with e-mail `bad` is refused with 400 |
| ApiProperties.SubmitExampleAccepted | functions/src/index.ts:114-151 | the submission with e-mail `a@b.com` is accepted with 201 |
| ApiProperties.SubmitExampleEmptyName | functions/src/index.ts:118-125 | the submission with an empty name is refused with 400 |
| ApiProperties.HealthIsOk | functions/src/index.ts:158-165 | `GET /health` always answers 200 with `healthy` and the uptime |
| ApiProperties.HandlerEnvelope | functions/src/index.ts:23-165 | handlers answer 200, 201 or 400; every 400 carries `error` and `message`; every success carries `timestamp`, and only health's lacks `message` |
| ApiProperties.EnvelopeShape | functions/src/index.ts:23-195 | the app answers only 200, 201, 400, 404 or 500; every error carries `error` and `message`; every success carries `timestamp`, and only `GET /health` lacks `message` |

## Left out

- Firebase Admin initialisation, Express app creation and the `functions.https.onRequest` exports (lines 1-10 and 197-208), including the separate `hello` export: framework calls with no visible logic.
- CORS middleware (lines 12-14): the model has no `OPTIONS` preflight answers and no CORS headers.
- `express.json()` parsing (line 17): the body arrives already parsed. A malformed body reaches the error middleware in Express; the model covers that only through `Serve`'s `fault` argument.
- Api.Matches: compares method and path exactly. Express routing by default also routes `HEAD` to `GET` handlers, ignores letter case and accepts a trailing slash; the model does not do this.
- Which requests fault is not modelled. `fault` is an input: no handler in the file raises an error by itself.
- `console.error` logging (line 189): output only.
- Clocks, `process.uptime()` and `Math.random().toString(36).substring(2, 15)` (line 138) are opaque `Env` inputs. No timestamp format, no uptime value and no uniqueness of the id is claimed.
- JavaScript truthiness applies to strings only. Body fields and `req.query.id` are `Option<string>`, with none or `""` falsy. Non-string body values and array-valued query ids are not modelled.
- JSON serialisation and member order: an object is a map from member names, so the model does not keep the order in which the source writes members. `Json.KeyName` gives each member's spelling, but no proof about it (such as injectivity) is stated.
- Responses only as status plus body: headers and the `res.json` content type are not modelled.
- EmailPattern.ValidEmailIffPattern: holds over Dafny strings, which are sequences of Unicode scalar values. JavaScript strings are UTF-16 code units and the regular expression has no `u` flag, so `[^\s@]` matches single code units. The two readings agree on every well-formed string, but a string holding a lone surrogate (which `JSON.parse` accepts from `\uD800`) cannot be written in this model; `SubmitInvalidEmailIff` and the other e-mail facts say nothing about such inputs.
- `src/app/app.component.ts` is not part of this model. It is an Angular UI component whose methods are asynchronous HTTP calls.
