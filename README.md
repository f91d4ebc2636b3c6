# Livy session client (viadot Iceberg source)

This project models the part of viadot's Iceberg source that talks to an
Apache Livy server. It then proves properties of that model.

- **Session states.** `SessionState` is the eleven Livy session states and
  their wire names. `NotReady` and `Finished` are the two state classes. A
  `Session` snapshot is read from a JSON object with `id` and `state` keys.
- **Polling schedule.** The schedule yields the start intervals, then the
  rest interval forever. With an optional bound, it stops for good at the
  first interval that would push the running sum strictly past the bound.
  `PollingSchedule` is a stateful generator with `Next`. The pure functions
  `IntervalAt`, `Elapsed` and `Prefix` say what it produces.
- **Endpoints.** A request URL is the base URL with trailing slashes
  stripped, followed by the endpoint. There are session and statement paths,
  and the JSON payload of `POST /sessions`.
- **LivyClient.** It owns its HTTP session exactly when none is supplied.
  It has `get`/`post`/`delete` over one `_request`, plus `server_version`,
  `create_session` and `get_session`. `close` releases only a session the
  client owns.
- **LivySession.** `Start` creates a client and a remote session, then
  waits. `wait` polls `GET /sessions/{id}` with the `[0.1, 0.2, 0.3, 0.5]`
  then `1.0` second schedule until the state leaves `NotReady`. The `state`
  property always fetches anew. `close` deletes the remote session and then
  closes the client.
- **Table names.** The fully qualified table name (`_get_fqn`) and the
  `df.writeTo(...)` statement built by `to_iceberg`.

How the model represents the environment:

- **The Livy server** is the class `LivyServer`. It holds a queue of pending
  replies (status and JSON body) and a log of every request it receives.
  Each request takes the next reply. A status of 400 to 599 is an HTTP
  error, as `raise_for_status` would raise. An empty queue means the server
  is unreachable. So every run of `wait` ends, and what it does is stated
  against the reply queue it is given.
- **`time.sleep`** is `Clock.Sleep`, which records each pause.
- **`requests.Session`** is `HttpSession`, which counts calls to `close`.
- **Durations** are whole milliseconds, so the default wait schedule is
  `[100, 200, 300, 500]` followed by `1000`.
- **Exceptions** become `Err` values of `LivyError`. A method that raises
  returns at that point, with the state changed up to then and no further.

The main results:

- **Wait.** `Livy.WaitFrom` is a reference run of `wait` over a reply
  queue: the number of fetches and the last answer. `Livy.LivySession.Wait`
  is proved against it. The method sends exactly that many GETs of the
  session path. It sleeps exactly the first `fetches - 1` intervals of the
  schedule. It returns the first answer that is not a `NotReady` snapshot,
  and every answer before it was one. `Livy.WaitFromIsFirstReady`
  characterises that answer independently.
- **Polling schedule.** The running sum of yielded intervals never exceeds
  `max_duration`. Once it stops it never resumes, and a positive rest
  interval makes a bounded schedule finite.
- **Round trips.**
  - A state through its wire name.
  - A snapshot through JSON, with extra keys allowed.
  - A session id through its path.
  - A session request through the creation payload.
  - A table name split back into its parts.

## Model

| member | source | states |
|---|---|---|
| SessionStates.ParseState | viadot/sources/iceberg.py:16-27 | a wire string parses only to the state whose wire name it is |
| SessionStates.ParseWireName | viadot/sources/iceberg.py:16-27 | every state's wire name parses back to that state |
| SessionStates.ParseStateExactly | viadot/sources/iceberg.py:16-27 | `SessionState(w)` gives `s` if and only if `w` is `s`'s value, so no other string is accepted |
| SessionStates.StateClasses | viadot/sources/iceberg.py:30-36 | NOT_READY is {not_started, starting}; FINISHED is {error, dead, killed, success}; they are disjoint; the other five states are in neither |
| SessionStates.FromJson | viadot/sources/iceberg.py:44-49 | a non-object, a missing `id` key, a missing `state` key or an unknown state name is rejected; an accepted snapshot's id and state are exactly the object's `id` and `state` entries |
| SessionStates.FromJsonRoundTrip | viadot/sources/iceberg.py:44-49 | reading the JSON of a session gives that session back, also when the object carries extra keys |
| Polling.PrefixAt | viadot/sources/iceberg.py:56-59 | the first n intervals are the start intervals in order, then the rest interval |
| Polling.ElapsedMonotone | viadot/sources/iceberg.py:61-63 | the running sum of the intervals never decreases |
| Polling.EmitsWithinBound | viadot/sources/iceberg.py:61-66 | with a bound, the interval at k is yielded if and only if the running sum up to and including it is at most the bound |
| Polling.NeverResumes | viadot/sources/iceberg.py:64-65 | once an interval is withheld, no later interval is yielded |
| Polling.BoundedScheduleEnds | viadot/sources/iceberg.py:53-66 | with a positive rest interval, a bounded schedule yields fewer than (number of start intervals + bound + 1) intervals |
| Polling.DefaultScheduleExample | viadot/sources/iceberg.py:53-66 | the wait schedule's first five intervals are 100, 200, 300, 500, 1000, and it yields 1000 forever after; with a bound of 1000 it stops after 100, 200, 300 |
| Polling.PollingSchedule.constructor | viadot/sources/iceberg.py:53-61 | a new generator has yielded nothing and its running sum is zero |
| Polling.PollingSchedule.Next | viadot/sources/iceberg.py:56-66 | yields the next interval of the schedule exactly when it is within the bound (always, when there is no bound); after the first refusal it refuses forever; the yielded sequence is always a prefix of the schedule |
| Endpoints.TrimTrailingSlashes | viadot/sources/iceberg.py:122 | the result is the longest prefix that does not end in `/`, and only `/` characters were removed |
| Endpoints.RequestUrlShape | viadot/sources/iceberg.py:122 | `RequestUrl` ends with the endpoint; what precedes it is a prefix of the base URL that does not end in `/`, and only `/` characters of the base were left out |
| Endpoints.RequestUrlIgnoresTrailingSlash | viadot/sources/iceberg.py:122 | a trailing `/` on the base URL does not change any request URL |
| Endpoints.NatDigits | viadot/sources/iceberg.py:134-144 | the decimal rendering of an id is non-empty and all digits, with no leading zero: 0 is rendered `0`, and any other id starts with a non-zero digit |
| Endpoints.IdRoundTrip | viadot/sources/iceberg.py:134-144 | `IdString`, the decimal text of any integer id (negatives included), parses back to that id |
| Endpoints.SessionPathRoundTrip | viadot/sources/iceberg.py:134-136 | `SessionPath` is `/sessions/` followed by text from which the session id is read back, so different ids give different paths |
| Endpoints.StatementsPath | viadot/sources/iceberg.py:138-140 | the path is `/sessions/`, then text that reads back as the session id, then `/statements` |
| Endpoints.StatementPath | viadot/sources/iceberg.py:142-144 | the path is the session's statements path, `/`, then text that reads back as the statement id |
| Endpoints.CreateSessionPayload | viadot/sources/iceberg.py:159-166 | the creation payload is an object with exactly the keys name, jars, conf, pyFiles, files and numExecutors |
| Endpoints.PayloadRoundTrip | viadot/sources/iceberg.py:150-166 | the server's reading of the creation payload recovers every argument of the request, absent ones as absent |
| Livy.WaitFrom | viadot/sources/iceberg.py:200-206 | reference run of `wait`: at least one fetch and at most one per queued reply plus one; every fetch before the last was a NOT_READY snapshot; the outcome is the last fetch and is not one |
| Livy.WaitFromIsFirstReady | viadot/sources/iceberg.py:203 | the reference run ends exactly at the first fetch that is not a NOT_READY snapshot |
| Livy.WaitEndsAsSpecified | viadot/sources/iceberg.py:203-206 | a loop that fetched n times, kept waiting on every fetch before the last and stopped on the last one has run exactly as the reference run |
| Livy.WaitOutlastsNotReady | viadot/sources/iceberg.py:203-204 | when every reply is a NOT_READY snapshot, `wait` fetches once more than there are replies and ends with the server unreachable |
| Livy.WaitExample | viadot/sources/iceberg.py:200-206 | not_started, starting, then idle: three fetches, pauses of 100 and 200, and the idle session as the outcome |
| Livy.RespondStatus | viadot/sources/iceberg.py:131-132 | `Respond` fails exactly on a status from 400 to 599, with an HTTP error carrying that status; any other reply yields its body unchanged |
| Livy.KeepsWaitingStates | viadot/sources/iceberg.py:203 | `KeepsWaiting` holds exactly for a snapshot that is not_started or starting; a failed fetch ends the loop, and a snapshot that keeps it going is never a finished one |
| Livy.LivyServer.Exchange | viadot/sources/iceberg.py:123-132 | each request is logged and answered with the next queued reply; a 4xx/5xx status is an HTTP error, and an empty queue means the server is unreachable |
| Livy.HttpSession.Close | viadot/sources/iceberg.py:104 | closing the HTTP session is counted |
| Livy.Clock.Sleep | viadot/sources/iceberg.py:204 | each pause is recorded in order |
| Livy.LivyClient.constructor | viadot/sources/iceberg.py:82-99 | the client manages its HTTP session if and only if none was supplied; a supplied session is used as is, and otherwise a fresh unclosed one is created |
| Livy.LivyClient.Close | viadot/sources/iceberg.py:101-104 | the HTTP session is closed once if the client manages it, and left alone otherwise |
| Livy.LivyClient.Request | viadot/sources/iceberg.py:115-132 | exactly one request, for the stripped base URL plus the endpoint, carrying the given body; its answer is the result |
| Livy.LivyClient.Get | viadot/sources/iceberg.py:106-107 | exactly one GET of the endpoint (the base URL without its trailing '/' by default), without a body |
| Livy.LivyClient.Post | viadot/sources/iceberg.py:109-110 | exactly one POST of the endpoint with the data as its body, and no body when no data is given |
| Livy.LivyClient.Delete | viadot/sources/iceberg.py:112-113 | exactly one DELETE of the endpoint (the base URL without its trailing '/' by default), without a body |
| Livy.LivyClient.ServerVersion | viadot/sources/iceberg.py:146-148 | one GET of `/version`; the result is its `version` field, the request's error, or a missing-version error |
| Livy.LivyClient.CreateSession | viadot/sources/iceberg.py:150-168 | one POST of the creation payload to `/sessions`; the result is the snapshot read from the answer |
| Livy.LivyClient.GetSession | viadot/sources/iceberg.py:170-172 | one GET of the session path; the result is the snapshot read from the answer |
| Livy.LivySession.constructor | viadot/sources/iceberg.py:196-197 | a session object binds a client and a remote session id |
| Livy.LivySession.Start | viadot/sources/iceberg.py:177-198 | one POST to `/sessions`, then exactly the GETs and sleeps of the reference wait on the created id; it succeeds exactly when the wait does, and then returns a fresh session on a fresh client that manages a fresh, unclosed HTTP session, with the id from the last snapshot |
| Livy.LivySession.State | viadot/sources/iceberg.py:208-214 | one GET of the session path; the result is the fetched snapshot's state, or its error |
| Livy.LivySession.Wait | viadot/sources/iceberg.py:200-206 | performs exactly the reference run: that many GETs of the session path, the first `fetches - 1` intervals of the default schedule slept in order, and the outcome returned; on success the state is not NOT_READY and the id is the last snapshot's; on failure the id is unchanged |
| Livy.LivySession.PollWhileNotReady | viadot/sources/iceberg.py:202-204 | the loop of `wait` after its first fetch: it ends exactly where the reference run ends, having sent that run's GETs, consumed its replies and slept the schedule's first `fetches - 1` intervals |
| Livy.LivySession.PollAgain | viadot/sources/iceberg.py:203-204 | one round of the loop: sleeps the schedule's next interval (and the schedule records it as yielded), then sends one GET of the session path and reads its answer |
| Livy.LivySession.Close | viadot/sources/iceberg.py:216-218 | one DELETE of the session path; the client's HTTP session is closed (when managed) only if the DELETE succeeded; the DELETE's error is the result |
| TableNames.QualifiedName | viadot/sources/iceberg.py:238-245 | a name exists if and only if the table is given and non-empty, and it always ends with the table |
| TableNames.QualifiedNameSplits | viadot/sources/iceberg.py:238-245 | for dot-free parts, splitting the name at dots gives database, schema and table when all are given, schema and table when the schema is given, and the table alone otherwise |
| TableNames.DatabaseNeedsSchema | viadot/sources/iceberg.py:239-244 | a database without a schema is ignored |
| TableNames.WriteToStatement | viadot/sources/iceberg.py:261-263 | the statement exists if and only if the table is given; it is `df.writeTo(` followed by the qualified name, `, if_exists=`, the mode and `)` |

## Source defects and how they are modelled

The code as written cannot run its own happy path, so the model takes the
evident intent at four points.

- `create_session` (viadot/sources/iceberg.py:167) posts through
  `self._client`, an attribute `LivyClient` never sets. The model posts
  through the client's own `post`.
- `LivySession.__init__` (viadot/sources/iceberg.py:177-197) calls
  `create_session()` without the required `name`. It also takes an `id`
  argument that it then overwrites. `LivySession.Start` takes the session
  request instead of an id.
- The loop's `else` branch in `wait` (viadot/sources/iceberg.py:205-206)
  reads `.id` from `self.state`, which is a `SessionState` with no `id`,
  and would fetch once more to do so. The model takes the id from the last
  snapshot the loop fetched, with no extra request.
- `_get_fqn` (viadot/sources/iceberg.py:238) lacks `self`. It is modelled
  as a plain function of table, schema and database.

The schedule adds each interval to the running sum before it compares
(viadot/sources/iceberg.py:63-64). With bound 1000 over
`[100, 200, 300, 500]` it therefore stops after 300, because
100 + 200 + 300 + 500 = 1100 > 1000. `Polling.DefaultScheduleExample`
states this.

## Left out

- HTTP transport: credentials (the `auth` tuple), TLS `verify`, query
  `params` (the `params` argument of `get` is dropped), headers and the decoding of response bodies are not modelled.
  The server is an abstract queue of replies.
- Real time: `time.sleep` only records the pause. Floating-point seconds
  are modelled as whole milliseconds. The schedule functions take any
  natural-number intervals, so rounding is not modelled.
- Livy.LivySession.Wait: states what happens for a given queue of replies.
  It does not promise that a real server ever leaves NOT_READY; the source
  has no timeout and neither does the model.
- SessionStates.FromJson: rejects a snapshot whose `id` is not an integer,
  where the source would carry any value into the `id` field.
- Livy.LivySession.State: the `session is None` check
  (viadot/sources/iceberg.py:212-213) is not modelled. `get_session` never
  returns `None`, so the check is dead code.
- Livy.LivySession.Start: a failed creation or wait leaves the new client's
  HTTP session open, as in the source. No session object is returned to
  close it.
- `LivySession.run` (viadot/sources/iceberg.py:220-230) is an empty stub.
  `to_iceberg` hands its statement to `run`, so the model stops at the
  statement string (`TableNames.WriteToStatement`).
- The `Iceberg` source class (viadot/sources/iceberg.py:269 onward) is not
  part of this model. Nor are the unrelated GitLab, Business Core and
  SAP-to-parquet modules.
- Repeated `close` calls, concurrency and the statements endpoints beyond
  their paths are not modelled.
