/** The Livy client and session lifecycle: requests to the remote service,
    session creation, the readiness wait, and teardown. The remote service is
    an oracle (`LivyServer`) holding the replies it will give, in order, and
    the log of requests it has received; `time.sleep` is a `Clock` that
    records the requested pauses. */
module Livy {
  import opened Wrappers
  import opened JsonValues
  import opened SessionStates
  import opened Polling
  import opened Endpoints

  datatype Verb = GET | POST | DELETE

  datatype HttpRequest = HttpRequest(verb: Verb, url: string, body: Option<Json>)

  /** One HTTP reply: a status code and the decoded JSON body. */
  datatype Reply = Reply(status: int, body: Json)

  datatype LivyError =
    | Unreachable                       // no reply at all: a connection error
    | HttpError(status: int)            // `raise_for_status()`
    | BadSnapshot(cause: SnapshotError) // `Session.from_json` failed
    | MissingVersion                    // `["version"]` on a reply without it

  /** `raise_for_status()` followed by `response.json()`: a client or server
      error status raises, any other status hands over the body. */
  function Respond(reply: Reply): Result<Json, LivyError> {
    if 400 <= reply.status < 600 then Err(HttpError(reply.status)) else Ok(reply.body)
  }

  /** Exactly the statuses 400 to 599 fail, with that status; every other
      reply hands over its body unchanged. */
  lemma RespondStatus(reply: Reply)
    ensures Respond(reply).Err? <==> 400 <= reply.status <= 599
    ensures Respond(reply).Err? ==> Respond(reply).error == HttpError(reply.status)
    ensures Respond(reply).Ok? ==> Respond(reply).value == reply.body
  {
  }

  /** What a request makes of the server's pending replies. */
  function Answer(replies: seq<Reply>): Result<Json, LivyError> {
    if replies == [] then Err(Unreachable) else Respond(replies[0])
  }

  /** The replies still pending after n requests. */
  function Drop(replies: seq<Reply>, n: nat): seq<Reply> {
    if n <= |replies| then replies[n..] else []
  }

  lemma DropOneMore(replies: seq<Reply>, n: nat)
    ensures Drop(Drop(replies, n), 1) == Drop(replies, n + 1)
  {
    if n < |replies| {
      assert replies[n..][1..] == replies[n + 1..];
    }
  }

  function Repeat(req: HttpRequest, n: nat): seq<HttpRequest> {
    if n == 0 then [] else Repeat(req, n - 1) + [req]
  }

  lemma RepeatOneMore(log: seq<HttpRequest>, req: HttpRequest, n: nat)
    ensures log + Repeat(req, n) + [req] == log + Repeat(req, n + 1)
  {
  }

  lemma AppendOneMore(slept: seq<nat>, emitted: seq<nat>, pause: nat)
    ensures slept + emitted + [pause] == slept + (emitted + [pause])
  {
  }

  /** A reply read as a session snapshot (`get_session` / `create_session`). */
  function ReadSession(answer: Result<Json, LivyError>): Result<Session, LivyError> {
    match answer
    case Err(e) => Err(e)
    case Ok(body) =>
      match FromJson(body)
      case Ok(s) => Ok(s)
      case Err(e) => Err(BadSnapshot(e))
  }

  /** The `wait` loop goes round again after this fetch. */
  predicate KeepsWaiting(fetched: Result<Session, LivyError>) {
    fetched.Ok? && fetched.value.state in NotReady
  }

  /** Only a snapshot that is not started or starting keeps the loop going.
      A failed fetch ends it (Python raises out of it), and a waiting session
      is never one that has finished. */
  lemma KeepsWaitingStates(fetched: Result<Session, LivyError>)
    ensures KeepsWaiting(fetched) <==>
      fetched.Ok? && (fetched.value.state == NotStarted || fetched.value.state == Starting)
    ensures KeepsWaiting(fetched) ==> fetched.value.state !in Finished
  {
  }

  /** The schedule `wait` uses, in milliseconds. */
  const PollStart: seq<nat> := [100, 200, 300, 500]
  const PollRest: nat := 1000

  /** How a `wait` ends: how many state fetches it issued and what the last
      one produced. */
  datatype WaitTrace = WaitTrace(fetches: nat, outcome: Result<Session, LivyError>)

  /** What the fetch issued after n earlier requests reads. */
  function FetchedAt(replies: seq<Reply>, n: nat): Result<Session, LivyError> {
    ReadSession(Answer(Drop(replies, n)))
  }

  /** The reference run of `wait` from its (k+1)-th fetch on: it fetches
      until a fetch is not a NOT_READY snapshot. Every fetch but the last saw
      a NOT_READY state (and was followed by one sleep); a successful outcome
      is a state outside NOT_READY. */
  function WaitFrom(replies: seq<Reply>, k: nat): (t: WaitTrace)
    requires k <= |replies|
    ensures k + 1 <= t.fetches <= |replies| + 1
    ensures forall j :: k <= j < t.fetches - 1 ==> KeepsWaiting(FetchedAt(replies, j))
    ensures t.outcome == FetchedAt(replies, t.fetches - 1)
    ensures !KeepsWaiting(t.outcome)
    ensures t.outcome.Ok? ==> t.outcome.value.state !in NotReady
    decreases |replies| - k
  {
    var fetched := FetchedAt(replies, k);
    if KeepsWaiting(fetched) then
      assert k < |replies|;
      WaitFrom(replies, k + 1)
    else
      WaitTrace(k + 1, fetched)
  }

  /** The whole run of `wait` against the pending replies. */
  function WaitSpec(replies: seq<Reply>): WaitTrace {
    WaitFrom(replies, 0)
  }

  /** A fetch that saw a NOT_READY state was answered by a pending reply. */
  lemma KeepsWaitingHadReply(replies: seq<Reply>, n: nat, fetched: Result<Session, LivyError>)
    requires fetched == FetchedAt(replies, n) && KeepsWaiting(fetched)
    ensures n < |replies|
  {
  }

  /** The pauses a schedule of `wait`'s intervals has handed out so far. */
  lemma PausesSoFar(intervals: PollingSchedule, n: nat)
    requires intervals.start == PollStart && intervals.rest == PollRest && intervals.position == n
    ensures intervals.Emitted() == Prefix(PollStart, PollRest, n)
  {
  }

  /** The first n fetches all saw a NOT_READY state. */
  predicate KeptWaiting(replies: seq<Reply>, n: nat) {
    n == 0 || (KeptWaiting(replies, n - 1) && KeepsWaiting(FetchedAt(replies, n - 1)))
  }

  lemma {:induction false} KeptWaitingAll(replies: seq<Reply>, n: nat)
    requires KeptWaiting(replies, n)
    ensures forall j :: 0 <= j < n ==> KeepsWaiting(FetchedAt(replies, j))
  {
    if n > 0 {
      KeptWaitingAll(replies, n - 1);
    }
  }

  /** The run is determined by the first fetch that is not NOT_READY. */
  lemma {:induction false} WaitFromIsFirstReady(replies: seq<Reply>, k: nat, m: nat)
    requires k <= m <= |replies|
    requires forall j :: k <= j < m ==> KeepsWaiting(FetchedAt(replies, j))
    requires !KeepsWaiting(FetchedAt(replies, m))
    ensures WaitFrom(replies, k) == WaitTrace(m + 1, FetchedAt(replies, m))
    decreases m - k
  {
    if k < m {
      WaitFromIsFirstReady(replies, k + 1, m);
    }
  }

  /** A loop that stops at the first fetch that is not NOT_READY ends as the
      reference run does. */
  lemma WaitEndsAsSpecified(replies: seq<Reply>, fetches: nat, last: Result<Session, LivyError>)
    requires 1 <= fetches <= |replies| + 1
    requires KeptWaiting(replies, fetches - 1)
    requires last == FetchedAt(replies, fetches - 1) && !KeepsWaiting(last)
    ensures WaitSpec(replies) == WaitTrace(fetches, last)
  {
    KeptWaitingAll(replies, fetches - 1);
    WaitFromIsFirstReady(replies, 0, fetches - 1);
  }

  /** A server that reports NOT_READY for every pending reply keeps `wait`
      polling until the replies run out; the model's wait then ends with the
      connection failure (the source would go on polling). */
  lemma WaitOutlastsNotReady(replies: seq<Reply>)
    requires forall j :: 0 <= j < |replies| ==> KeepsWaiting(FetchedAt(replies, j))
    ensures WaitSpec(replies) == WaitTrace(|replies| + 1, Err(Unreachable))
  {
    WaitFromIsFirstReady(replies, 0, |replies|);
  }

  /** not_started, starting, idle: three fetches, two sleeps of 100 and 200
      ms, and the idle snapshot. */
  lemma WaitExample(id: int)
    ensures
      var replies := [Reply(200, ToJson(Session(id, NotStarted))),
                      Reply(200, ToJson(Session(id, Starting))),
                      Reply(201, ToJson(Session(id, Idle)))];
      WaitSpec(replies) == WaitTrace(3, Ok(Session(id, Idle))) &&
      Prefix(PollStart, PollRest, 3 - 1) == [100, 200]
  {
    var replies := [Reply(200, ToJson(Session(id, NotStarted))),
                    Reply(200, ToJson(Session(id, Starting))),
                    Reply(201, ToJson(Session(id, Idle)))];
    FromJsonRoundTrip(Session(id, NotStarted), map[]);
    FromJsonRoundTrip(Session(id, Starting), map[]);
    FromJsonRoundTrip(Session(id, Idle), map[]);
    assert FetchedAt(replies, 0) == Ok(Session(id, NotStarted));
    assert FetchedAt(replies, 1) == Ok(Session(id, Starting));
    assert FetchedAt(replies, 2) == Ok(Session(id, Idle));
    WaitFromIsFirstReady(replies, 0, 2);
  }

  /** The remote Livy service. */
  class LivyServer {
    var replies: seq<Reply>
    var log: seq<HttpRequest>

    constructor (replies: seq<Reply>)
      ensures this.replies == replies && log == []
    {
      this.replies := replies;
      log := [];
    }

    /** Receives one request and answers with the next pending reply. */
    method Exchange(req: HttpRequest) returns (r: Result<Json, LivyError>)
      modifies this
      ensures log == old(log) + [req]
      ensures r == Answer(old(replies)) && replies == Drop(old(replies), 1)
    {
      log := log + [req];
      if replies == [] {
        r := Err(Unreachable);
      } else {
        r := Respond(replies[0]);
        replies := replies[1..];
      }
    }
  }

  /** A `requests.Session`: all the model needs of it is how often it was closed. */
  class HttpSession {
    var closeCalls: nat

    constructor ()
      ensures closeCalls == 0
    {
      closeCalls := 0;
    }

    method Close()
      modifies this
      ensures closeCalls == old(closeCalls) + 1
    {
      closeCalls := closeCalls + 1;
    }
  }

  /** `time.sleep`, recording each requested pause. */
  class Clock {
    var slept: seq<nat>

    constructor ()
      ensures slept == []
    {
      slept := [];
    }

    method Sleep(ms: nat)
      modifies this
      ensures slept == old(slept) + [ms]
    {
      slept := slept + [ms];
    }
  }

  class LivyClient {
    const url: string
    const session: HttpSession
    const managedSession: bool
    const server: LivyServer

    /** A client owns its HTTP session exactly when none was supplied. */
    constructor (url: string, requestsSession: HttpSession?, server: LivyServer)
      ensures this.url == url && this.server == server
      ensures managedSession <==> requestsSession == null
      ensures requestsSession != null ==> session == requestsSession
      ensures requestsSession == null ==> fresh(session) && session.closeCalls == 0
    {
      this.url := url;
      this.server := server;
      if requestsSession == null {
        session := new HttpSession();
        managedSession := true;
      } else {
        session := requestsSession;
        managedSession := false;
      }
    }

    /** Closes the HTTP session only if this client created it. */
    method Close()
      modifies session
      ensures session.closeCalls == old(session.closeCalls) + (if managedSession then 1 else 0)
    {
      if managedSession {
        session.Close();
      }
    }

    /** `_request`: one request to the base URL joined with the endpoint. */
    method Request(verb: Verb, endpoint: string, data: Option<Json>)
      returns (r: Result<Json, LivyError>)
      modifies server
      ensures server.log == old(server.log) + [HttpRequest(verb, RequestUrl(url, endpoint), data)]
      ensures r == Answer(old(server.replies)) && server.replies == Drop(old(server.replies), 1)
    {
      r := server.Exchange(HttpRequest(verb, RequestUrl(url, endpoint), data));
    }

    method Get(endpoint: string := "") returns (r: Result<Json, LivyError>)
      modifies server
      ensures server.log == old(server.log) + [HttpRequest(GET, RequestUrl(url, endpoint), None)]
      ensures r == Answer(old(server.replies)) && server.replies == Drop(old(server.replies), 1)
    {
      r := Request(GET, endpoint, None);
    }

    method Post(endpoint: string, data: Option<Json> := None) returns (r: Result<Json, LivyError>)
      modifies server
      ensures server.log == old(server.log) + [HttpRequest(POST, RequestUrl(url, endpoint), data)]
      ensures r == Answer(old(server.replies)) && server.replies == Drop(old(server.replies), 1)
    {
      r := Request(POST, endpoint, data);
    }

    method Delete(endpoint: string := "") returns (r: Result<Json, LivyError>)
      modifies server
      ensures server.log == old(server.log) + [HttpRequest(DELETE, RequestUrl(url, endpoint), None)]
      ensures r == Answer(old(server.replies)) && server.replies == Drop(old(server.replies), 1)
    {
      r := Request(DELETE, endpoint, None);
    }

    /** `server_version`: the `version` field of `GET /version`. */
    method ServerVersion() returns (r: Result<Json, LivyError>)
      modifies server
      ensures server.log == old(server.log) + [HttpRequest(GET, RequestUrl(url, "/version"), None)]
      ensures server.replies == Drop(old(server.replies), 1)
      ensures var a := Answer(old(server.replies));
        (a.Err? ==> r == Err(a.error)) &&
        (a.Ok? && a.value.JObject? && "version" in a.value.fields ==> r == Ok(a.value.fields["version"])) &&
        (a.Ok? && !(a.value.JObject? && "version" in a.value.fields) ==> r == Err(MissingVersion))
    {
      var body := Get("/version");
      if body.Err? {
        return Err(body.error);
      }
      if body.value.JObject? && "version" in body.value.fields {
        r := Ok(body.value.fields["version"]);
      } else {
        r := Err(MissingVersion);
      }
    }

    /** `create_session`: POST the payload to `/sessions`, read the snapshot. */
    method CreateSession(request: SessionRequest) returns (r: Result<Session, LivyError>)
      modifies server
      ensures server.log == old(server.log) +
        [HttpRequest(POST, RequestUrl(url, "/sessions"), Some(CreateSessionPayload(request)))]
      ensures r == ReadSession(Answer(old(server.replies)))
      ensures server.replies == Drop(old(server.replies), 1)
    {
      var body := Post("/sessions", Some(CreateSessionPayload(request)));
      r := ReadSession(body);
    }

    /** `get_session`: GET the session path, read the snapshot. */
    method GetSession(id: int) returns (r: Result<Session, LivyError>)
      modifies server
      ensures server.log == old(server.log) + [HttpRequest(GET, RequestUrl(url, SessionPath(id)), None)]
      ensures r == ReadSession(Answer(old(server.replies)))
      ensures server.replies == Drop(old(server.replies), 1)
    {
      var body := Get(SessionPath(id));
      r := ReadSession(body);
    }
  }

  class LivySession {
    const client: LivyClient
    var id: int

    constructor (client: LivyClient, id: int)
      ensures this.client == client && this.id == id
    {
      this.client := client;
      this.id := id;
    }

    /** `LivySession(...)`: a client owning its HTTP session, a created
        session, and a completed wait. */
    static method Start(url: string, request: SessionRequest, server: LivyServer, clock: Clock)
      returns (r: Result<LivySession, LivyError>)
      modifies server, clock
      ensures var created := ReadSession(Answer(old(server.replies)));
        var post := HttpRequest(POST, RequestUrl(url, "/sessions"), Some(CreateSessionPayload(request)));
        if created.Err? then
          r == Err(created.error) &&
          server.log == old(server.log) + [post] &&
          server.replies == Drop(old(server.replies), 1) &&
          clock.slept == old(clock.slept)
        else
          var t := WaitSpec(Drop(old(server.replies), 1));
          server.log == old(server.log) + [post] +
            Repeat(HttpRequest(GET, RequestUrl(url, SessionPath(created.value.id)), None), t.fetches) &&
          server.replies == Drop(old(server.replies), 1 + t.fetches) &&
          clock.slept == old(clock.slept) + Prefix(PollStart, PollRest, t.fetches - 1) &&
          (r.Ok? <==> t.outcome.Ok?) &&
          (r.Err? ==> r.error == t.outcome.error) &&
          (r.Ok? ==>
             fresh(r.value) && fresh(r.value.client) && fresh(r.value.client.session) &&
             r.value.client.url == url && r.value.client.server == server &&
             r.value.client.managedSession && r.value.client.session.closeCalls == 0 &&
             r.value.id == t.outcome.value.id)
    {
      var client := new LivyClient(url, null, server);
      var created := client.CreateSession(request);
      if created.Err? {
        return Err(created.error);
      }
      var session := new LivySession(client, created.value.id);
      var waited := session.Wait(clock);
      if waited.Err? {
        return Err(waited.error);
      }
      r := Ok(session);
    }

    /** The `state` property: always a fresh fetch. */
    method State() returns (r: Result<SessionState, LivyError>)
      modifies client.server
      ensures client.server.log ==
        old(client.server.log) + [HttpRequest(GET, RequestUrl(client.url, SessionPath(id)), None)]
      ensures client.server.replies == Drop(old(client.server.replies), 1)
      ensures var fetched := ReadSession(Answer(old(client.server.replies)));
        (fetched.Ok? ==> r == Ok(fetched.value.state)) &&
        (fetched.Err? ==> r == Err(fetched.error))
    {
      var fetched := client.GetSession(id);
      if fetched.Err? {
        return Err(fetched.error);
      }
      r := Ok(fetched.value.state);
    }

    /** `wait`: fetch the state; while it is NOT_READY, sleep the next
        interval of the schedule and fetch again. On success the session's id
        is taken from the last snapshot. */
    method Wait(clock: Clock) returns (r: Result<Session, LivyError>)
      modifies this, client.server, clock
      ensures var t := WaitSpec(old(client.server.replies));
        r == t.outcome &&
        client.server.log == old(client.server.log) +
          Repeat(HttpRequest(GET, RequestUrl(client.url, SessionPath(old(id))), None), t.fetches) &&
        client.server.replies == Drop(old(client.server.replies), t.fetches) &&
        clock.slept == old(clock.slept) + Prefix(PollStart, PollRest, t.fetches - 1)
      ensures r.Ok? ==> r.value.state !in NotReady && id == r.value.id
      ensures r.Err? ==> id == old(id)
    {
      ghost var replies0 := client.server.replies;
      ghost var log0 := client.server.log;
      r := client.GetSession(id);
      ghost var fetches;
      r, fetches := PollWhileNotReady(clock, r, replies0, log0);
      if r.Ok? {
        id := r.value.id;
      }
    }

    /** The loop of `wait`, entered with the first fetch's result: while the
        last snapshot is NOT_READY, sleep the next interval of a fresh
        schedule and fetch again. */
    method PollWhileNotReady(clock: Clock, first: Result<Session, LivyError>, ghost replies0: seq<Reply>,
                             ghost log0: seq<HttpRequest>)
      returns (r: Result<Session, LivyError>, ghost fetches: nat)
      requires first == ReadSession(Answer(replies0))
      requires client.server.replies == Drop(replies0, 1)
      requires client.server.log == log0 + [HttpRequest(GET, RequestUrl(client.url, SessionPath(id)), None)]
      modifies client.server, clock
      ensures fetches == WaitSpec(replies0).fetches && r == WaitSpec(replies0).outcome
      ensures r.Ok? ==> r.value.state !in NotReady
      ensures client.server.log == log0 + Repeat(HttpRequest(GET, RequestUrl(client.url, SessionPath(id)), None), fetches)
      ensures client.server.replies == Drop(replies0, fetches)
      ensures clock.slept == old(clock.slept) + Prefix(PollStart, PollRest, fetches - 1)
    {
      ghost var slept0 := clock.slept;
      ghost var fetch := HttpRequest(GET, RequestUrl(client.url, SessionPath(id)), None);
      var intervals := new PollingSchedule(PollStart, PollRest, None);
      assert Drop(replies0, 0) == replies0;
      assert Repeat(fetch, 1) == [fetch];
      r := first;
      fetches := 1;
      while KeepsWaiting(r)
        invariant intervals.Valid()
        invariant intervals.start == PollStart && intervals.rest == PollRest
        invariant intervals.maxDuration == None && intervals.position == fetches - 1
        invariant 1 <= fetches <= |replies0| + 1
        invariant client.server.replies == Drop(replies0, fetches)
        invariant client.server.log == log0 + Repeat(fetch, fetches)
        invariant clock.slept == slept0 + intervals.Emitted()
        invariant r == FetchedAt(replies0, fetches - 1)
        invariant KeptWaiting(replies0, fetches - 1)
        decreases |replies0| + 1 - fetches
      {
        KeepsWaitingHadReply(replies0, fetches - 1, r);
        DropOneMore(replies0, fetches);
        RepeatOneMore(log0, fetch, fetches);
        ghost var emitted := intervals.Emitted();
        ghost var pause;
        r, pause := PollAgain(intervals, clock);
        AppendOneMore(slept0, emitted, pause);
        fetches := fetches + 1;
      }
      WaitEndsAsSpecified(replies0, fetches, r);
      PausesSoFar(intervals, fetches - 1);
    }

    /** One round of the `wait` loop: sleep the schedule's next interval,
        then fetch the session again. */
    method PollAgain(intervals: PollingSchedule, clock: Clock)
      returns (r: Result<Session, LivyError>, ghost pause: nat)
      requires intervals.Valid() && intervals.maxDuration.None?
      modifies intervals, clock, client.server
      ensures intervals.Valid() && intervals.position == old(intervals.position) + 1
      ensures pause == IntervalAt(intervals.start, intervals.rest, old(intervals.position))
      ensures clock.slept == old(clock.slept) + [pause]
      ensures intervals.Emitted() == old(intervals.Emitted()) + [pause]
      ensures client.server.log ==
        old(client.server.log) + [HttpRequest(GET, RequestUrl(client.url, SessionPath(id)), None)]
      ensures r == ReadSession(Answer(old(client.server.replies)))
      ensures client.server.replies == Drop(old(client.server.replies), 1)
    {
      var interval := intervals.Next();
      clock.Sleep(interval.value);
      r := client.GetSession(id);
      pause := interval.value;
    }

    /** `close`: DELETE the session, then release the client. A failed DELETE
        raises before the client is released. */
    method Close() returns (r: Result<(), LivyError>)
      modifies client.server, client.session
      ensures client.server.log ==
        old(client.server.log) + [HttpRequest(DELETE, RequestUrl(client.url, SessionPath(id)), None)]
      ensures client.server.replies == Drop(old(client.server.replies), 1)
      ensures r.Ok? <==> Answer(old(client.server.replies)).Ok?
      ensures r.Err? ==> r.error == Answer(old(client.server.replies)).error
      ensures client.session.closeCalls ==
        old(client.session.closeCalls) + (if r.Ok? && client.managedSession then 1 else 0)
    {
      var deleted := client.Delete(SessionPath(id));
      if deleted.Err? {
        return Err(deleted.error);
      }
      client.Close();
      r := Ok(());
    }
  }
}
