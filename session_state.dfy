/** The Livy session-state vocabulary: the closed enumeration of lifecycle
    states, their wire names, the two fixed classification sets, and the
    `Session` snapshot parsed from a server reply. */
module SessionStates {
  import opened Wrappers
  import opened JsonValues

  datatype SessionState =
    | NotStarted
    | Starting
    | Recovering
    | Idle
    | Running
    | Busy
    | ShuttingDown
    | Error
    | Dead
    | Killed
    | Success

  /** The string the server uses for each state. */
  function WireName(s: SessionState): string {
    match s
    case NotStarted => "not_started"
    case Starting => "starting"
    case Recovering => "recovering"
    case Idle => "idle"
    case Running => "running"
    case Busy => "busy"
    case ShuttingDown => "shutting_down"
    case Error => "error"
    case Dead => "dead"
    case Killed => "killed"
    case Success => "success"
  }

  /** Enum lookup by value: `SessionState(w)`; `None` where Python raises ValueError. */
  function ParseState(w: string): (r: Option<SessionState>)
    ensures r.Some? ==> WireName(r.value) == w
  {
    if w == "not_started" then Some(NotStarted)
    else if w == "starting" then Some(Starting)
    else if w == "recovering" then Some(Recovering)
    else if w == "idle" then Some(Idle)
    else if w == "running" then Some(Running)
    else if w == "busy" then Some(Busy)
    else if w == "shutting_down" then Some(ShuttingDown)
    else if w == "error" then Some(Error)
    else if w == "dead" then Some(Dead)
    else if w == "killed" then Some(Killed)
    else if w == "success" then Some(Success)
    else None
  }

  lemma ParseWireName(s: SessionState)
    ensures ParseState(WireName(s)) == Some(s)
  {
    match s
    case NotStarted =>
    case Starting =>
    case Recovering =>
    case Idle =>
    case Running =>
    case Busy =>
    case ShuttingDown =>
    case Error =>
    case Dead =>
    case Killed =>
    case Success =>
  }

  /** Parsing accepts exactly the wire names, each for its own state. */
  lemma ParseStateExactly(w: string, s: SessionState)
    ensures ParseState(w) == Some(s) <==> WireName(s) == w
  {
    ParseWireName(s);
  }

  /** States in which a caller must keep waiting. */
  const NotReady: set<SessionState> := {NotStarted, Starting}

  /** Terminal states. */
  const Finished: set<SessionState> := {Error, Dead, Killed, Success}

  lemma StateClasses(s: SessionState)
    ensures s in NotReady <==> s == NotStarted || s == Starting
    ensures s in Finished <==> s == Error || s == Dead || s == Killed || s == Success
    ensures !(s in NotReady && s in Finished)
    ensures s !in NotReady && s !in Finished <==>
              s == Recovering || s == Idle || s == Running || s == Busy || s == ShuttingDown
  {
  }

  /** A point-in-time snapshot of one remote session. */
  datatype Session = Session(id: int, state: SessionState)

  /** Why a reply body is not a session snapshot. */
  datatype SnapshotError =
    | NotAnObject          // `data["id"]` on a non-dict: TypeError
    | MissingKey(key: string)   // KeyError
    | UnknownState         // `SessionState(...)` raises ValueError
    | IdNotAnInteger       // the model types `id` as an integer

  /** `Session.from_json`: `id` first, then `state`, as Python evaluates them. */
  function FromJson(data: Json): (r: Result<Session, SnapshotError>)
    ensures !data.JObject? ==> r == Err(NotAnObject)
    ensures data.JObject? && "id" !in data.fields ==> r == Err(MissingKey("id"))
    ensures data.JObject? && "id" in data.fields && "state" !in data.fields ==>
              r == Err(MissingKey("state"))
    ensures data.JObject? && "id" in data.fields && "state" in data.fields &&
            (!data.fields["state"].JStr? || ParseState(data.fields["state"].s).None?) ==>
              r == Err(UnknownState)
    ensures r.Ok? ==>
              data.JObject? &&
              data.fields["id"] == JInt(r.value.id) &&
              data.fields["state"] == JStr(WireName(r.value.state))
  {
    if !data.JObject? then Err(NotAnObject)
    else if "id" !in data.fields then Err(MissingKey("id"))
    else if "state" !in data.fields then Err(MissingKey("state"))
    else
      var st := data.fields["state"];
      var parsed := if st.JStr? then ParseState(st.s) else None;
      if parsed.None? then Err(UnknownState)
      else if !data.fields["id"].JInt? then Err(IdNotAnInteger)
      else Ok(Session(data.fields["id"].i, parsed.value))
  }

  /** The server's representation of a snapshot. */
  function ToJson(s: Session): Json {
    JObject(map["id" := JInt(s.id), "state" := JStr(WireName(s.state))])
  }

  /** Parsing a snapshot copies `id` unchanged and recovers the state, and
      keys other than `id` and `state` are ignored. */
  lemma FromJsonRoundTrip(s: Session, extra: map<string, Json>)
    ensures FromJson(ToJson(s)) == Ok(s)
    ensures FromJson(JObject(extra + ToJson(s).fields)) == Ok(s)
  {
    ParseWireName(s.state);
  }
}
