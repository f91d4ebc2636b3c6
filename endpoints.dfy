/** How the Livy client names things on the wire: the request URL built from
    the base URL and an endpoint, the session and statement paths, and the
    body of a session-creation request. */
module Endpoints {
  import opened Wrappers
  import opened JsonValues

  /** `s.rstrip("/")`. */
  function TrimTrailingSlashes(s: string): (r: string)
    ensures r <= s
    ensures r == [] || r[|r| - 1] != '/'
    ensures forall i :: |r| <= i < |s| ==> s[i] == '/'
  {
    if |s| > 0 && s[|s| - 1] == '/' then TrimTrailingSlashes(s[..|s| - 1]) else s
  }

  /** The URL `_request` sends to: the base with its trailing '/' removed,
      then the endpoint. */
  function RequestUrl(base: string, endpoint: string): string {
    TrimTrailingSlashes(base) + endpoint
  }

  /** The URL is the base with every trailing '/' removed, followed by the
      endpoint: it ends in the endpoint, whatever precedes the endpoint is a
      prefix of the base that ends in something other than '/', and what it
      leaves out of the base is only '/'. */
  lemma RequestUrlShape(base: string, endpoint: string)
    ensures |endpoint| <= |RequestUrl(base, endpoint)|
    ensures var url := RequestUrl(base, endpoint);
      var head := url[..|url| - |endpoint|];
      url[|url| - |endpoint|..] == endpoint &&
      head <= base &&
      (head == [] || head[|head| - 1] != '/') &&
      (forall i :: |head| <= i < |base| ==> base[i] == '/')
  {
    var head := TrimTrailingSlashes(base);
    assert (head + endpoint)[..|head|] == head;
    assert (head + endpoint)[|head|..] == endpoint;
  }

  /** Extra trailing slashes on the base URL make no difference. */
  lemma {:induction false} RequestUrlIgnoresTrailingSlash(base: string, endpoint: string)
    ensures RequestUrl(base + "/", endpoint) == RequestUrl(base, endpoint)
  {
    assert (base + "/")[..|base|] == base;
  }

  function DigitChar(d: nat): char
    requires d < 10
  {
    ('0' as int + d) as char
  }

  predicate IsDigit(c: char) {
    '0' <= c <= '9'
  }

  /** Decimal digits of n, most significant first, without leading zeros. */
  function NatDigits(n: nat): (r: string)
    ensures |r| >= 1
    ensures forall i :: 0 <= i < |r| ==> IsDigit(r[i])
    ensures n == 0 ==> r == "0"
    ensures n > 0 ==> r[0] != '0'
  {
    if n < 10 then [DigitChar(n)] else NatDigits(n / 10) + [DigitChar(n % 10)]
  }

  /** `str(n)` / `"{}".format(n)` for a Python int: a minus sign for a
      negative id, then its decimal digits. */
  function IdString(id: int): string {
    if id < 0 then "-" + NatDigits(-id) else NatDigits(id)
  }

  function DigitsValue(s: string): nat
    requires forall i :: 0 <= i < |s| ==> IsDigit(s[i])
  {
    if s == [] then 0
    else
      assert IsDigit(s[|s| - 1]);
      DigitsValue(s[..|s| - 1]) * 10 + (s[|s| - 1] as int - '0' as int)
  }

  /** Reads back an integer written by `IdString`. */
  function ParseId(s: string): Option<int> {
    if |s| >= 2 && s[0] == '-' && forall i :: 1 <= i < |s| ==> IsDigit(s[i]) then
      var magnitude: int := DigitsValue(s[1..]);
      Some(-magnitude)
    else if |s| >= 1 && forall i :: 0 <= i < |s| ==> IsDigit(s[i]) then
      Some(DigitsValue(s))
    else None
  }

  lemma {:induction false} DigitsRoundTrip(n: nat)
    ensures DigitsValue(NatDigits(n)) == n
  {
    if n >= 10 {
      var ds := NatDigits(n / 10);
      assert (ds + [DigitChar(n % 10)])[..|ds|] == ds;
      DigitsRoundTrip(n / 10);
    }
  }

  /** The decimal text of any integer id reads back as that id. */
  lemma IdRoundTrip(id: int)
    ensures ParseId(IdString(id)) == Some(id)
  {
    if id >= 0 {
      DigitsRoundTrip(id);
      return;
    }
    var n: nat := -id;
    var digits := NatDigits(n);
    var s := "-" + digits;
    assert s[1..] == digits;
    assert forall i :: 1 <= i < |s| ==> IsDigit(s[i]) by {
      forall i | 1 <= i < |s| ensures IsDigit(s[i]) {
        assert s[i] == digits[i - 1];
      }
    }
    DigitsRoundTrip(n);
  }

  /** `_session_url`: the fixed prefix, then the id. */
  function SessionPath(id: int): string {
    "/sessions/" + IdString(id)
  }

  /** `_statements_url`: the statements collection under the session path;
      the id between the fixed parts reads back. */
  function StatementsPath(id: int): (p: string)
    ensures |p| >= 21 && p[..10] == "/sessions/" && p[|p| - 11..] == "/statements"
    ensures ParseId(p[10..|p| - 11]) == Some(id)
  {
    var p := SessionPath(id) + "/statements";
    assert p[10..|p| - 11] == IdString(id);
    IdRoundTrip(id);
    p
  }

  /** `_statement_url`: one statement under the statements path; the
      statement id after it reads back. */
  function StatementPath(id: int, statementId: int): (p: string)
    ensures |p| > |StatementsPath(id)| &&
            p[..|StatementsPath(id)| + 1] == StatementsPath(id) + "/"
    ensures ParseId(p[|StatementsPath(id)| + 1..]) == Some(statementId)
  {
    var p := StatementsPath(id) + "/" + IdString(statementId);
    assert p[|StatementsPath(id)| + 1..] == IdString(statementId);
    IdRoundTrip(statementId);
    p
  }

  /** Reads the session id back out of a session path. */
  function SessionIdOf(path: string): Option<int> {
    var prefix := "/sessions/";
    if prefix <= path then ParseId(path[|prefix|..]) else None
  }

  /** A session path names its session: the id is recovered from it, so
      distinct sessions have distinct paths. */
  lemma SessionPathRoundTrip(id: int, other: int)
    ensures SessionIdOf(SessionPath(id)) == Some(id)
    ensures SessionPath(id) == SessionPath(other) ==> id == other
  {
    assert SessionPath(id)[10..] == IdString(id);
    assert SessionPath(other)[10..] == IdString(other);
    IdRoundTrip(id);
    IdRoundTrip(other);
  }

  /** The arguments of `create_session`. */
  datatype SessionRequest = SessionRequest(
    name: string,
    jars: Option<seq<string>>,
    conf: Option<map<string, Json>>,
    pyFiles: Option<seq<string>>,
    files: Option<seq<string>>,
    numExecutors: Option<int>)

  function StringList(l: Option<seq<string>>): Json {
    match l
    case None => JNull
    case Some(xs) => JArray(seq(|xs|, i requires 0 <= i < |xs| => JStr(xs[i])))
  }

  /** The `create_session` payload; Python's None is sent as JSON null. */
  function CreateSessionPayload(req: SessionRequest): (p: Json)
    ensures p.JObject?
    ensures p.fields.Keys == {"name", "jars", "conf", "pyFiles", "files", "numExecutors"}
  {
    JObject(map[
      "name" := JStr(req.name),
      "jars" := StringList(req.jars),
      "conf" := (if req.conf.Some? then JObject(req.conf.value) else JNull),
      "pyFiles" := StringList(req.pyFiles),
      "files" := StringList(req.files),
      "numExecutors" := (if req.numExecutors.Some? then JInt(req.numExecutors.value) else JNull)
    ])
  }

  function ReadStringList(j: Json): Option<Option<seq<string>>> {
    match j
    case JNull => Some(None)
    case JArray(items) =>
      if forall i :: 0 <= i < |items| ==> items[i].JStr? then
        Some(Some(seq(|items|, i requires 0 <= i < |items| => items[i].s)))
      else None
    case _ => None
  }

  /** How the server reads a creation request body. */
  function ReadSessionRequest(p: Json): Option<SessionRequest> {
    if !p.JObject? then None
    else
      var f := p.fields;
      if !("name" in f && "jars" in f && "conf" in f && "pyFiles" in f &&
           "files" in f && "numExecutors" in f) then None
      else if !f["name"].JStr? then None
      else if !(f["conf"].JNull? || f["conf"].JObject?) then None
      else if !(f["numExecutors"].JNull? || f["numExecutors"].JInt?) then None
      else
        var jars := ReadStringList(f["jars"]);
        var pyFiles := ReadStringList(f["pyFiles"]);
        var files := ReadStringList(f["files"]);
        if jars.None? || pyFiles.None? || files.None? then None
        else Some(SessionRequest(
          f["name"].s,
          jars.value,
          if f["conf"].JObject? then Some(f["conf"].fields) else None,
          pyFiles.value,
          files.value,
          if f["numExecutors"].JInt? then Some(f["numExecutors"].i) else None))
  }

  lemma StringListRoundTrip(l: Option<seq<string>>)
    ensures ReadStringList(StringList(l)) == Some(l)
  {
    if l.Some? {
      var items := seq(|l.value|, i requires 0 <= i < |l.value| => JStr(l.value[i]));
      assert seq(|items|, i requires 0 <= i < |items| => items[i].s) == l.value;
    }
  }

  /** The payload carries every argument of `create_session`, under its
      camel-case key, without loss. */
  lemma PayloadRoundTrip(req: SessionRequest)
    ensures ReadSessionRequest(CreateSessionPayload(req)) == Some(req)
  {
    StringListRoundTrip(req.jars);
    StringListRoundTrip(req.pyFiles);
    StringListRoundTrip(req.files);
  }
}
