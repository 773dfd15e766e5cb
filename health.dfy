/** `checkPatroniNode` (api/src/health/health.service.ts): the health URL of a Patroni
    node and the status record built from its answer. `fetch` and `res.json()` are
    parameters. */
module Health {
  import opened Wrappers
  import opened Text
  import opened Json

  /** What `fetch` gives: the status code and the result of `res.json()`, which may
      throw for a body that is not JSON. */
  datatype PatroniResponse = PatroniResponse(status: int, body: Result<Json, Thrown>)

  /** `NodeStatus`: absent optional fields are `undefined`. */
  datatype NodeStatus = NodeStatus(ok: bool, role: Json, state: Json, error: Option<string>)

  predicate IsOk(status: int)
  {
    200 <= status <= 299
  }

  /** Joins `health` to the base url with exactly one slash between them. */
  function HealthUrl(baseUrl: string): (url: string)
    ensures EndsWith(url, "/health")
    ensures StartsWith(url, baseUrl)
    ensures EndsWith(baseUrl, "/") ==> |url| == |baseUrl| + 6
    ensures !EndsWith(baseUrl, "/") ==> |url| == |baseUrl| + 7
  {
    var url := if EndsWith(baseUrl, "/") then baseUrl + "health" else baseUrl + "/health";
    assert url[..|baseUrl|] == baseUrl;
    assert EndsWith(baseUrl, "/") ==> url[|url| - 7..] == baseUrl[|baseUrl| - 1..] + "health";
    url
  }

  /** `body.k` for a body that JSON gives: null throws, everything else has members or
      reads `undefined`. */
  function Read(body: Json, key: string): (r: Result<Json, Thrown>)
    ensures r.Err? <==> Nullish(body)
    ensures r.Ok? ==> r.value == Member(body, key)
  {
    if Nullish(body) then Err(NullAccess(body, key)) else Ok(Member(body, key))
  }

  /** The record for a node that answered. `ok` is read first, and it looks at
      `body.state` only when the status is ok, so a null body fails on `state` after an
      ok status and on `role` otherwise. */
  function StatusOf(status: int, body: Json): (r: Result<NodeStatus, Thrown>)
    ensures r.Err? <==> Nullish(body)
    ensures Nullish(body) && IsOk(status) ==> r == Err(NullAccess(body, "state"))
    ensures Nullish(body) && !IsOk(status) ==> r == Err(NullAccess(body, "role"))
    ensures r.Ok? ==> (r.value.ok <==> IsOk(status) && Member(body, "state") == JStr("running"))
    ensures r.Ok? ==> r.value.role == Member(body, "role") && r.value.state == Member(body, "state")
    ensures r.Ok? ==> (r.value.error.None? <==> IsOk(status))
    ensures r.Ok? && !IsOk(status) ==> r.value.error == Some("status=" + IntToDecimal(status))
  {
    var ok: Result<bool, Thrown> :=
      if !IsOk(status) then Ok(false)
      else match Read(body, "state") case Err(e) => Err(e) case Ok(s) => Ok(s == JStr("running"));
    match ok
    case Err(e) => Err(e)
    case Ok(b) =>
      match Read(body, "role")
      case Err(e) => Err(e)
      case Ok(role) =>
        Ok(NodeStatus(b, role, Member(body, "state"),
                      if IsOk(status) then None else Some("status=" + IntToDecimal(status))))
  }

  /** `checkPatroniNode(baseUrl)`: every failure, from the network, from `res.json()` or
      from reading the body, becomes `{ok: false, error: e?.message ?? String(e)}`. */
  function CheckPatroniNode(baseUrl: string, fetch: string -> Result<PatroniResponse, Thrown>): (r: NodeStatus)
    ensures r.ok ==> fetch(HealthUrl(baseUrl)).Ok? && IsOk(fetch(HealthUrl(baseUrl)).value.status)
    ensures r.ok ==> fetch(HealthUrl(baseUrl)).value.body.Ok?
                     && Member(fetch(HealthUrl(baseUrl)).value.body.value, "state") == JStr("running")
    ensures fetch(HealthUrl(baseUrl)).Err? ==>
              r == NodeStatus(false, JUndefined, JUndefined, Some(MessageOrElse(fetch(HealthUrl(baseUrl)).error)))
    ensures r.ok ==> r.error.None?
    ensures fetch(HealthUrl(baseUrl)).Ok? && fetch(HealthUrl(baseUrl)).value.body.Err? ==>
              r == NodeStatus(false, JUndefined, JUndefined,
                              Some(MessageOrElse(fetch(HealthUrl(baseUrl)).value.body.error)))
    ensures fetch(HealthUrl(baseUrl)).Ok? && fetch(HealthUrl(baseUrl)).value.body.Ok?
            && Nullish(fetch(HealthUrl(baseUrl)).value.body.value) ==>
              var res := fetch(HealthUrl(baseUrl)).value;
              r == NodeStatus(false, JUndefined, JUndefined,
                              Some(MessageOrElse(NullAccess(res.body.value, if IsOk(res.status) then "state" else "role"))))
    ensures fetch(HealthUrl(baseUrl)).Ok? && fetch(HealthUrl(baseUrl)).value.body.Ok?
            && !Nullish(fetch(HealthUrl(baseUrl)).value.body.value) ==>
              var res := fetch(HealthUrl(baseUrl)).value;
              StatusOf(res.status, res.body.value).Ok? && r == StatusOf(res.status, res.body.value).value
  {
    match fetch(HealthUrl(baseUrl))
    case Err(e) => NodeStatus(false, JUndefined, JUndefined, Some(MessageOrElse(e)))
    case Ok(res) =>
      match res.body
      case Err(e) => NodeStatus(false, JUndefined, JUndefined, Some(MessageOrElse(e)))
      case Ok(body) =>
        match StatusOf(res.status, body)
        case Err(e) => NodeStatus(false, JUndefined, JUndefined, Some(MessageOrElse(e)))
        case Ok(st) => st
  }

  /** A healthy answer: 200 with state `running`. */
  lemma RunningNode(baseUrl: string, fetch: string -> Result<PatroniResponse, Thrown>, fields: map<string, Json>)
    requires fetch(HealthUrl(baseUrl)) == Ok(PatroniResponse(200, Ok(JObj(fields))))
    requires "state" in fields && fields["state"] == JStr("running")
    ensures CheckPatroniNode(baseUrl, fetch).ok
    ensures CheckPatroniNode(baseUrl, fetch).role == Member(JObj(fields), "role")
  {
  }

  /** A node that answers with an error status is not ok and names the status, even when
      its body says `running`. */
  lemma ErrorStatus(baseUrl: string, fetch: string -> Result<PatroniResponse, Thrown>, status: int, body: Json)
    requires fetch(HealthUrl(baseUrl)) == Ok(PatroniResponse(status, Ok(body)))
    requires !IsOk(status) && !Nullish(body)
    ensures CheckPatroniNode(baseUrl, fetch) ==
            NodeStatus(false, Member(body, "role"), Member(body, "state"), Some("status=" + IntToDecimal(status)))
  {
  }

  /** Both spellings of a base url reach the same health url. */
  lemma TrailingSlashAgnostic(baseUrl: string)
    requires !EndsWith(baseUrl, "/")
    ensures HealthUrl(baseUrl + "/") == HealthUrl(baseUrl)
  {
    var b := baseUrl + "/";
    assert b[|b| - 1..] == "/";
    assert b + "health" == baseUrl + "/health";
  }
}
