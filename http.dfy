/** `httpCall` (api/src/common/http.ts): how the request of an `http` node is derived
    from the node's configuration and the activity input, and how the response becomes
    the activity output. `fetch`, the abort timer and `JSON.parse` are parameters. */
module Http {
  import opened Wrappers
  import opened Text
  import opened Json

  /** What is handed to `fetch`: the body is the value that is JSON-encoded, or None
      when no body is sent. */
  datatype Request = Request(url: Json, httpMethod: string, headers: map<string, Json>, body: Option<Json>)

  /** A response: its status code and its text. */
  datatype Response = Response(status: int, text: string)

  /** `res.ok`. */
  predicate IsOk(status: int)
  {
    200 <= status <= 299
  }

  const DefaultHeaders: map<string, Json> := map["content-type" := JStr("application/json")]
  const UrlRequired := "http.url required"
  /** What V8 says when `toUpperCase` is called on a method that is not a string. */
  const MethodNotString := "(cfg.method || \"POST\").toUpperCase is not a function"

  /** Steps 1 to 6 of `httpCall`: url, method, headers, body, then the url check.
      `cfg` is the node's `data || {}`, so never null. */
  function BuildRequest(cfg: Json, input: Json): (r: Result<Request, Thrown>)
    requires !Nullish(cfg)
    ensures r.Ok? <==> Or(Member(cfg, "method"), JStr("POST")).JStr? && Truthy(Or(Member(cfg, "url"), Field(input, "url")))
    ensures !Or(Member(cfg, "method"), JStr("POST")).JStr? ==> r == Err(TypeErrorOf(MethodNotString))
    ensures (Or(Member(cfg, "method"), JStr("POST")).JStr? && !Truthy(Or(Member(cfg, "url"), Field(input, "url"))))
              ==> r == Err(ErrorOf(UrlRequired))
    ensures r.Ok? ==> r.value.httpMethod == AsciiUpper(Or(Member(cfg, "method"), JStr("POST")).s)
    ensures r.Ok? ==> r.value.headers == DefaultHeaders + Spread(Or(Member(cfg, "headers"), JObj(map[])))
    ensures r.Ok? ==> (r.value.body.None? <==> r.value.httpMethod in {"GET", "HEAD"})
    ensures r.Ok? ==> r.value.url == Or(Member(cfg, "url"), Field(input, "url")) && Truthy(r.value.url)
    ensures r.Ok? && r.value.body.Some? ==>
              r.value.body.value == Coalesce(Member(cfg, "body"), Coalesce(Field(input, "body"), input))
  {
    var url := Or(Member(cfg, "url"), Field(input, "url"));
    var m := Or(Member(cfg, "method"), JStr("POST"));
    if !m.JStr? then Err(TypeErrorOf(MethodNotString))
    else
      var verb := AsciiUpper(m.s);
      var headers := DefaultHeaders + Spread(Or(Member(cfg, "headers"), JObj(map[])));
      var body := Coalesce(Member(cfg, "body"), Coalesce(Field(input, "body"), input));
      if !Truthy(url) then Err(ErrorOf(UrlRequired))
      else Ok(Request(url, verb, headers, if verb in {"GET", "HEAD"} then None else Some(body)))
  }

  /** The response handling: the text parsed as JSON, or `{text}` when it does not parse;
      a status outside 2xx throws with the first 300 characters of the text. */
  function InterpretResponse(res: Response, parse: string -> Option<Json>): (r: Result<Json, Thrown>)
    ensures r.Err? <==> !IsOk(res.status)
    ensures r.Err? ==> r.error == ErrorOf("HTTP " + IntToDecimal(res.status) + ": " + Prefix(res.text, 300))
    ensures r.Ok? ==> r.value.JObj?
    ensures r.Ok? && parse(res.text).None? ==> r.value == JObj(map["text" := JStr(res.text)])
    ensures r.Ok? && parse(res.text).Some? ==> r.value == JObj(Spread(parse(res.text).value))
  {
    var data := match parse(res.text) case Some(d) => d case None => JObj(map["text" := JStr(res.text)]);
    if !IsOk(res.status) then Err(ErrorOf("HTTP " + IntToDecimal(res.status) + ": " + Prefix(res.text, 300)))
    else Ok(JObj(Spread(data)))
  }

  /** `httpCall(cfg, input)` with `fetch` given: a failing fetch (network error, abort,
      unreadable body) passes its error through. */
  function HttpCall(cfg: Json, input: Json, fetch: Request -> Result<Response, Thrown>,
                    parse: string -> Option<Json>): (r: Result<Json, Thrown>)
    requires !Nullish(cfg)
    ensures BuildRequest(cfg, input).Err? ==> r == Err(BuildRequest(cfg, input).error)
    ensures (BuildRequest(cfg, input).Ok? && fetch(BuildRequest(cfg, input).value).Err?)
              ==> r == Err(fetch(BuildRequest(cfg, input).value).error)
    ensures (BuildRequest(cfg, input).Ok? && fetch(BuildRequest(cfg, input).value).Ok?)
              ==> r == InterpretResponse(fetch(BuildRequest(cfg, input).value).value, parse)
    ensures r.Ok? ==> BuildRequest(cfg, input).Ok? && fetch(BuildRequest(cfg, input).value).Ok?
                      && IsOk(fetch(BuildRequest(cfg, input).value).value.status) && r.value.JObj?
    ensures r.Err? ==> BuildRequest(cfg, input).Err? || fetch(BuildRequest(cfg, input).value).Err?
                       || !IsOk(fetch(BuildRequest(cfg, input).value).value.status)
  {
    match BuildRequest(cfg, input)
    case Err(e) => Err(e)
    case Ok(req) =>
      match fetch(req)
      case Err(e) => Err(e)
      case Ok(res) => InterpretResponse(res, parse)
  }

  /** Without a url nothing is sent: the outcome does not depend on `fetch`. */
  lemma UrlMissingSendsNothing(cfg: Json, input: Json, f1: Request -> Result<Response, Thrown>,
                               f2: Request -> Result<Response, Thrown>, parse: string -> Option<Json>)
    requires !Nullish(cfg) && !Truthy(Or(Member(cfg, "url"), Field(input, "url")))
    ensures HttpCall(cfg, input, f1, parse) == HttpCall(cfg, input, f2, parse)
    ensures HttpCall(cfg, input, f1, parse).Err?
  {
  }

  /** An empty `cfg.url` falls through to the input's url, whatever it is: the request
      is built exactly when that url is truthy, and then goes to it. */
  lemma EmptyUrlFallsThrough(cfg: Json, input: Json)
    requires cfg.JObj? && "url" in cfg.fields && cfg.fields["url"] == JStr("")
    requires Member(cfg, "method").JUndefined?
    ensures BuildRequest(cfg, input).Ok? <==> Truthy(Field(input, "url"))
    ensures BuildRequest(cfg, input).Ok? ==> BuildRequest(cfg, input).value.url == Field(input, "url")
  {
  }

  /** The default method is POST, so the body is sent; the ordering of the fallbacks is
      `cfg.body`, then `input.body`, then the whole input. */
  lemma DefaultMethodSendsBody(cfg: Json, input: Json)
    requires cfg.JObj? && "method" !in cfg.fields && "body" !in cfg.fields
    requires Truthy(Or(Member(cfg, "url"), Field(input, "url")))
    ensures var r := BuildRequest(cfg, input);
            r.Ok? && r.value.httpMethod == "POST" && r.value.body == Some(Coalesce(Field(input, "body"), input))
  {
    assert AsciiUpper("POST") == "POST";
  }

  /** Headers given in the configuration override the default content type, and the
      default stays when they do not mention it. */
  lemma HeadersOverride(cfg: Json, input: Json, k: string)
    requires !Nullish(cfg) && BuildRequest(cfg, input).Ok?
    requires Member(cfg, "headers").JObj?
    ensures var h := BuildRequest(cfg, input).value.headers;
            (k in Member(cfg, "headers").fields ==> h[k] == Member(cfg, "headers").fields[k])
            && ("content-type" !in Member(cfg, "headers").fields ==> h["content-type"] == JStr("application/json"))
  {
  }

  /** Lower-case methods are sent upper-cased, and a `get` carries no body. */
  lemma LowerCaseGet(cfg: Json, input: Json)
    requires cfg.JObj? && "method" in cfg.fields && cfg.fields["method"] == JStr("get")
    requires Truthy(Or(Member(cfg, "url"), Field(input, "url")))
    ensures BuildRequest(cfg, input).Ok? && BuildRequest(cfg, input).value.httpMethod == "GET"
    ensures BuildRequest(cfg, input).value.body.None?
  {
    assert AsciiUpper("get") == "GET";
  }

  /** A successful JSON object response is passed on with the same fields. */
  lemma ObjectResponse(res: Response, parse: string -> Option<Json>)
    requires IsOk(res.status) && parse(res.text).Some? && parse(res.text).value.JObj?
    ensures InterpretResponse(res, parse) == Ok(parse(res.text).value)
  {
  }

  /** The error message of a failed response carries the status and the text, cut to
      its first 300 characters. */
  lemma ErrorMessageBound(res: Response, parse: string -> Option<Json>)
    requires !IsOk(res.status)
    ensures var head := "HTTP " + IntToDecimal(res.status) + ": ";
            var m := InterpretResponse(res, parse).error.message.value;
            StartsWith(m, head) && |m| <= |head| + 300
            && (|res.text| <= 300 ==> m == head + res.text)
            && (|res.text| > 300 ==> m == head + res.text[..300])
  {
    var head := "HTTP " + IntToDecimal(res.status) + ": ";
    var m := head + Prefix(res.text, 300);
    assert m[..|head|] == head;
  }
}
