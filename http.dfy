/**
 * http.js: `apiRequest` builds a fetch request with trace-propagation and
 * bearer-token headers, then turns the response into data or an error.
 * The network is the input `fetched` (the settled `fetch` promise);
 * JSON.stringify and JSON.parse are the parameters `stringify` and `parse`
 * (`parse` yields `None` where JSON.parse throws).
 */
module Http {
  import opened Wrappers
  import opened JsValues
  import Strings
  import Sentry

  /** `{ method?, json?, token? }` (`verb` is `method`); `None` / `Undefined` for a missing field. */
  datatype RequestOptions = RequestOptions(verb: Option<string>, json: JsValue, token: Option<string>)

  /** What is handed to `fetch(url, { method, headers, body })`. */
  datatype Request = Request(url: string, verb: string, headers: map<string, string>, body: Option<string>)

  /** A received response: its status line and its body text. */
  datatype Response = Response(status: nat, statusText: string, text: string)

  /** `res.ok`: a status in the range 200 to 299. */
  predicate IsOk(status: nat)
  {
    200 <= status <= 299
  }

  /** The data parsed from the body: null for an empty body, the raw text when JSON.parse fails. */
  function ResponseData(text: string, parse: string -> Option<JsValue>): (data: JsValue)
    ensures text == "" ==> data == Null
    ensures text != "" && parse(text).None? ==> data == Str(text)
    ensures text != "" && parse(text).Some? ==> data == parse(text).value
  {
    if text == "" then Null
    else match parse(text)
      case Some(v) => v
      case None => Str(text)
  }

  /** The error thrown for a non-ok status: `new Error("HTTP <status> <statusText>")`. */
  function StatusError(res: Response): (e: JsValue)
    ensures e.Error? && e.name == "Error"
    ensures e.message == "HTTP " + Strings.NatToString(res.status) + " " + res.statusText
  {
    Error("Error", "HTTP " + Strings.NatToString(res.status) + " " + res.statusText)
  }

  /** How the promise returned by apiRequest settles. */
  function Outcome(fetched: Result<Response, JsValue>, parse: string -> Option<JsValue>): (r: Result<JsValue, JsValue>)
    ensures fetched.Failure? ==> r == Failure(fetched.error)
    ensures fetched.Success? && IsOk(fetched.value.status) ==> r == Success(ResponseData(fetched.value.text, parse))
    ensures fetched.Success? && !IsOk(fetched.value.status) ==> r == Failure(StatusError(fetched.value))
  {
    match fetched
    case Failure(e) => Failure(e)
    case Success(res) =>
      if IsOk(res.status) then Success(ResponseData(res.text, parse)) else Failure(StatusError(res))
  }

  /** The request method: `opts.method || 'GET'`. */
  function MethodOf(opts: RequestOptions): (m: string)
    ensures opts.verb.Some? && opts.verb.value != "" ==> m == opts.verb.value
    ensures opts.verb.None? || opts.verb.value == "" ==> m == "GET"
  {
    if opts.verb.Some? && opts.verb.value != "" then opts.verb.value else "GET"
  }

  /**
   * apiRequest(path, opts).  Returns the options of the `http.client` span it
   * opens, the request handed to fetch, and how its promise settles.
   */
  method ApiRequest(apiUrl: string, path: string, opts: RequestOptions, sdk: Sentry.SdkTraceData,
                    stringify: JsValue -> string, parse: string -> Option<JsValue>,
                    fetched: Result<Response, JsValue>)
    returns (span: Sentry.SpanOptions, req: Request, outcome: Result<JsValue, JsValue>)
    ensures span == Sentry.SpanOptions("http " + req.verb + " " + path, "http.client", true)
    ensures req.url == apiUrl + path
    ensures req.verb == MethodOf(opts)
    // the header map
    ensures "content-type" in req.headers && req.headers["content-type"] == "application/json"
    ensures req.headers.Keys <= {"content-type", "sentry-trace", "baggage", "authorization"}
    ensures "sentry-trace" in req.headers <==> Sentry.GetTraceData(sdk).sentryTrace != ""
    ensures "sentry-trace" in req.headers ==> req.headers["sentry-trace"] == Sentry.GetTraceData(sdk).sentryTrace
    ensures "baggage" in req.headers <==> Sentry.GetTraceData(sdk).baggage != ""
    ensures "baggage" in req.headers ==> req.headers["baggage"] == Sentry.GetTraceData(sdk).baggage
    ensures "authorization" in req.headers <==> opts.token.Some? && opts.token.value != ""
    ensures "authorization" in req.headers ==> req.headers["authorization"] == "Bearer " + opts.token.value
    // the body
    ensures req.body == if Truthy(opts.json) then Some(stringify(opts.json)) else None
    // the settled result
    ensures outcome == Outcome(fetched, parse)
  {
    var verb := if opts.verb.Some? && opts.verb.value != "" then opts.verb.value else "GET";
    var url := apiUrl + path;
    span := Sentry.SpanOptions("http " + verb + " " + path, "http.client", true);

    // the source repeats getTraceData's defaulting inline here
    var td := Sentry.GetTraceData(sdk);
    var headers := map["content-type" := "application/json"];
    if td.sentryTrace != "" {
      headers := headers["sentry-trace" := td.sentryTrace];
    }
    if td.baggage != "" {
      headers := headers["baggage" := td.baggage];
    }
    if opts.token.Some? && opts.token.value != "" {
      headers := headers["authorization" := "Bearer " + opts.token.value];
    }
    var body := if Truthy(opts.json) then Some(stringify(opts.json)) else None;
    req := Request(url, verb, headers, body);

    match fetched
    case Failure(e) =>
      outcome := Failure(e);
    case Success(res) =>
      var data := Null;
      if res.text != "" {
        match parse(res.text)
        case Some(v) =>
          data := v;
        case None =>
          data := Str(res.text);
      }
      if !IsOk(res.status) {
        outcome := Failure(Error("Error", "HTTP " + Strings.NatToString(res.status) + " " + res.statusText));
      } else {
        outcome := Success(data);
      }
  }

  /** An ok response never fails and a non-ok one never yields data. */
  lemma OkIffSuccess(res: Response, parse: string -> Option<JsValue>)
    ensures Outcome(Success(res), parse).Success? <==> IsOk(res.status)
  {
  }

  /** A 401 answer surfaces as the error message `HTTP 401 Unauthorized`. */
  lemma UnauthorizedMessage(text: string, parse: string -> Option<JsValue>)
    ensures Outcome(Success(Response(401, "Unauthorized", text)), parse)
         == Failure(Error("Error", "HTTP 401 Unauthorized"))
  {
    assert Strings.NatToString(4) == "4";
    assert Strings.NatToString(40) == "40";
    assert Strings.NatToString(401) == "401";
    assert "HTTP " + "401" + " " + "Unauthorized" == "HTTP 401 Unauthorized";
  }
}
