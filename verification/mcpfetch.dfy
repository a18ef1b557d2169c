/** `fetch_data_from_mcp` after the HTTP round trip: how one tool call's
    transport outcome becomes the dict the function returns. */
module McpFetch {
  import opened Wrappers
  import opened PyStr
  import opened PyJson
  import LoginUrl

  /** The session id `get_mcp_session_id` hands out. */
  const SessionId: string := "mcp-session-594e48ea-fea1-40ef-8c52-7552dd9272af"

  /** The URL reported when a malformed login body carries no readable URL. */
  const FallbackLoginUrl: string := "http://localhost:8080/mockWebPage?sessionId=" + SessionId

  const LoginMessage: string := "MCP login required. Please complete login via browser."

  /** What the POST to the MCP endpoint produced. Timeout, connection
      failure and a 4xx/5xx status are raised by `requests`; a delivered
      body is what `response.json()` then decodes. */
  datatype Transport =
    | TimedOut
    | Unreachable
    | HttpStatus(code: nat, body: string)
    | Delivered(body: string)

  /** The failures the function reports, one per `"error"` code it uses. */
  datatype FetchError =
    | LoginRequired(loginUrl: Json)
    | InvalidJson
    | NoData(tool: string)
    | EmptyResponse(tool: string)
    | Timeout
    | ConnectionError
    | HttpError(code: nat, body: string)
    | UnexpectedError

  datatype FetchOutcome = Payload(data: Json) | Failed(error: FetchError)

  /** The field of the inner payload that holds each known tool's data. */
  function ExpectedKey(tool: string): Option<string> {
    if tool == "fetch_bank_transactions" then Some("bankTransactions")
    else if tool == "fetch_credit_report" then Some("creditReport")
    else if tool == "fetch_epf_details" then Some("epfDetails")
    else if tool == "fetch_mf_transactions" then Some("mfTransactions")
    else if tool == "fetch_net_worth" then Some("netWorth")
    else if tool == "fetch_stock_transactions" then Some("stockTransactions")
    else None
  }

  function ErrorCode(e: FetchError): string {
    match e
    case LoginRequired(_) => "login_required"
    case InvalidJson => "invalid_json"
    case NoData(_) => "no_data"
    case EmptyResponse(_) => "empty_response"
    case Timeout => "timeout"
    case ConnectionError => "connection_error"
    case HttpError(_, _) => "http_error"
    case UnexpectedError => "unexpected_error"
  }

  function ErrorMessage(e: FetchError): string {
    match e
    case LoginRequired(_) => LoginMessage
    case InvalidJson => "MCP returned invalid JSON."
    case NoData(tool) => "MCP returned no data for " + tool + "."
    case EmptyResponse(tool) => "MCP response for " + tool + " was empty or malformed."
    case Timeout => "MCP request timed out."
    case ConnectionError => "Could not connect to MCP server. Is it running?"
    case HttpError(code, body) => "MCP HTTP error: " + Decimal(code) + " - " + body
    case UnexpectedError => "An unexpected error occurred during MCP fetch."
  }

  /** The dict the function returns for an outcome. Every failure is a dict
      with a str `"error"` code and a str `"message"`; only a login failure
      adds `"login_url"`. */
  function AsDict(o: FetchOutcome): (r: Json)
    ensures o.Failed? ==> r.JObj? && "error" in r.fields && "message" in r.fields
                          && r.fields["message"].JStr?
    ensures o.Failed? ==> (r.fields["error"] == JStr("login_required") <==> o.error.LoginRequired?)
    ensures o.Failed? ==> ("login_url" in r.fields <==> o.error.LoginRequired?)
    ensures o.Failed? && o.error.LoginRequired? ==> r.fields["login_url"] == o.error.loginUrl
    ensures o.Failed? ==> r.fields["error"] == JStr(ErrorCode(o.error))
                          && r.fields["message"] == JStr(ErrorMessage(o.error))
    ensures o.Payload? ==> r == o.data
  {
    match o
    case Payload(data) => data
    case Failed(e) =>
      var base := map["error" := JStr(ErrorCode(e)), "message" := JStr(ErrorMessage(e))];
      if e.LoginRequired? then JObj(base["login_url" := e.loginUrl]) else JObj(base)
  }

  /** A text with a fixed prefix and suffix determines its middle. */
  lemma MiddleDetermined(p: string, x: string, y: string, q: string)
    requires p + x + q == p + y + q
    ensures x == y
  {
    assert |x| == |y|;
    assert x == (p + x + q)[|p|..|p| + |x|];
    assert y == (p + y + q)[|p|..|p| + |y|];
  }

  /** The length of the run of decimal digits that `s` starts with. */
  function DigitRun(s: string): nat
  {
    if s == [] || !('0' <= s[0] <= '9') then 0 else 1 + DigitRun(s[1..])
  }

  /** Digits followed by a space: the run is exactly the digits. */
  lemma {:induction false} DigitRunOf(d: string, rest: string)
    requires forall k :: 0 <= k < |d| ==> '0' <= d[k] <= '9'
    requires rest != [] && rest[0] == ' '
    ensures DigitRun(d + rest) == |d|
    decreases |d|
  {
    if d == [] {
      assert d + rest == rest;
    } else {
      assert (d + rest)[1..] == d[1..] + rest;
      DigitRunOf(d[1..], rest);
    }
  }

  /** After a common prefix, a run of digits closed by a space splits the
      text in one way only. */
  lemma DigitsThenSpace(p: string, d1: string, r1: string, d2: string, r2: string)
    requires forall k :: 0 <= k < |d1| ==> '0' <= d1[k] <= '9'
    requires forall k :: 0 <= k < |d2| ==> '0' <= d2[k] <= '9'
    requires r1 != [] && r1[0] == ' ' && r2 != [] && r2[0] == ' '
    requires p + d1 + r1 == p + d2 + r2
    ensures d1 == d2 && r1 == r2
  {
    var m := p + d1 + r1;
    var tail := m[|p|..];
    assert tail == d1 + r1;
    assert tail == d2 + r2;
    DigitRunOf(d1, r1);
    DigitRunOf(d2, r2);
    assert d1 == tail[..|d1|] && r1 == tail[|d1|..];
    assert d2 == tail[..|d2|] && r2 == tail[|d2|..];
  }

  /** `p + code + " - " + body` splits in one way only when the code is
      a run of digits. */
  lemma CodeAndBodySplit(p: string, d1: string, b1: string, d2: string, b2: string)
    requires forall k :: 0 <= k < |d1| ==> '0' <= d1[k] <= '9'
    requires forall k :: 0 <= k < |d2| ==> '0' <= d2[k] <= '9'
    requires p + d1 + " - " + b1 == p + d2 + " - " + b2
    ensures d1 == d2 && b1 == b2
  {
    assert p + d1 + " - " + b1 == p + d1 + (" - " + b1);
    assert p + d2 + " - " + b2 == p + d2 + (" - " + b2);
    DigitsThenSpace(p, d1, " - " + b1, d2, " - " + b2);
    assert b1 == (" - " + b1)[3..];
    assert b2 == (" - " + b2)[3..];
  }

  /** The HTTP error message determines the status code and the body:
      the digits of the code stop at the first space. */
  lemma HttpMessageDetermines(c1: nat, b1: string, c2: nat, b2: string)
    requires "MCP HTTP error: " + Decimal(c1) + " - " + b1 == "MCP HTTP error: " + Decimal(c2) + " - " + b2
    ensures c1 == c2 && b1 == b2
  {
    CodeAndBodySplit("MCP HTTP error: ", Decimal(c1), b1, Decimal(c2), b2);
    DecimalRoundTrip(c1);
    DecimalRoundTrip(c2);
  }

  /** The dict a failure becomes names that failure: two failures that
      give the same dict are the same failure. */
  lemma FailureDictIdentifies(a: FetchError, b: FetchError)
    requires AsDict(Failed(a)) == AsDict(Failed(b))
    ensures a == b
  {
    var da, db := AsDict(Failed(a)), AsDict(Failed(b));
    assert ErrorCode(a) == ErrorCode(b) by {
      assert da.fields["error"] == db.fields["error"];
    }
    assert ErrorMessage(a) == ErrorMessage(b) by {
      assert da.fields["message"] == db.fields["message"];
    }
    match a
    case LoginRequired(u) =>
      assert da.fields["login_url"] == db.fields["login_url"];
    case NoData(t) =>
      MiddleDetermined("MCP returned no data for ", t, b.tool, ".");
    case EmptyResponse(t) =>
      MiddleDetermined("MCP response for ", t, b.tool, " was empty or malformed.");
    case HttpError(c, body) =>
      HttpMessageDetermines(c, body, b.code, b.body);
    case _ =>
  }

  /** Python's `and` chain that guards the read of the inner text:
      `'result' in j and 'content' in j['result'] and
      isinstance(j['result']['content'], list) and len(...) > 0 and
      'text' in j['result']['content'][0]`, followed by the read itself.
      `Ok(None)` is a chain that came out false; `Raised` is a `TypeError`
      from `in` or `[]` on a value that is not a dict. */
  function InnerText(j: Json): Py<Option<Json>> {
    match In("result", j)
    case Raised(x) => Raised(x)
    case Ok(false) => Ok(None)
    case Ok(true) =>
      match Item(j, "result")
      case Raised(x) => Raised(x)
      case Ok(res) =>
        match In("content", res)
        case Raised(x) => Raised(x)
        case Ok(false) => Ok(None)
        case Ok(true) =>
          match Item(res, "content")
          case Raised(x) => Raised(x)
          case Ok(content) =>
            if !content.JArr? || |content.items| == 0 then Ok(None)
            else
              var first := content.items[0];
              match In("text", first)
              case Raised(x) => Raised(x)
              case Ok(false) => Ok(None)
              case Ok(true) =>
                match Item(first, "text")
                case Raised(x) => Raised(x)
                case Ok(text) => Ok(Some(text))
  }

  /** The envelope `{"result": {"content": [{"text": text, ...}, ...], ...}, ...}`. */
  ghost predicate Envelope(j: Json, text: Json) {
    && j.JObj? && "result" in j.fields
    && var res := j.fields["result"];
    && res.JObj? && "content" in res.fields
    && var content := res.fields["content"];
    && content.JArr? && |content.items| > 0
    && var first := content.items[0];
    && first.JObj? && "text" in first.fields
    && first.fields["text"] == text
  }

  /** The inner text is read exactly from a well-shaped envelope. */
  lemma InnerTextOnlyFromEnvelope(j: Json, text: Json)
    ensures InnerText(j) == Ok(Some(text)) <==> Envelope(j, text)
  {
  }

  lemma InnerTextAgreement(j: Json)
    ensures forall text :: InnerText(j) == Ok(Some(text)) <==> Envelope(j, text)
  {
    forall text {
      InnerTextOnlyFromEnvelope(j, text);
    }
  }

  /** A dict envelope whose chain fails on dicts and lists alone reads
      nothing, without raising. */
  lemma MissingFieldsReadNothing(j: Json)
    requires j.JObj?
    requires || "result" !in j.fields
             || (j.fields["result"].JObj? && "content" !in j.fields["result"].fields)
             || (j.fields["result"].JObj? && "content" in j.fields["result"].fields
                 && var c := j.fields["result"].fields["content"];
                 || !c.JArr? || c.items == []
                 || (c.items[0].JObj? && "text" !in c.items[0].fields))
    ensures InnerText(j) == Ok(None)
  {
  }

  /** A body that failed to decode: the login marker test and the URL
      capture with its fallback (lines 170-174). */
  function Undecodable(raw: string): (r: FetchOutcome)
    ensures r.Failed?
    ensures r.error.LoginRequired? <==> Contains(raw, "login_required") && Contains(raw, "login_url")
    ensures r.error.LoginRequired? ==>
              r.error.loginUrl == JStr(LoginUrl.FirstCapture(raw).GetOr(FallbackLoginUrl))
    ensures !r.error.LoginRequired? ==> r.error == InvalidJson
  {
    if Contains(raw, "login_required") && Contains(raw, "login_url") then
      Failed(LoginRequired(JStr(LoginUrl.FirstCapture(raw).GetOr(FallbackLoginUrl))))
    else Failed(InvalidJson)
  }

  /** A decoded inner value (lines 177-196). */
  function Interpret(tool: string, inner: Json): (r: FetchOutcome)
    ensures !inner.JObj? ==> r == Failed(UnexpectedError)
    ensures inner.JObj? && Get(inner.fields, "status", JNull) == JStr("login_required")
            && "login_url" in inner.fields && Truthy(inner.fields["login_url"])
            ==> r == Failed(LoginRequired(inner.fields["login_url"]))
    ensures r.Payload? ==> match ExpectedKey(tool)
              case Some(k) => k in inner.fields && r.data == inner.fields[k] && Truthy(r.data)
              case None => r.data == inner && inner.fields != map[]
    ensures r.Failed? && r.error.NoData? ==> r.error.tool == tool
    ensures inner.JObj? && r.Failed? ==> r.error.LoginRequired? || r.error == NoData(tool)
    ensures r.Failed? && r.error.LoginRequired? ==>
              && inner.JObj? && Get(inner.fields, "status", JNull) == JStr("login_required")
              && "login_url" in inner.fields && Truthy(inner.fields["login_url"])
    ensures inner.JObj?
            && !(Get(inner.fields, "status", JNull) == JStr("login_required")
                 && Truthy(Get(inner.fields, "login_url", JNull))) ==>
              match ExpectedKey(tool)
              case Some(k) => (k in inner.fields && Truthy(inner.fields[k]) ==> r == Payload(inner.fields[k]))
              case None => (inner.fields != map[] ==> r == Payload(inner))
  {
    match inner
    case JObj(f) =>
      if Get(f, "status", JNull) == JStr("login_required") && Truthy(Get(f, "login_url", JNull)) then
        Failed(LoginRequired(f["login_url"]))
      else (match ExpectedKey(tool)
        case Some(k) =>
          if k !in f || !Truthy(f[k]) then Failed(NoData(tool)) else Payload(f[k])
        case None =>
          if f == map[] then Failed(NoData(tool)) else Payload(inner))
    case _ => Failed(UnexpectedError)
  }

  /** `json.loads(raw_str)` and what follows it: only a str can be
      decoded, anything else raises `TypeError`; a decoded value that is
      not a dict has no `.get`, and that `AttributeError` is caught too. */
  function DecodeInner(tool: string, text: Json, decode: Decoder): (r: FetchOutcome)
    ensures !text.JStr? ==> r == Failed(UnexpectedError)
    ensures text.JStr? && decode(text.s).DecodeError? ==> r.Failed? && !r.error.UnexpectedError?
    ensures text.JStr? && decode(text.s).DecodeError? ==> r == Undecodable(text.s)
    ensures text.JStr? && decode(text.s).Parsed? && decode(text.s).value.JObj? ==>
              r.Payload? || r.error.LoginRequired? || r.error == NoData(tool)
    ensures text.JStr? && decode(text.s).Parsed? && !decode(text.s).value.JObj? ==> r == Failed(UnexpectedError)
    ensures text.JStr? && decode(text.s).Parsed? ==> r == Interpret(tool, decode(text.s).value)
  {
    match text
    case JStr(raw) =>
      (match decode(raw)
       case DecodeError(_) => Undecodable(raw)
       case Parsed(inner) => Interpret(tool, inner))
    case _ => Failed(UnexpectedError)
  }

  /** `fetch_data_from_mcp(tool, ...)` given what the transport produced
      and the decoder that stands for `json.loads`. */
  function Fetch(tool: string, t: Transport, decode: Decoder): (r: FetchOutcome)
    ensures t.TimedOut? ==> r == Failed(Timeout)
    ensures t.Unreachable? ==> r == Failed(ConnectionError)
    ensures t.HttpStatus? ==> r == Failed(HttpError(t.code, t.body))
    ensures t.Delivered? && decode(t.body).DecodeError? ==> r == Failed(UnexpectedError)
    ensures t.Delivered? && decode(t.body).Parsed? ==>
              var j := decode(t.body).value;
              && ((forall text :: !Envelope(j, text)) ==> r == Failed(EmptyResponse(tool)) || r == Failed(UnexpectedError))
              && (forall raw :: Envelope(j, JStr(raw)) && decode(raw).DecodeError? ==> r == Undecodable(raw))
              && (forall raw :: Envelope(j, JStr(raw)) && decode(raw).Parsed? ==> r == Interpret(tool, decode(raw).value))
              && (forall text :: Envelope(j, text) && !text.JStr? ==> r == Failed(UnexpectedError))
  {
    match t
    case TimedOut => Failed(Timeout)
    case Unreachable => Failed(ConnectionError)
    case HttpStatus(code, body) => Failed(HttpError(code, body))
    case Delivered(body) =>
      match decode(body)
      case DecodeError(_) => Failed(UnexpectedError)
      case Parsed(envelope) =>
        InnerTextAgreement(envelope);
        match InnerText(envelope)
        case Raised(_) => Failed(UnexpectedError)
        case Ok(None) => Failed(EmptyResponse(tool))
        case Ok(Some(text)) => DecodeInner(tool, text, decode)
  }
}
