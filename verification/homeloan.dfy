/** `analyze_home_loan_affordability`: fetch the context, stop on a fetch
    reported with status `"error"`, otherwise ask the model and pass its
    verdict on. */
module HomeLoan {
  import opened Wrappers
  import opened PyStr
  import opened PyJson
  import opened BraceSpan
  import opened Replies
  import Context
  import McpFetch

  /** The verdict fields, all empty, that every error dict carries. */
  const EmptyVerdict: map<string, Json> := map[
    "affordability_score" := JStr(""), "max_affordable_emi" := JStr(""),
    "max_affordable_loan_amount" := JStr(""), "gross_monthly_income" := JStr(""),
    "home_loan_verdict" := JStr(""), "short_summary" := JStr(""), "brutal_advice" := JArr([])
  ]

  /** The early return when the context reports status `"error"`. */
  function FetchFailure(c: map<string, Json>): map<string, Json> {
    EmptyVerdict + map[
      "status" := JStr("error"),
      "message" := Get(c, "message", JStr("MCP data fetch failed.")),
      "details" := Get(c, "details", JStr("")),
      "login_url" := Get(c, "login_url", JNull)
    ]
  }

  /** The error dict built from a failed `_call_gemini_and_parse_json`. */
  function AnalysisFailure(response: map<string, Json>): map<string, Json> {
    EmptyVerdict + map[
      "status" := JStr("error"),
      "message" := Get(response, "message", JStr("Unknown error during AI analysis")),
      "details" := Get(response, "details", JStr("")),
      "gemini_response" := Get(response, "gemini_response", JStr(""))
    ]
  }

  /** `d[k] == v`, with `k` present. */
  predicate Entry(d: map<string, Json>, k: string, v: Json) {
    k in d && d[k] == v
  }

  /** The verdict fields are all present and all empty. */
  predicate VerdictEmpty(d: map<string, Json>) {
    forall k :: k in EmptyVerdict ==> k in d && d[k] == EmptyVerdict[k]
  }

  /** The early return carries the empty verdict, the context's message,
      details and login URL, with the source's defaults. */
  lemma FetchFailureShape(c: map<string, Json>)
    ensures var d := FetchFailure(c);
            && VerdictEmpty(d)
            && Entry(d, "status", JStr("error"))
            && Entry(d, "message", Get(c, "message", JStr("MCP data fetch failed.")))
            && Entry(d, "details", Get(c, "details", JStr("")))
            && Entry(d, "login_url", Get(c, "login_url", JNull))
  {
  }

  /** The analysis error dict carries the empty verdict and the failed
      call's message, details and reply. */
  lemma AnalysisFailureShape(response: map<string, Json>)
    ensures var d := AnalysisFailure(response);
            && VerdictEmpty(d)
            && Entry(d, "status", JStr("error"))
            && Entry(d, "message", Get(response, "message", JStr("Unknown error during AI analysis")))
            && Entry(d, "details", Get(response, "details", JStr("")))
            && Entry(d, "gemini_response", Get(response, "gemini_response", JStr("")))
  {
  }

  /** The code after `_call_gemini_and_parse_json` returns `response`;
      `response["status"]` and `response["data"]` raise `KeyError` on a dict
      without them. */
  function Settle(response: map<string, Json>): Py<map<string, Json>> {
    match Lookup(response, "status")
    case Raised(x) => Raised(x)
    case Ok(status) =>
      if status == JStr("success") then
        match Lookup(response, "data")
        case Raised(x) => Raised(x)
        case Ok(data) =>
          match GetAttr(data, "status", JStr("success"))
          case Ok(own) => Ok(data.fields["status" := own])
          case Raised(x) => Raised(x)
      else Ok(AnalysisFailure(response))
  }

  /** What the function returns once the model has answered with `raw`. */
  function Verdict(raw: string, decode: Decoder): Py<map<string, Json>> {
    Settle(CallAndParse(raw, decode))
  }

  /** The verdict for each thing the reply can yield. */
  lemma SettleResponse(text: string, x: Extraction)
    ensures var r := Settle(Response(text, x));
            match x
            case NoObject =>
              && r.Ok? && VerdictEmpty(r.value)
              && Entry(r.value, "message", JStr(NoObjectMessage))
              && Entry(r.value, "details", JStr(NoObjectDetail + text))
              && Entry(r.value, "gemini_response", JStr(text))
            case NotJson(m) =>
              && r.Ok? && VerdictEmpty(r.value)
              && Entry(r.value, "message", JStr(NotJsonMessage))
              && Entry(r.value, "details", JStr(m))
              && Entry(r.value, "gemini_response", JStr(text))
            case Found(JObj(f)) => r == Ok(f["status" := Get(f, "status", JStr("success"))])
            case Found(_) => r == Raised(AttributeError)
  {
    if !x.Found? {
      AnalysisFailureShape(Response(text, x));
    }
  }

  /** The verdict is the decoded dict with its own `"status"` kept (or
      `"success"` added), `AttributeError` for a decoded non-dict, or an
      error dict with the empty verdict that carries the stripped reply. */
  lemma VerdictFollowsReply(raw: string, decode: Decoder)
    ensures var r := Verdict(raw, decode);
            var text := Strip(raw);
            && ((forall s: nat, e: nat :: !Balanced(text, s, e)) ==>
                  && r.Ok? && VerdictEmpty(r.value)
                  && Entry(r.value, "message", JStr(NoObjectMessage))
                  && Entry(r.value, "details", JStr(NoObjectDetail + text))
                  && Entry(r.value, "gemini_response", JStr(text)))
            && (forall s: nat, e: nat :: LeftmostMatch(text, s, e) ==>
                  match decode(text[s..e])
                  case Parsed(JObj(f)) => r == Ok(f["status" := Get(f, "status", JStr("success"))])
                  case Parsed(_) => r == Raised(AttributeError)
                  case DecodeError(m) =>
                    && r.Ok? && VerdictEmpty(r.value)
                    && Entry(r.value, "message", JStr(NotJsonMessage))
                    && Entry(r.value, "details", JStr(m))
                    && Entry(r.value, "gemini_response", JStr(text)))
  {
    var text := Strip(raw);
    var x := Extract(text, decode);
    assert Verdict(raw, decode) == Settle(Response(text, x));
    SettleResponse(text, x);
  }

  /** The part of `analyze_home_loan_affordability` after the context is
      known. The model is asked unless the context's status is `"error"`;
      a decoded value that is not a dict has no `.get`, and that
      `AttributeError` is not caught. */
  function Analyze(ctx: Py<map<string, Json>>, model: Model, decode: Decoder): (r: Analysis)
    ensures ctx.Raised? ==> r == Analysis(None, ctx)
    ensures r.asked.Some? <==> ctx.Ok? && Get(ctx.value, "status", JNull) != JStr("error")
    ensures r.asked.Some? ==> r.asked.value == ctx.value && r.result == Verdict(model(ctx.value), decode)
    ensures ctx.Ok? && r.asked.None? ==>
              && r.result.Ok? && VerdictEmpty(r.result.value)
              && Entry(r.result.value, "status", JStr("error"))
              && Entry(r.result.value, "login_url", Get(ctx.value, "login_url", JNull))
              && Entry(r.result.value, "message", Get(ctx.value, "message", JStr("MCP data fetch failed.")))
              && Entry(r.result.value, "details", Get(ctx.value, "details", JStr("")))
  {
    match ctx
    case Raised(x) => Analysis(None, Raised(x))
    case Ok(c) =>
      FetchFailureShape(c);
      if Get(c, "status", JNull) == JStr("error") then Analysis(None, Ok(FetchFailure(c)))
      else Analysis(Some(c), Verdict(model(c), decode))
  }

  /** `analyze_home_loan_affordability(user_id, user_query)`. */
  function AnalyzeHomeLoanAffordability(userId: string, fetch: Context.Fetcher, model: Model, decode: Decoder): Analysis {
    Analyze(Context.FetchContext(userId, fetch).result, model, decode)
  }

  /** An empty user id is not caught here: the missing-user-id dict has no
      `"status"`, so the model is asked about it. */
  lemma MissingUserIdReachesModel(fetch: Context.Fetcher, model: Model, decode: Decoder)
    ensures AnalyzeHomeLoanAffordability("", fetch, model, decode).asked == Some(Context.MissingUserIdDict)
  {
  }

  /** The model is asked exactly when the user id is empty or every fetch
      succeeded. */
  lemma ModelAskedUnlessFetchFailed(userId: string, fetch: Context.Fetcher, model: Model, decode: Decoder)
    requires Context.FetchContext(userId, fetch).result.Ok?
    ensures AnalyzeHomeLoanAffordability(userId, fetch, model, decode).asked.Some?
            <==> userId == "" || (Context.FirstHalt(fetch) == Context.ToolCount && Context.ErrorsFrom(fetch, 0) == [])
  {
    Context.ErrorKeyOnlyWithoutUserId(userId, fetch);
  }

  /** A login failure during the fetch skips the model and passes the
      login URL on, next to the empty verdict. */
  lemma LoginFailureKeepsUrl(userId: string, fetch: Context.Fetcher, model: Model, decode: Decoder)
    requires userId != "" && Context.FirstHalt(fetch) < Context.ToolCount
    requires "message" in fetch(Context.ToolNames[Context.FirstHalt(fetch)]).fields
    ensures var v := fetch(Context.ToolNames[Context.FirstHalt(fetch)]);
            var r := AnalyzeHomeLoanAffordability(userId, fetch, model, decode);
            && r.asked.None?
            && r.result.Ok? && VerdictEmpty(r.result.value)
            && Entry(r.result.value, "login_url", Get(v.fields, "login_url", JNull))
            && Entry(r.result.value, "message", JStr(McpFetch.LoginMessage))
  {
    var v := fetch(Context.ToolNames[Context.FirstHalt(fetch)]);
    var url := Get(v.fields, "login_url", JNull);
    var c := Context.LoginContext(url);
    assert Context.FetchContext(userId, fetch).result == Ok(c) by {
      Context.FirstLoginShortCircuits(userId, fetch);
    }
    Context.LoginContextShape(url);
    assert AnalyzeHomeLoanAffordability(userId, fetch, model, decode) == Analysis(None, Ok(FetchFailure(c)));
    FetchFailureShape(c);
  }

  /** Fetch errors without a login failure also skip the model and report
      the joined messages. */
  lemma FetchErrorsSkipModel(userId: string, fetch: Context.Fetcher, model: Model, decode: Decoder, messages: seq<string>)
    requires userId != "" && Context.FirstHalt(fetch) == Context.ToolCount
    requires Context.ErrorsFrom(fetch, 0) != [] && AllStrings(Context.ErrorsFrom(fetch, 0)) == Ok(messages)
    ensures var r := AnalyzeHomeLoanAffordability(userId, fetch, model, decode);
            && r.asked.None?
            && r.result.Ok? && VerdictEmpty(r.result.value)
            && Entry(r.result.value, "message", JStr("MCP Data Fetch Errors: " + Join("; ", messages)))
            && Entry(r.result.value, "login_url", JNull)
  {
    var c := Context.FetchErrorsContext(messages);
    assert Context.FetchContext(userId, fetch).result == Ok(c) by {
      Context.FetchErrorsAreJoined(userId, fetch);
    }
    Context.FetchErrorsContextShape(messages);
    assert AnalyzeHomeLoanAffordability(userId, fetch, model, decode) == Analysis(None, Ok(FetchFailure(c)));
    FetchFailureShape(c);
  }

  /** Under a decoder that follows the JSON grammar, an analysis that
      reaches the model always returns a dict. */
  lemma GrammarDecoderNeverRaises(raw: string, decode: Decoder)
    requires ObjectsFromBraces(decode)
    ensures Verdict(raw, decode).Ok?
  {
    var text := Strip(raw);
    var x := Extract(text, decode);
    FoundIsObject(text, decode);
    assert Verdict(raw, decode) == Settle(Response(text, x));
    SettleResponse(text, x);
  }
}
