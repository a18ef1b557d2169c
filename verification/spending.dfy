/** `analyze_financial_data` and `get_financial_goal_breakdown`: fetch the
    context, stop on a context with an `"error"` key (and, for the spending
    analysis, on a context without data), otherwise ask the model and
    return its dict with status `"success"`. */
module Spending {
  import opened Wrappers
  import opened PyStr
  import opened PyJson
  import opened BraceSpan
  import opened Replies
  import Context

  /** The keys the spending analysis looks at before asking the model. */
  const DataKeys: seq<string> := ["bank_txns", "mf_txns", "credit_rpt", "epf", "stocks", "net_worth"]

  const NoDataMessage := "No financial data available for analysis for this user. (MCP might be returning empty data)"
  const NoDataDetails := "Please ensure MCP server is running and returning data for this user ID."

  const AnalysisWording := Wording(
    "Gemini returned invalid JSON for analysis.",
    "Invalid JSON from Gemini for analysis",
    "An unexpected error occurred during analysis.")

  const GoalWording := Wording(
    "Gemini returned invalid JSON for goal breakdown.",
    "Invalid JSON from Gemini for goal breakdown",
    "Goal breakdown analysis failed")

  const NoDataReport: map<string, Json> := map[
    "status" := JStr("error"), "message" := JStr(NoDataMessage), "details" := JStr(NoDataDetails)
  ]

  /** `any(full_ctx.get(key) for key in ...) or full_ctx.get("salary", 0) != 0`. */
  predicate HasData(c: map<string, Json>) {
    (exists k :: 0 <= k < |DataKeys| && Truthy(Get(c, DataKeys[k], JNull)))
    || !EqualsInt(Get(c, "salary", JInt(0)), 0)
  }

  /** The early return on a context with an `"error"` key; `full_ctx["message"]`
      and `full_ctx["details"]` raise `KeyError` when missing. */
  function ErrorReport(c: map<string, Json>): (r: Py<map<string, Json>>)
    ensures r.Ok? <==> "message" in c && "details" in c
    ensures r.Raised? ==> r.exc == KeyError
    ensures r.Ok? ==> r.value.Keys == {"status", "message", "details", "login_url"}
    ensures r.Ok? ==> r.value["message"] == c["message"] && r.value["details"] == c["details"]
    ensures r.Ok? ==> r.value["login_url"] == Get(c, "login_url", JNull)
  {
    match Lookup(c, "message")
    case Raised(x) => Raised(x)
    case Ok(message) =>
      match Lookup(c, "details")
      case Raised(x) => Raised(x)
      case Ok(details) =>
        Ok(map["status" := JStr("error"), "message" := message, "details" := details,
               "login_url" := Get(c, "login_url", JNull)])
  }

  /** `analyze_financial_data` after the context is known. */
  function AnalyzeFrom(ctx: Py<map<string, Json>>, model: Model, decode: Decoder): (r: Analysis)
    ensures ctx.Raised? ==> r == Analysis(None, ctx)
    ensures r.asked.Some? <==> ctx.Ok? && "error" !in ctx.value && HasData(ctx.value)
    ensures r.asked.Some? ==>
              r.asked.value == ctx.value && r.result == Ok(ParseReply(model(ctx.value), decode, AnalysisWording))
    ensures ctx.Ok? && "error" in ctx.value ==> r.result == ErrorReport(ctx.value)
    ensures ctx.Ok? && "error" !in ctx.value && !HasData(ctx.value) ==> r.result == Ok(NoDataReport)
  {
    match ctx
    case Raised(x) => Analysis(None, Raised(x))
    case Ok(c) =>
      if "error" in c then Analysis(None, ErrorReport(c))
      else if !HasData(c) then Analysis(None, Ok(NoDataReport))
      else Analysis(Some(c), Ok(ParseReply(model(c), decode, AnalysisWording)))
  }

  /** `get_financial_goal_breakdown` after the context is known: no data
      gate, so any context without an `"error"` key reaches the model. */
  function GoalFrom(ctx: Py<map<string, Json>>, model: Model, decode: Decoder): (r: Analysis)
    ensures ctx.Raised? ==> r == Analysis(None, ctx)
    ensures r.asked.Some? <==> ctx.Ok? && "error" !in ctx.value
    ensures r.asked.Some? ==>
              r.asked.value == ctx.value && r.result == Ok(ParseReply(model(ctx.value), decode, GoalWording))
    ensures ctx.Ok? && "error" in ctx.value ==> r.result == ErrorReport(ctx.value)
  {
    match ctx
    case Raised(x) => Analysis(None, Raised(x))
    case Ok(c) =>
      if "error" in c then Analysis(None, ErrorReport(c))
      else Analysis(Some(c), Ok(ParseReply(model(c), decode, GoalWording)))
  }

  /** `analyze_financial_data(user_id)`. */
  function AnalyzeFinancialData(userId: string, fetch: Context.Fetcher, model: Model, decode: Decoder): Analysis {
    AnalyzeFrom(Context.FetchContext(userId, fetch).result, model, decode)
  }

  /** `get_financial_goal_breakdown(goal, user_id)`. */
  function GoalBreakdown(userId: string, fetch: Context.Fetcher, model: Model, decode: Decoder): Analysis {
    GoalFrom(Context.FetchContext(userId, fetch).result, model, decode)
  }

  /** A dict that holds only report keys has no `"error"` key and no data. */
  lemma ReportHasNoData(c: map<string, Json>)
    requires c.Keys <= {"status", "message", "details", "login_url"}
    ensures "error" !in c && !HasData(c)
  {
    forall k | 0 <= k < |DataKeys|
      ensures DataKeys[k] !in c
    {
    }
    assert "salary" !in c;
  }

  /** The aggregator's login context has no `"error"` key and no data, so
      the spending analysis reports "no data" and the login URL is lost. */
  lemma LoginContextReadsAsNoData(url: Json, model: Model, decode: Decoder)
    ensures var r := AnalyzeFrom(Ok(Context.LoginContext(url)), model, decode);
            r.asked.None? && r.result == Ok(NoDataReport) && "login_url" !in r.result.value
  {
    ReportHasNoData(Context.LoginContext(url));
    assert "login_url" !in NoDataReport;
  }

  /** The same holds for the joined fetch-error report. */
  lemma FetchErrorsReadAsNoData(messages: seq<string>, model: Model, decode: Decoder)
    ensures var r := AnalyzeFrom(Ok(Context.FetchErrorsContext(messages)), model, decode);
            r.asked.None? && r.result == Ok(NoDataReport)
  {
    ReportHasNoData(Context.FetchErrorsContext(messages));
  }

  /** A login failure during the fetch ends the spending analysis with the
      "no data" report, without the login URL. */
  lemma LoginFailureLosesUrl(userId: string, fetch: Context.Fetcher, model: Model, decode: Decoder)
    requires userId != "" && Context.FirstHalt(fetch) < Context.ToolCount
    requires "message" in fetch(Context.ToolNames[Context.FirstHalt(fetch)]).fields
    ensures var r := AnalyzeFinancialData(userId, fetch, model, decode);
            r.asked.None? && r.result == Ok(NoDataReport) && "login_url" !in r.result.value
  {
    var v := fetch(Context.ToolNames[Context.FirstHalt(fetch)]);
    var url := Get(v.fields, "login_url", JNull);
    assert Context.FetchContext(userId, fetch).result == Ok(Context.LoginContext(url)) by {
      Context.FirstLoginShortCircuits(userId, fetch);
    }
    LoginContextReadsAsNoData(url, model, decode);
  }

  /** The goal breakdown has no such gate: after a login failure it asks
      the model about the login context itself. */
  lemma GoalAsksModelAfterLoginFailure(userId: string, fetch: Context.Fetcher, model: Model, decode: Decoder)
    requires userId != "" && Context.FirstHalt(fetch) < Context.ToolCount
    requires "message" in fetch(Context.ToolNames[Context.FirstHalt(fetch)]).fields
    ensures var v := fetch(Context.ToolNames[Context.FirstHalt(fetch)]);
            GoalBreakdown(userId, fetch, model, decode).asked
            == Some(Context.LoginContext(Get(v.fields, "login_url", JNull)))
  {
    var v := fetch(Context.ToolNames[Context.FirstHalt(fetch)]);
    var url := Get(v.fields, "login_url", JNull);
    assert Context.FetchContext(userId, fetch).result == Ok(Context.LoginContext(url)) by {
      Context.FirstLoginShortCircuits(userId, fetch);
    }
  }

  /** The goal breakdown asks the model whenever the user id is not
      empty, whatever the fetches returned. */
  lemma GoalAskedUnlessNoUserId(userId: string, fetch: Context.Fetcher, model: Model, decode: Decoder)
    requires Context.FetchContext(userId, fetch).result.Ok?
    ensures GoalBreakdown(userId, fetch, model, decode).asked.Some? <==> userId != ""
  {
    Context.ErrorKeyOnlyWithoutUserId(userId, fetch);
  }

  /** An empty user id is the only way to an `"error"` key: both functions
      pass the aggregator's message and details on, with no login URL. */
  lemma MissingUserIdReported(fetch: Context.Fetcher, model: Model, decode: Decoder)
    ensures var expected := Ok(map[
              "status" := JStr("error"),
              "message" := Context.MissingUserIdDict["message"],
              "details" := Context.MissingUserIdDict["details"],
              "login_url" := JNull]);
            && AnalyzeFinancialData("", fetch, model, decode) == Analysis(None, expected)
            && GoalBreakdown("", fetch, model, decode) == Analysis(None, expected)
  {
  }
}
