/** `get_full_financial_context_from_mcp_shared`: six tool calls in a fixed
    order, folded into one context dict, stopping at the first login
    failure. The fetcher is an oracle: for each tool name it gives the dict
    `fetch_data_from_mcp(tool, {"phone_number": user_id})` returns. */
module Context {
  import opened PyStr
  import opened PyJson
  import McpFetch

  /** The keys of `tools_to_fetch`, in the dict's insertion order. */
  const ToolNames: seq<string> := [
    "fetch_bank_transactions", "fetch_credit_report", "fetch_epf_details",
    "fetch_mf_transactions", "fetch_net_worth", "fetch_stock_transactions"
  ]

  /** The values of `tools_to_fetch`: the context key of each tool. */
  const ContextKeys: seq<string> := ["bank_txns", "credit_rpt", "epf", "mf_txns", "net_worth", "stocks"]

  const ToolCount: nat := 6

  /** The result of `fetch_data_from_mcp` for each tool name. */
  type Fetcher = string -> Json

  const MissingUserIdDict: map<string, Json> := map[
    "error" := JStr("missing_user_id"),
    "message" := JStr("User ID is required to fetch data from MCP."),
    "details" := JStr("Please provide a user ID (phone number).")
  ]

  function LoginContext(url: Json): map<string, Json> {
    map[
      "status" := JStr("error"),
      "message" := JStr(McpFetch.LoginMessage),
      "login_url" := url,
      "details" := JStr("Visit the provided URL and try again.")
    ]
  }

  function FetchErrorsContext(messages: seq<string>): map<string, Json> {
    map[
      "status" := JStr("error"),
      "message" := JStr("MCP Data Fetch Errors: " + Join("; ", messages)),
      "details" := JStr("Some financial data could not be fetched. Check MCP logs.")
    ]
  }

  /** The two early-return dicts carry status `"error"`, a message, and
      no `"error"` key; only the login dict carries a `"login_url"`. */
  lemma LoginContextShape(url: Json)
    ensures var c := LoginContext(url);
            && "status" in c && c["status"] == JStr("error")
            && "message" in c && c["message"] == JStr(McpFetch.LoginMessage)
            && "login_url" in c && c["login_url"] == url
            && "error" !in c
  {
  }

  lemma FetchErrorsContextShape(messages: seq<string>)
    ensures var c := FetchErrorsContext(messages);
            && "status" in c && c["status"] == JStr("error")
            && "message" in c && c["message"] == JStr("MCP Data Fetch Errors: " + Join("; ", messages))
            && "login_url" !in c
            && "error" !in c
  {
  }

  /** What an error leaves in a tool's slot: `{}` for the summary-shaped
      categories, `[]` for the others. */
  function EmptySlot(key: string): Json {
    if key in ["credit_rpt", "net_worth", "epf"] then JObj(map[]) else JArr([])
  }

  /** `isinstance(data, dict) and "error" in data`. */
  predicate IsErrorDict(v: Json) {
    v.JObj? && "error" in v.fields
  }

  /** Why the loop returned early: a login failure, or the `KeyError` of
      `data["message"]` on an error dict without a message. */
  datatype Stop = Login(loginUrl: Json) | Crash(exc: Exc)

  datatype LoopEnd =
    | Stopped(stop: Stop)
    | Finished(fetched: map<string, Json>, errors: seq<Json>)

  /** The tools called, in order, and how the loop ended. */
  datatype Run = Run(calls: seq<string>, end: LoopEnd)

  /** The `for` loop from the `k`-th tool on. */
  function Gather(fetch: Fetcher, k: nat, fetched: map<string, Json>, errors: seq<Json>): Run
    requires k <= ToolCount
    decreases ToolCount - k
  {
    if k == ToolCount then Run([], Finished(fetched, errors))
    else
      var tool := ToolNames[k];
      var key := ContextKeys[k];
      var data := fetch(tool);
      if IsErrorDict(data) then
        if "message" !in data.fields then Run([tool], Stopped(Crash(KeyError)))
        else if data.fields["error"] == JStr("login_required") then
          Run([tool], Stopped(Login(Get(data.fields, "login_url", JNull))))
        else
          var rest := Gather(fetch, k + 1, fetched[key := EmptySlot(key)], errors + [data.fields["message"]]);
          Run([tool] + rest.calls, rest.end)
      else
        var rest := Gather(fetch, k + 1, fetched[key := data], errors);
        Run([tool] + rest.calls, rest.end)
  }

  /** After the loop: the joined error report, or the context with its
      salary and status. */
  function Finish(fetched: map<string, Json>, errors: seq<Json>): Py<map<string, Json>> {
    if errors != [] then
      match AllStrings(errors)
      case Ok(messages) => Ok(FetchErrorsContext(messages))
      case Raised(x) => Raised(x)
    else
      match GetAttr(Get(fetched, "net_worth", JObj(map[])), "salary", JInt(0))
      case Ok(salary) => Ok(fetched["salary" := salary]["status" := JStr("success")])
      case Raised(x) => Raised(x)
  }

  /** One aggregation: the tools called and what the function returned or
      raised. */
  datatype Aggregation = Aggregation(calls: seq<string>, result: Py<map<string, Json>>)

  // ---- reference definitions ----

  /** A fetched value ends the loop: an error dict without a message, or a
      login failure. */
  predicate Halts(v: Json) {
    IsErrorDict(v) && ("message" !in v.fields || v.fields["error"] == JStr("login_required"))
  }

  /** The first tool at or after `k` whose result ends the loop, or `ToolCount`. */
  function FirstHaltFrom(fetch: Fetcher, k: nat): (h: nat)
    requires k <= ToolCount
    ensures k <= h <= ToolCount
    ensures forall m :: k <= m < h ==> !Halts(fetch(ToolNames[m]))
    ensures h < ToolCount ==> Halts(fetch(ToolNames[h]))
    decreases ToolCount - k
  {
    if k == ToolCount || Halts(fetch(ToolNames[k])) then k else FirstHaltFrom(fetch, k + 1)
  }

  function FirstHalt(fetch: Fetcher): nat {
    FirstHaltFrom(fetch, 0)
  }

  /** How many tools are called when the loop first halts at `h`. */
  function CallCount(h: nat): nat {
    if h < ToolCount then h + 1 else ToolCount
  }

  /** The messages of the error dicts among the results from the `k`-th
      tool on, in tool order. */
  function ErrorsFrom(fetch: Fetcher, k: nat): seq<Json>
    requires k <= ToolCount
    decreases ToolCount - k
  {
    if k == ToolCount then []
    else
      var v := fetch(ToolNames[k]);
      (if IsErrorDict(v) then [Get(v.fields, "message", JNull)] else []) + ErrorsFrom(fetch, k + 1)
  }

  function HaltOf(v: Json): Stop
    requires IsErrorDict(v)
  {
    if "message" in v.fields then Login(Get(v.fields, "login_url", JNull)) else Crash(KeyError)
  }

  /** What the loop stores for the `k`-th result: the empty default in
      place of an error dict, the result itself otherwise. */
  function Slot(k: nat, data: Json): Json
    requires k < ToolCount
  {
    if IsErrorDict(data) then EmptySlot(ContextKeys[k]) else data
  }

  /** The dict after storing the `k`-th result that does not end the loop. */
  function Store(fetched: map<string, Json>, k: nat, data: Json): map<string, Json>
    requires k < ToolCount
  {
    fetched[ContextKeys[k] := Slot(k, data)]
  }

  /** The error list after a result that does not end the loop. */
  function Note(errors: seq<Json>, data: Json): seq<Json>
    requires !Halts(data)
  {
    if IsErrorDict(data) then errors + [data.fields["message"]] else errors
  }

  /** A result that ends the loop: one call, and the halt it causes. */
  lemma GatherHalts(fetch: Fetcher, k: nat, fetched: map<string, Json>, errors: seq<Json>)
    requires k < ToolCount && Halts(fetch(ToolNames[k]))
    ensures Gather(fetch, k, fetched, errors) == Run([ToolNames[k]], Stopped(HaltOf(fetch(ToolNames[k]))))
    ensures FirstHaltFrom(fetch, k) == k
  {
  }

  /** A result that does not end the loop: one call, then the rest of the
      loop from the next tool, with the result stored or its message noted. */
  lemma GatherStep(fetch: Fetcher, k: nat, fetched: map<string, Json>, errors: seq<Json>)
    requires k < ToolCount && !Halts(fetch(ToolNames[k]))
    ensures var data := fetch(ToolNames[k]);
            var rest := Gather(fetch, k + 1, Store(fetched, k, data), Note(errors, data));
            && Gather(fetch, k, fetched, errors) == Run([ToolNames[k]] + rest.calls, rest.end)
            && FirstHaltFrom(fetch, k) == FirstHaltFrom(fetch, k + 1)
            && errors + ErrorsFrom(fetch, k) == Note(errors, data) + ErrorsFrom(fetch, k + 1)
  {
    var data := fetch(ToolNames[k]);
    var later := ErrorsFrom(fetch, k + 1);
    if IsErrorDict(data) {
      var message := data.fields["message"];
      assert ErrorsFrom(fetch, k) == [message] + later;
      assert (errors + [message]) + later == errors + ([message] + later);
    } else {
      assert ErrorsFrom(fetch, k) == later;
    }
  }

  lemma {:induction false} GatherCalls(fetch: Fetcher, k: nat, fetched: map<string, Json>, errors: seq<Json>)
    requires k <= ToolCount
    ensures Gather(fetch, k, fetched, errors).calls == ToolNames[k..CallCount(FirstHaltFrom(fetch, k))]
    decreases ToolCount - k
  {
    if k < ToolCount {
      var data := fetch(ToolNames[k]);
      if Halts(data) {
        GatherHalts(fetch, k, fetched, errors);
      } else {
        GatherStep(fetch, k, fetched, errors);
        GatherCalls(fetch, k + 1, Store(fetched, k, data), Note(errors, data));
        assert ToolNames[k..CallCount(FirstHaltFrom(fetch, k))]
            == [ToolNames[k]] + ToolNames[k + 1..CallCount(FirstHaltFrom(fetch, k + 1))];
      }
    }
  }

  lemma {:induction false} GatherEnd(fetch: Fetcher, k: nat, fetched: map<string, Json>, errors: seq<Json>)
    requires k <= ToolCount
    ensures var g := Gather(fetch, k, fetched, errors);
            var h := FirstHaltFrom(fetch, k);
            && (h < ToolCount ==> g.end == Stopped(HaltOf(fetch(ToolNames[h]))))
            && (h == ToolCount ==> g.end.Finished? && g.end.errors == errors + ErrorsFrom(fetch, k))
    decreases ToolCount - k
  {
    if k < ToolCount {
      var data := fetch(ToolNames[k]);
      if Halts(data) {
        GatherHalts(fetch, k, fetched, errors);
      } else {
        GatherStep(fetch, k, fetched, errors);
        GatherEnd(fetch, k + 1, Store(fetched, k, data), Note(errors, data));
      }
    }
  }

  /** Each context key differs from the keys after it. */
  lemma KeyNotLater(k: nat)
    requires k < ToolCount
    ensures ContextKeys[k] !in ContextKeys[k + 1..]
  {
  }

  /** No error message from the `k`-th tool on means no error dict. */
  lemma {:induction false} NoErrorDicts(fetch: Fetcher, k: nat)
    requires k <= ToolCount && ErrorsFrom(fetch, k) == []
    ensures forall m :: k <= m < ToolCount ==> !IsErrorDict(fetch(ToolNames[m]))
    decreases ToolCount - k
  {
    if k < ToolCount {
      assert !IsErrorDict(fetch(ToolNames[k]));
      NoErrorDicts(fetch, k + 1);
    }
  }

  /** `result` is `fetched` with the slots of the tools from the `k`-th on
      stored under their context keys, and nothing else changed. */
  ghost predicate StoredFrom(result: map<string, Json>, fetched: map<string, Json>, fetch: Fetcher, k: nat)
    requires k <= ToolCount
  {
    && (forall key :: key in result <==> key in fetched || key in ContextKeys[k..])
    && (forall key :: key in fetched && key !in ContextKeys[k..] ==> result[key] == fetched[key])
    && (forall m :: k <= m < ToolCount ==> result[ContextKeys[m]] == Slot(m, fetch(ToolNames[m])))
  }

  /** Storing the `k`-th result before the later ones. */
  lemma StoredStep(result: map<string, Json>, fetched: map<string, Json>, fetch: Fetcher, k: nat)
    requires k < ToolCount
    requires StoredFrom(result, Store(fetched, k, fetch(ToolNames[k])), fetch, k + 1)
    ensures StoredFrom(result, fetched, fetch, k)
  {
    KeyNotLater(k);
    assert ContextKeys[k..] == [ContextKeys[k]] + ContextKeys[k + 1..];
  }

  /** A loop that runs to the end stores every result under its context
      key, with the empty default in place of an error dict, adds no other
      key and leaves the other keys alone. */
  lemma {:induction false} GatherFetched(fetch: Fetcher, k: nat, fetched: map<string, Json>, errors: seq<Json>)
    requires k <= ToolCount && FirstHaltFrom(fetch, k) == ToolCount
    ensures var g := Gather(fetch, k, fetched, errors);
            g.end.Finished? && StoredFrom(g.end.fetched, fetched, fetch, k)
    decreases ToolCount - k
  {
    if k < ToolCount {
      var data := fetch(ToolNames[k]);
      var fetched' := Store(fetched, k, data);
      var errors' := Note(errors, data);
      GatherStep(fetch, k, fetched, errors);
      GatherFetched(fetch, k + 1, fetched', errors');
      StoredStep(Gather(fetch, k + 1, fetched', errors').end.fetched, fetched, fetch, k);
    }
  }

  /** `get_full_financial_context_from_mcp_shared(user_id)`. */
  function FetchContext(userId: string, fetch: Fetcher): (r: Aggregation)
    ensures userId == "" ==> r.calls == [] && r.result == Ok(MissingUserIdDict)
    ensures userId != "" ==> |r.calls| >= 1
  {
    if userId == "" then Aggregation([], Ok(MissingUserIdDict))
    else Conclude(Gather(fetch, 0, map[], []))
  }

  /** What the function returns once the loop has ended. */
  function Conclude(g: Run): Aggregation {
    match g.end
    case Stopped(Crash(x)) => Aggregation(g.calls, Raised(x))
    case Stopped(Login(url)) => Aggregation(g.calls, Ok(LoginContext(url)))
    case Finished(fetched, errors) => Aggregation(g.calls, Finish(fetched, errors))
  }

  /** An empty user id is refused before any fetch, with an `"error"` key
      and no `"status"` key. */
  lemma MissingUserIdFetchesNothing(fetch: Fetcher)
    ensures FetchContext("", fetch).calls == []
    ensures FetchContext("", fetch).result.Ok?
    ensures var d := FetchContext("", fetch).result.value;
            "error" in d && d["error"] == JStr("missing_user_id") && "status" !in d
  {
  }

  /** The tools are called in the fixed order, up to and including the
      first one whose result ends the loop. */
  lemma CallsFollowToolOrder(userId: string, fetch: Fetcher)
    requires userId != ""
    ensures FetchContext(userId, fetch).calls == ToolNames[..CallCount(FirstHalt(fetch))]
  {
    GatherCalls(fetch, 0, map[], []);
  }

  /** The first login failure stops all later fetches and is reported with
      its `login_url`; an error dict without a message raises `KeyError`
      at the same point. */
  lemma FirstLoginShortCircuits(userId: string, fetch: Fetcher)
    requires userId != "" && FirstHalt(fetch) < ToolCount
    ensures var v := fetch(ToolNames[FirstHalt(fetch)]);
            var r := FetchContext(userId, fetch);
            && |r.calls| == FirstHalt(fetch) + 1
            && (if "message" in v.fields then r.result == Ok(LoginContext(Get(v.fields, "login_url", JNull)))
                else r.result == Raised(KeyError))
  {
    GatherCalls(fetch, 0, map[], []);
    GatherEnd(fetch, 0, map[], []);
  }

  lemma FetchContextUnfolds(userId: string, fetch: Fetcher)
    requires userId != ""
    ensures FetchContext(userId, fetch) == Conclude(Gather(fetch, 0, map[], []))
  {
  }

  lemma ConcludeWithErrors(r: Aggregation, g: Run, errors: seq<Json>)
    requires r == Conclude(g)
    requires g.end.Finished? && g.end.errors == errors && errors != []
    ensures match AllStrings(errors)
            case Ok(messages) =>
              && r.result == Ok(FetchErrorsContext(messages))
              && "error" !in r.result.value && "status" in r.result.value
              && r.result.value["status"] == JStr("error")
              && r.result.value["message"] == JStr("MCP Data Fetch Errors: " + Join("; ", messages))
              && forall m :: 0 <= m < ToolCount ==> ContextKeys[m] !in r.result.value
            case Raised(_) => r.result == Raised(TypeError)
  {
  }

  /** Without a login failure, any error messages are reported joined in
      tool order, and no category data is returned. */
  lemma FetchErrorsAreJoined(userId: string, fetch: Fetcher)
    requires userId != "" && FirstHalt(fetch) == ToolCount && ErrorsFrom(fetch, 0) != []
    ensures var r := FetchContext(userId, fetch);
            match AllStrings(ErrorsFrom(fetch, 0))
            case Ok(messages) =>
              && r.result == Ok(FetchErrorsContext(messages))
              && r.result.value["message"] == JStr("MCP Data Fetch Errors: " + Join("; ", messages))
              && forall m :: 0 <= m < ToolCount ==> ContextKeys[m] !in r.result.value
            case Raised(_) => r.result == Raised(TypeError)
  {
    GatherEnd(fetch, 0, map[], []);
    FetchContextUnfolds(userId, fetch);
    ConcludeWithErrors(FetchContext(userId, fetch), Gather(fetch, 0, map[], []), ErrorsFrom(fetch, 0));
  }

  /** The dict returned when every fetch succeeded: exactly the six
      results under their context keys, the net worth's salary (0 by
      default) and status `"success"`. */
  ghost predicate SuccessContext(d: map<string, Json>, fetch: Fetcher) {
    var nw := fetch("fetch_net_worth");
    && (forall key :: key in d <==> key in ContextKeys || key == "salary" || key == "status")
    && (forall m :: 0 <= m < ToolCount ==> ContextKeys[m] in d && d[ContextKeys[m]] == fetch(ToolNames[m]))
    && nw.JObj? && "salary" in d && d["salary"] == Get(nw.fields, "salary", JInt(0))
    && "status" in d && d["status"] == JStr("success")
  }

  lemma ConcludeSuccess(r: Aggregation, g: Run, fetch: Fetcher)
    requires r == Conclude(g)
    requires g.end.Finished? && g.end.errors == []
    requires StoredFrom(g.end.fetched, map[], fetch, 0)
    requires forall m :: 0 <= m < ToolCount ==> !IsErrorDict(fetch(ToolNames[m]))
    ensures var nw := fetch("fetch_net_worth");
            && (r.result.Ok? <==> nw.JObj?)
            && (r.result.Raised? ==> r.result.exc == AttributeError)
            && (r.result.Ok? ==> SuccessContext(r.result.value, fetch))
  {
    assert ContextKeys[0..] == ContextKeys;
    assert ContextKeys[4] == "net_worth" && ToolNames[4] == "fetch_net_worth";
    assert "salary" !in ContextKeys && "status" !in ContextKeys;
  }

  /** With no error at all the context holds exactly the six results, the
      net worth's salary (0 by default) and status `"success"`; a net worth
      that is not a dict has no `.get` and raises `AttributeError`. */
  lemma SuccessHoldsAllSix(userId: string, fetch: Fetcher)
    requires userId != "" && FirstHalt(fetch) == ToolCount && ErrorsFrom(fetch, 0) == []
    ensures var r := FetchContext(userId, fetch);
            var nw := fetch("fetch_net_worth");
            && (r.result.Ok? <==> nw.JObj?)
            && (r.result.Raised? ==> r.result.exc == AttributeError)
            && (r.result.Ok? ==> SuccessContext(r.result.value, fetch))
  {
    var g := Gather(fetch, 0, map[], []);
    assert g.end.Finished? && g.end.errors == [] by {
      GatherEnd(fetch, 0, map[], []);
    }
    assert forall m :: 0 <= m < ToolCount ==> !IsErrorDict(fetch(ToolNames[m])) by {
      NoErrorDicts(fetch, 0);
    }
    assert StoredFrom(g.end.fetched, map[], fetch, 0) by {
      GatherFetched(fetch, 0, map[], []);
    }
    assert FetchContext(userId, fetch) == Conclude(g) by {
      FetchContextUnfolds(userId, fetch);
    }
    ConcludeSuccess(FetchContext(userId, fetch), g, fetch);
  }

  /** What the returned dict looks like when the loop halted early. */
  lemma HaltedShape(userId: string, fetch: Fetcher)
    requires userId != "" && FirstHalt(fetch) < ToolCount
    ensures var r := FetchContext(userId, fetch).result;
            r.Ok? ==> "error" !in r.value && "status" in r.value && r.value["status"] == JStr("error")
  {
    var r := FetchContext(userId, fetch).result;
    var v := fetch(ToolNames[FirstHalt(fetch)]);
    var url := Get(v.fields, "login_url", JNull);
    assert r == Ok(LoginContext(url)) || r == Raised(KeyError) by {
      FirstLoginShortCircuits(userId, fetch);
    }
    assert "error" !in LoginContext(url) && LoginContext(url)["status"] == JStr("error");
  }

  /** What the returned dict looks like when some fetch reported an error. */
  lemma ErrorsShape(userId: string, fetch: Fetcher)
    requires userId != "" && FirstHalt(fetch) == ToolCount && ErrorsFrom(fetch, 0) != []
    ensures var r := FetchContext(userId, fetch).result;
            r.Ok? ==> "error" !in r.value && "status" in r.value && r.value["status"] == JStr("error")
  {
    var g := Gather(fetch, 0, map[], []);
    GatherEnd(fetch, 0, map[], []);
    FetchContextUnfolds(userId, fetch);
    ConcludeWithErrors(FetchContext(userId, fetch), g, ErrorsFrom(fetch, 0));
  }

  /** What the returned dict looks like when every fetch succeeded. */
  lemma SuccessShape(userId: string, fetch: Fetcher)
    requires userId != "" && FirstHalt(fetch) == ToolCount && ErrorsFrom(fetch, 0) == []
    ensures var r := FetchContext(userId, fetch).result;
            r.Ok? ==> "error" !in r.value && "status" in r.value && r.value["status"] != JStr("error")
  {
    var r := FetchContext(userId, fetch).result;
    if r.Ok? {
      assert SuccessContext(r.value, fetch) by {
        SuccessHoldsAllSix(userId, fetch);
      }
      SuccessContextShape(r.value, fetch);
    }
  }

  lemma SuccessContextShape(d: map<string, Json>, fetch: Fetcher)
    requires SuccessContext(d, fetch)
    ensures "error" !in d && "status" in d && d["status"] != JStr("error")
  {
    assert "error" !in ContextKeys;
  }

  /** Only the missing-user-id dict carries an `"error"` key; every other
      dict the function returns carries a `"status"`, which is `"error"`
      exactly when some fetch failed. */
  lemma ErrorKeyOnlyWithoutUserId(userId: string, fetch: Fetcher)
    ensures var r := FetchContext(userId, fetch).result;
            r.Ok? ==> ("error" in r.value <==> userId == "")
    ensures var r := FetchContext(userId, fetch).result;
            r.Ok? && userId != "" ==>
              && "status" in r.value
              && (r.value["status"] == JStr("error") <==> FirstHalt(fetch) < ToolCount || ErrorsFrom(fetch, 0) != [])
  {
    if userId != "" {
      if FirstHalt(fetch) < ToolCount {
        HaltedShape(userId, fetch);
      } else if ErrorsFrom(fetch, 0) != [] {
        ErrorsShape(userId, fetch);
      } else {
        SuccessShape(userId, fetch);
      }
    }
  }
}
