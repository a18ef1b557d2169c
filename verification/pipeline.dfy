/** The aggregator fed by the normaliser: every fetch result is the dict
    `fetch_data_from_mcp` builds from a normalised outcome. */
module Pipeline {
  import opened PyJson
  import McpFetch
  import opened Context

  /** Every fetch result comes out of the normaliser, and no payload the
      server sends is itself shaped like an error dict. */
  ghost predicate Normalised(fetch: Fetcher, outcome: string -> McpFetch.FetchOutcome) {
    forall tool: string ::
      && fetch(tool) == McpFetch.AsDict(outcome(tool))
      && (outcome(tool).Payload? ==> !IsErrorDict(outcome(tool).data))
  }

  /** Every tool the aggregator calls is one the normaliser knows: its
      data is read from an expected key, never the whole inner dict. */
  lemma EveryToolHasExpectedKey(m: nat)
    requires m < ToolCount
    ensures McpFetch.ExpectedKey(ToolNames[m]).Some?
  {
  }

  /** An error dict out of the normaliser is a failure's dict, with a str
      message. */
  lemma NormalisedError(fetch: Fetcher, outcome: string -> McpFetch.FetchOutcome, tool: string)
    requires Normalised(fetch, outcome) && IsErrorDict(fetch(tool))
    ensures outcome(tool).Failed?
    ensures "message" in fetch(tool).fields && fetch(tool).fields["message"].JStr?
  {
    var o := outcome(tool);
    assert fetch(tool) == McpFetch.AsDict(o);
  }

  /** Every error dict among the results from the `k`-th tool on has a
      str message. */
  ghost predicate StringMessagesFrom(fetch: Fetcher, k: nat) {
    forall m :: k <= m < ToolCount && IsErrorDict(fetch(ToolNames[m])) ==>
      "message" in fetch(ToolNames[m]).fields && fetch(ToolNames[m]).fields["message"].JStr?
  }

  /** When every error dict has a str message, the collected messages are
      all strings. */
  lemma {:induction false} ErrorsAreStrings(fetch: Fetcher, k: nat)
    requires k <= ToolCount && StringMessagesFrom(fetch, k)
    ensures forall m :: 0 <= m < |ErrorsFrom(fetch, k)| ==> ErrorsFrom(fetch, k)[m].JStr?
    decreases ToolCount - k
  {
    if k < ToolCount {
      var v := fetch(ToolNames[k]);
      var head := if IsErrorDict(v) then [v.fields["message"]] else [];
      ErrorsAreStrings(fetch, k + 1);
      assert ErrorsFrom(fetch, k) == head + ErrorsFrom(fetch, k + 1);
      StringsConcat(head, ErrorsFrom(fetch, k + 1));
    }
  }

  lemma StringsConcat(a: seq<Json>, b: seq<Json>)
    requires forall m :: 0 <= m < |a| ==> a[m].JStr?
    requires forall m :: 0 <= m < |b| ==> b[m].JStr?
    ensures forall m :: 0 <= m < |a + b| ==> (a + b)[m].JStr?
  {
  }

  /** Every error message the normaliser produces is a string. */
  lemma NormalisedMessagesAreStrings(fetch: Fetcher, outcome: string -> McpFetch.FetchOutcome)
    requires Normalised(fetch, outcome)
    ensures AllStrings(ErrorsFrom(fetch, 0)).Ok?
  {
    forall m | 0 <= m < ToolCount && IsErrorDict(fetch(ToolNames[m]))
      ensures "message" in fetch(ToolNames[m]).fields && fetch(ToolNames[m]).fields["message"].JStr?
    {
      NormalisedError(fetch, outcome, ToolNames[m]);
    }
    ErrorsAreStrings(fetch, 0);
  }

  /** A loop that halts on a normalised result halts on a login failure,
      never on the `KeyError`, and reports the URL the normaliser found. */
  lemma NormalisedLoginReachesCaller(userId: string, fetch: Fetcher, outcome: string -> McpFetch.FetchOutcome)
    requires Normalised(fetch, outcome)
    requires userId != "" && FirstHalt(fetch) < ToolCount
    ensures var o := outcome(ToolNames[FirstHalt(fetch)]);
            && o.Failed? && o.error.LoginRequired?
            && FetchContext(userId, fetch).result == Ok(LoginContext(o.error.loginUrl))
  {
    var tool := ToolNames[FirstHalt(fetch)];
    var v := fetch(tool);
    var o := outcome(tool);
    NormalisedError(fetch, outcome, tool);
    assert v == McpFetch.AsDict(o);
    assert "message" in v.fields && v.fields["error"] == JStr("login_required");
    assert FetchContext(userId, fetch).result == Ok(LoginContext(Get(v.fields, "login_url", JNull))) by {
      FirstLoginShortCircuits(userId, fetch);
    }
  }

  /** Fed by the normaliser, the aggregator raises only when the net worth
      payload is not a dict and `.get("salary", 0)` fails on it. */
  lemma NormalisedFetchesRaiseOnlyOnNetWorth(userId: string, fetch: Fetcher, outcome: string -> McpFetch.FetchOutcome)
    requires Normalised(fetch, outcome)
    ensures var r := FetchContext(userId, fetch).result;
            r.Raised? ==> r.exc == AttributeError && !fetch("fetch_net_worth").JObj?
  {
    if userId != "" {
      if FirstHalt(fetch) < ToolCount {
        NormalisedLoginReachesCaller(userId, fetch, outcome);
      } else if ErrorsFrom(fetch, 0) != [] {
        NormalisedMessagesAreStrings(fetch, outcome);
        assert FetchContext(userId, fetch).result.Ok? by {
          FetchErrorsAreJoined(userId, fetch);
        }
      } else {
        SuccessHoldsAllSix(userId, fetch);
      }
    }
  }
}
