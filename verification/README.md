# ARTHAX financial context and reply handling, modelled in Dafny

ARTHAX answers questions about a user's finances: home-loan affordability,
a spending analysis and a breakdown of a financial goal. Each answer is
built the same way:

- six records are fetched from the MCP profile server;
- they are folded into one context dict;
- the context is put to a Gemini model;
- the dict is picked out of the model's free-text reply.

This project models the logic between those I/O calls and proves what
that logic promises.

- **Values.** `PyJson` models JSON as Python holds it (`None`, `bool`,
  `int`, `str`, `list`, `dict`). It also models the Python operations the
  code applies to such values, each with the exception it raises: `in`,
  `d[k]`, `d.get`, `.get` on a non-dict, and the `"; ".join` of possibly
  non-string messages. `PyStr` holds `str.strip`, `str.isspace`,
  substring search, `sep.join` and `str(n)`.
- **The brace extractor.** `BraceSpan` is an explicit scanner for what
  `re.search(r'\{(?:[^{}]|(?:\{[^{}]*\}))*\}', text, re.S)` finds: the
  leftmost start whose brace-depth scan, capped at two levels, returns
  to depth 0. `BracePattern` reads the pattern's own grammar (braces
  around non-brace characters and brace pairs without inner braces). It
  proves that this grammar accepts exactly the balanced spans, so the
  scanner returns the regex's match.
- **The login URL capture.** `LoginUrl` models
  `re.search(r'"login_url":\s*"(.*?)"', raw)`.
- **The MCP normaliser.** `McpFetch` models `fetch_data_from_mcp` after the
  HTTP round trip. The transport outcome (timeout, unreachable server,
  HTTP error status, delivered body) is an input. It covers the envelope
  check, the second decode of the inner text, the well-formed and the
  malformed login-required replies, the expected key of each tool, and
  the dict returned for each error code.
- **The aggregator.** `Context` models
  `get_full_financial_context_from_mcp_shared` as a fold over the six
  tools in their fixed order. The fetcher is an oracle. The fold keeps the
  trace of tools called, the first login failure short-circuits it, and
  all-or-nothing error reporting follows it. `Pipeline` connects the fold
  to the normaliser.
- **The reply parsers and the result gates.** `Replies` models the two
  reply parsers: `_call_gemini_and_parse_json`, and the `try` block shared
  by the spending analysis and the goal breakdown. `HomeLoan` and
  `Spending` model the result gates of the three public functions. They
  key on `"status"` for the home loan and on `"error"` for the other two.

`json.loads` and `response.json()` are a `Decoder` oracle
(`string -> Decoded`). The model's reply is a `Model` oracle from the
context to the raw reply text. The MCP server is a `Fetcher` oracle from
the tool name to the JSON value `fetch_data_from_mcp` returns: an error
dict, or whatever value the server sent under the tool's expected key. Nothing is
assumed about the oracles, except in the few lemmas that name one of two
premises:

- `Replies.ObjectsFromBraces`: a text starting with `{` decodes, if at
  all, to a dict, as the JSON grammar says.
- `Pipeline.Normalised`: the fetcher returns what the normaliser makes of
  some transport outcome, and no payload the server sends is itself a dict
  with an `"error"` key.

## Behaviour worth knowing

- An empty user id is refused with an `"error"` key and no `"status"` key.
  The home-loan gate tests `"status"`, so it lets that dict through to the
  model (`HomeLoan.MissingUserIdReachesModel`).
- These failures are not caught anywhere in the three functions:
  - the aggregator raises `KeyError` on an error dict without `"message"`;
  - it raises `TypeError` when `"; ".join` meets a non-string message;
  - it raises `AttributeError` when the net worth is not a dict;
  - the home-loan function raises `AttributeError` when the model's span
    decodes to a non-dict.

  The model keeps each of these as `Raised`.
- A timeout's message does not name the category: it is
  `"MCP request timed out."` for every tool.
- The envelope chain raises `TypeError` in two ways: `in` on `None`, a
  bool or an int (e.g. `"result": 3`), and indexing a list or str with a
  str key once `in` has succeeded on it (e.g. `"result": ["content"]` or
  `"result": "content"`). Either ends in `unexpected_error`, not
  `empty_response`.
- A span that fails to decode reports `str(e)` as `details` and the
  stripped reply as `gemini_response`. The failed span itself is not
  kept.
- The spending analysis stops on an aggregator login or fetch-error dict
  with its "no data" report. The `"error"` gate does not catch those dicts
  and they hold no data (`Spending.LoginFailureLosesUrl`), so the login
  URL is dropped.

## Model

| member | source | states |
|---|---|---|
| PyStr.Strip | tools/home_loan_affordability.py:85 | the stripped reply is a slice of the raw reply with only whitespace cut on either side, and it neither starts nor ends with whitespace; it is empty exactly when the reply is all whitespace |
| PyStr.TrimEnd | tools/home_loan_affordability.py:85 | the cut end leaves only whitespace after it and, unless nothing is left, a non-space character just before it |
| PyStr.StripIdempotent | tools/analyse_spending_patterns.py:155 | stripping an already stripped reply changes nothing |
| PyStr.JoinContainsEachPart | tools/home_loan_affordability.py:257 | every fetch-error message occurs in the joined report |
| PyStr.Decimal | tools/home_loan_affordability.py:209 | `str(status_code)` is a non-empty run of decimal digits without a leading zero |
| PyStr.DecimalRoundTrip | tools/home_loan_affordability.py:209 | reading the printed status code back gives the status code |
| PyJson.In | tools/home_loan_affordability.py:159-163 | `key in v` is key membership on a dict, element membership of the str on a list and substring search on a str; it raises `TypeError`, and only that, exactly on `None`, a bool or an int |
| PyJson.Item | tools/home_loan_affordability.py:164 | `v[key]` succeeds exactly on a dict that holds the key; `KeyError` exactly on a dict without it |
| PyJson.Lookup | tools/analyse_spending_patterns.py:136 | `d[key]` succeeds exactly when the key is present, with the value stored under it, and raises `KeyError` otherwise |
| PyJson.GetAttr | tools/home_loan_affordability.py:263 | `.get` on a dict yields the stored value or the default; on any other value it raises `AttributeError` |
| PyJson.AllStrings | tools/home_loan_affordability.py:257 | the join succeeds exactly when every message is a str, and yields those strings in order |
| BraceSpan.Scan | tools/home_loan_affordability.py:90 | the depth-capped scan from an opening brace closes exactly at the end of a balanced span, and fails only when no such end exists |
| BraceSpan.CloseFrom | tools/home_loan_affordability.py:90 | the pattern tried at one start returns the end of a balanced span or there is none from that start |
| BraceSpan.SearchFrom | tools/home_loan_affordability.py:90 | the search returns a balanced span with no balanced span starting earlier, or none exists at all |
| BraceSpan.BalancedEndUnique | tools/home_loan_affordability.py:90 | at a given start the pattern has at most one match end |
| BraceSpan.SearchIsLeftmost | tools/home_loan_affordability.py:90 | the search result is exactly the leftmost-start balanced span, and it fails exactly when no span anywhere is balanced |
| BraceSpan.MatchShape | tools/home_loan_affordability.py:90-94 | a matched span is at least two characters, opens with `{` and closes with `}` |
| BraceSpan.ThreeLevelsYieldInnerTwo | tools/home_loan_affordability.py:90-94 | on `{{{a}}}` the match is `{{a}}` |
| BracePattern.AcceptsIffBalanced | tools/home_loan_affordability.py:90 | the regex's grammar accepts a text exactly when the text is a balanced span of depth at most two |
| BracePattern.SpansAccepted | tools/analyse_spending_patterns.py:158 | every substring is accepted by the grammar exactly when it is a balanced span |
| BracePattern.SearchMatchesPattern | tools/analyse_spending_patterns.py:317 | the scanner's span is accepted by the grammar, has the only accepted end at its start, no accepted span starts earlier, and the scanner fails exactly when nothing is accepted |
| LoginUrl.SkipSpaces | tools/home_loan_affordability.py:171 | `\s*` consumes exactly the whitespace run after the key |
| LoginUrl.ClosingQuote | tools/home_loan_affordability.py:171 | the lazy `(.*?)"` stops at the first quote, and fails exactly when a newline or the end comes first |
| LoginUrl.MatchFrom | tools/home_loan_affordability.py:171 | the pattern tried at a position returns its match there, or there is none |
| LoginUrl.SearchFrom | tools/home_loan_affordability.py:171 | the search returns the match with the leftmost start, or the pattern matches nowhere |
| LoginUrl.FirstCapture | tools/home_loan_affordability.py:171-172 | `match.group(1)` is the capture of the leftmost match, absent exactly when the pattern matches nowhere |
| LoginUrl.MatchUnique | tools/home_loan_affordability.py:171 | at a given start the match, and so the capture, is unique |
| LoginUrl.CaptureIsOneLine | tools/home_loan_affordability.py:171 | the captured URL holds no quote and no newline |
| LoginUrl.CaptureRecoversField | tools/home_loan_affordability.py:171-172 | a body that opens with the login-url field written with any whitespace yields exactly that URL, whatever follows |
| McpFetch.AsDict | tools/home_loan_affordability.py:173-212 | a payload is returned unchanged; every failure becomes a dict holding its own `"error"` code and `"message"` text from lines 173-212; the code is `login_required` exactly for a login failure, which alone adds `"login_url"` with its URL |
| McpFetch.HttpMessageDetermines | tools/home_loan_affordability.py:209 | the `http_error` message gives back both the status code and the response body |
| McpFetch.FailureDictIdentifies | tools/home_loan_affordability.py:169-212 | two failures that give the same dict are the same failure, so the dict a caller receives names exactly one failure, with its tool, URL, status code and body |
| McpFetch.InnerTextOnlyFromEnvelope | tools/home_loan_affordability.py:159-164 | the inner text is read exactly when `result.content` is a non-empty list whose first element is a dict holding `text`, and it is that value |
| McpFetch.InnerTextAgreement | tools/home_loan_affordability.py:159-164 | for every candidate text, reading the inner text agrees with the envelope shape |
| McpFetch.MissingFieldsReadNothing | tools/home_loan_affordability.py:197-199 | a dict envelope that lacks `result`, `content`, a non-empty list or `text` reads nothing, without raising |
| McpFetch.ExpectedKey | tools/home_loan_affordability.py:180-187 | no contract of its own: the tool-to-key table, which `McpFetch.Interpret`'s contract reads and `Pipeline.EveryToolHasExpectedKey` covers for the six tools |
| McpFetch.InnerText | tools/home_loan_affordability.py:159-164 | no contract of its own: `McpFetch.InnerTextOnlyFromEnvelope`, `McpFetch.InnerTextAgreement` and `McpFetch.MissingFieldsReadNothing` characterise it |
| McpFetch.Undecodable | tools/home_loan_affordability.py:167-174 | an undecodable inner text is a login failure exactly when it contains both `login_required` and `login_url`, with the first capture or the fallback URL; otherwise it is `invalid_json` |
| McpFetch.Interpret | tools/home_loan_affordability.py:176-196 | a login status with a truthy URL wins before any data lookup; otherwise a known tool's payload is its expected field exactly when that field is truthy, and an unknown tool's is the whole dict exactly when it is not empty; a dict fails only as login or `no_data`; a non-dict is `unexpected_error` |
| McpFetch.DecodeInner | tools/home_loan_affordability.py:164-212 | a text that is not a str raises in `json.loads` and ends as `unexpected_error`; an undecodable str is handled as `McpFetch.Undecodable` states, a login failure exactly when both markers are present and `invalid_json` otherwise; a str decoding to a dict gives what `McpFetch.Interpret` states, a payload, a login failure or `no_data`; one decoding to a non-dict raises `AttributeError` on `.get` and ends as `unexpected_error` |
| McpFetch.Fetch | tools/home_loan_affordability.py:150-212 | each transport failure maps to its code; an undecodable body is `unexpected_error`; without an envelope the result is `empty_response` or `unexpected_error`; an envelope whose `text` is not a str is `unexpected_error`; a str text is handled as undecodable or interpreted |
| Context.FirstHaltFrom | tools/home_loan_affordability.py:241-249 | the first tool whose result ends the loop; no tool before it ends the loop |
| Context.FetchContext | tools/home_loan_affordability.py:221-222 | an empty user id fetches nothing and returns the missing-user-id dict; otherwise at least one tool is called |
| Context.LoginContextShape | tools/home_loan_affordability.py:249 | the login dict has status `"error"`, the login message, the URL given and no `"error"` key |
| Context.FetchErrorsContextShape | tools/home_loan_affordability.py:260 | the fetch-error dict has status `"error"`, the joined message, no login URL and no `"error"` key |
| Context.Gather | tools/home_loan_affordability.py:241-253 | no contract of its own: `Context.GatherCalls`, `Context.GatherEnd` and `Context.GatherFetched` characterise the fold |
| Context.Finish | tools/home_loan_affordability.py:255-268 | no contract of its own: `Context.ConcludeWithErrors` and `Context.ConcludeSuccess` characterise it |
| Context.Conclude | tools/home_loan_affordability.py:255-268 | no contract of its own: `Context.ConcludeWithErrors` and `Context.ConcludeSuccess` state what it returns after a finished loop, and `Context.FirstLoginShortCircuits` after a halt |
| Context.GatherCalls | tools/home_loan_affordability.py:241-249 | the fold calls the tools in order up to and including the first that ends it |
| Context.GatherEnd | tools/home_loan_affordability.py:241-253 | the fold stops at the first halting result, with its login URL or `KeyError`, or finishes having collected the error messages in tool order |
| Context.GatherFetched | tools/home_loan_affordability.py:250-253 | a fold that runs to the end stores each tool's result under its context key, with the empty default in place of an error dict, adds no other key and leaves the other keys alone |
| Context.ConcludeWithErrors | tools/home_loan_affordability.py:255-260 | collected errors give the joined report with status `"error"`, no `"error"` key and no category data, or `TypeError` when a message is not a str |
| Context.ConcludeSuccess | tools/home_loan_affordability.py:262-268 | without errors the context is built exactly when the net worth is a dict, and raises `AttributeError` otherwise |
| Context.MissingUserIdFetchesNothing | tools/home_loan_affordability.py:221-222 | an empty user id calls no tool and returns a dict with `"error": "missing_user_id"` and no `"status"` |
| Context.CallsFollowToolOrder | tools/home_loan_affordability.py:232-242 | the tools are called in the fixed order, up to and including the first whose result ends the loop |
| Context.FirstLoginShortCircuits | tools/home_loan_affordability.py:243-249 | the first login failure stops all later fetches and returns the login dict with its URL; an error dict without a message raises `KeyError` at the same point |
| Context.FetchErrorsAreJoined | tools/home_loan_affordability.py:255-260 | without a login failure, error messages are joined in tool order and no category data is returned |
| Context.SuccessHoldsAllSix | tools/home_loan_affordability.py:262-268 | with no error the context holds exactly the six results under their keys, the net worth's salary (default 0) and status `"success"`; a non-dict net worth raises `AttributeError` |
| Context.HaltedShape | tools/home_loan_affordability.py:243-249 | a halted fold returns a dict with status `"error"` and no `"error"` key |
| Context.ErrorsShape | tools/home_loan_affordability.py:255-260 | a fold with fetch errors returns a dict with status `"error"` and no `"error"` key |
| Context.SuccessShape | tools/home_loan_affordability.py:262-268 | a fold without errors returns a dict whose status is not `"error"` and that has no `"error"` key |
| Context.SuccessContextShape | tools/home_loan_affordability.py:262-268 | the success context has no `"error"` key and a status other than `"error"` |
| Context.ErrorKeyOnlyWithoutUserId | tools/home_loan_affordability.py:215-268 | only the missing-user-id dict has an `"error"` key; every other returned dict has a `"status"`, which is `"error"` exactly when some fetch failed |
| Pipeline.EveryToolHasExpectedKey | tools/home_loan_affordability.py:232-239 | each of the six tools the aggregator calls has an expected key in the normaliser's table |
| Pipeline.NormalisedError | tools/home_loan_affordability.py:243-244 | an error dict out of the normaliser comes from a failure and has a str message |
| Pipeline.ErrorsAreStrings | tools/home_loan_affordability.py:244 | when every error dict has a str message, every collected message is a str |
| Pipeline.NormalisedMessagesAreStrings | tools/home_loan_affordability.py:257 | fed by the normaliser, the join of error messages never raises |
| Pipeline.NormalisedLoginReachesCaller | tools/home_loan_affordability.py:243-249 | fed by the normaliser, the loop halts only on a login failure and reports the URL the normaliser found |
| Pipeline.NormalisedFetchesRaiseOnlyOnNetWorth | tools/home_loan_affordability.py:215-268 | fed by the normaliser, the aggregator raises only `AttributeError`, and only when the net worth is not a dict |
| Replies.SearchPicksLeftmost | tools/home_loan_affordability.py:90 | the search returns exactly the leftmost balanced span, and nothing exactly when no span is balanced |
| Replies.Extract | tools/home_loan_affordability.py:90-95 | no object exactly when no span is balanced; otherwise the decode of the leftmost span |
| Replies.FoundIsObject | tools/home_loan_affordability.py:90-95 | under a grammar-following decoder, a decoded span is a dict |
| Replies.CallAndParse | tools/home_loan_affordability.py:85-106 | no span gives "JSON extraction/parsing failed" with the stripped reply as `gemini_response`; an undecodable span gives "Invalid JSON from Gemini" with `str(e)`; otherwise `{"status": "success", "data": parsed}` |
| Replies.Response | tools/home_loan_affordability.py:90-106 | no contract of its own: `Replies.CallAndParse` states the dict returned for each extraction, and `HomeLoan.SettleResponse` what follows it |
| Replies.ParseReply | tools/analyse_spending_patterns.py:155-182 | no span gives the no-object message with the stripped reply as details; a decoded dict has `"status"` forced to `"success"`; a decoded non-dict reports the item-assignment `TypeError`; a decode failure gives the not-JSON message with `str(e)` and the reply |
| Replies.ReplyDictStatus | tools/analyse_spending_patterns.py:163-171 | every reply dict has a `"status"`, `"success"` exactly for an extracted dict; otherwise its message names the way it failed |
| Replies.ReplyDict | tools/analyse_spending_patterns.py:155-182 | no contract of its own: `Replies.ReplyDictStatus` and `Replies.ParseReply` characterise it |
| Replies.ReplyStatus | tools/analyse_spending_patterns.py:314-333 | the status is `"success"` exactly when the leftmost span decodes to a dict, `"error"` with no span, and under a grammar-following decoder the catch-all message never appears |
| HomeLoan.FetchFailureShape | tools/home_loan_affordability.py:321-330 | the early return carries the empty verdict fields and the context's message, details and login URL with the source's defaults |
| HomeLoan.AnalysisFailureShape | tools/home_loan_affordability.py:347-357 | the failure return carries the empty verdict fields and the reply's message, details and raw reply with the source's defaults |
| HomeLoan.SettleResponse | tools/home_loan_affordability.py:342-357 | a decoded dict is returned with its own status kept or `"success"` added; a decoded non-dict raises `AttributeError`; each failure is reported with the empty verdict |
| HomeLoan.Settle | tools/home_loan_affordability.py:342-357 | no contract of its own: `HomeLoan.SettleResponse` states its result for every dict the reply parser returns |
| HomeLoan.Verdict | tools/home_loan_affordability.py:339-357 | no contract of its own: `HomeLoan.VerdictFollowsReply` states the verdict for every raw reply |
| HomeLoan.VerdictFollowsReply | tools/home_loan_affordability.py:339-357 | the verdict for a raw reply: the leftmost span's dict with its own status, `AttributeError` for a non-dict, or the empty verdict with the failure's message and the stripped reply |
| HomeLoan.Analyze | tools/home_loan_affordability.py:318-357 | the model is asked exactly when the context's status is not `"error"`, about that context; otherwise the early return keeps the login URL, message and details, with the source's defaults, next to the empty verdict |
| HomeLoan.AnalyzeHomeLoanAffordability | tools/home_loan_affordability.py:312-357 | no contract of its own: it is `HomeLoan.Analyze` after the aggregator, and `HomeLoan.ModelAskedUnlessFetchFailed`, `HomeLoan.LoginFailureKeepsUrl`, `HomeLoan.FetchErrorsSkipModel` and `HomeLoan.MissingUserIdReachesModel` state it end to end |
| HomeLoan.MissingUserIdReachesModel | tools/home_loan_affordability.py:321 | the status-less missing-user-id dict is not caught and is put to the model |
| HomeLoan.ModelAskedUnlessFetchFailed | tools/home_loan_affordability.py:318-341 | the model is asked exactly when the user id is empty or every fetch succeeded |
| HomeLoan.LoginFailureKeepsUrl | tools/home_loan_affordability.py:321-330 | a login failure skips the model and passes the login URL and message on with the empty verdict |
| HomeLoan.FetchErrorsSkipModel | tools/home_loan_affordability.py:321-330 | fetch errors skip the model and report the joined messages without a login URL |
| HomeLoan.GrammarDecoderNeverRaises | tools/home_loan_affordability.py:342-346 | under a grammar-following decoder the analysis of any reply returns a dict |
| Spending.HasData | tools/analyse_spending_patterns.py:140 | no contract of its own: the data gate; `Spending.AnalyzeFrom` states where it sends a context, and `Spending.ReportHasNoData`, `Spending.LoginContextReadsAsNoData` and `Spending.FetchErrorsReadAsNoData` show which dicts fail it |
| Spending.ErrorReport | tools/analyse_spending_patterns.py:135-136 | the pass-through succeeds exactly when the context has `"message"` and `"details"` (`KeyError` otherwise) and carries them and the login URL |
| Spending.AnalyzeFrom | tools/analyse_spending_patterns.py:134-167 | the model is asked exactly when the context has no `"error"` key and has data; an `"error"` key is passed through; no data gives the "no data" report |
| Spending.GoalFrom | tools/analyse_spending_patterns.py:281-326 | the model is asked exactly when the context has no `"error"` key; there is no data gate |
| Spending.AnalyzeFinancialData | tools/analyse_spending_patterns.py:130-182 | no contract of its own: it is `Spending.AnalyzeFrom` after the aggregator, and `Spending.LoginFailureLosesUrl` and `Spending.MissingUserIdReported` state it end to end |
| Spending.GoalBreakdown | tools/analyse_spending_patterns.py:262-333 | no contract of its own: it is `Spending.GoalFrom` after the aggregator, and `Spending.GoalAsksModelAfterLoginFailure`, `Spending.GoalAskedUnlessNoUserId` and `Spending.MissingUserIdReported` state it end to end |
| Spending.ReportHasNoData | tools/analyse_spending_patterns.py:140-142 | a dict holding only report keys has no `"error"` key and no data |
| Spending.LoginContextReadsAsNoData | tools/analyse_spending_patterns.py:135-142 | the aggregator's login dict passes the `"error"` gate and ends in the "no data" report without a login URL |
| Spending.FetchErrorsReadAsNoData | tools/analyse_spending_patterns.py:135-142 | the joined fetch-error dict also ends in the "no data" report |
| Spending.LoginFailureLosesUrl | tools/analyse_spending_patterns.py:134-142 | a login failure during the fetch ends the spending analysis without asking the model and without the login URL |
| Spending.GoalAsksModelAfterLoginFailure | tools/analyse_spending_patterns.py:281-283 | after a login failure the goal breakdown asks the model about the login dict itself |
| Spending.GoalAskedUnlessNoUserId | tools/analyse_spending_patterns.py:282-283 | the goal breakdown asks the model exactly when the user id is not empty |
| Spending.MissingUserIdReported | tools/analyse_spending_patterns.py:135-136 | an empty user id is reported by both functions with the aggregator's message and details and no login URL |

## Left out

- The HTTP transport (`requests.post`, its timeout, `raise_for_status`): the transport outcome is an input variant of `McpFetch.Fetch`.
- The request payload and headers sent to the MCP endpoint: they do not influence the result.
- Vertex AI initialisation, `generate_content`, and the sniffing of gRPC and connection errors (tools/home_loan_affordability.py:107-113, tools/analyse_spending_patterns.py:175-182): these are foreign SDK exceptions. The model's reply text is an oracle.
- The "model not available" return of `_call_gemini_and_parse_json` (tools/home_loan_affordability.py:77-79): it depends on module initialisation state.
- The `except ValueError` branch of `analyze_financial_data` (tools/analyse_spending_patterns.py:172-174): within the modelled logic the only `ValueError` is the `json.JSONDecodeError` caught before it; one raised by the model SDK is a foreign exception, left out with the others.
- The `Pipeline` lemmas assume that no payload the server sends is itself a dict with an `"error"` key (`Pipeline.Normalised`): the aggregator would read such a payload as a failed fetch.
- The JSON grammar: `json.loads` is an oracle. `Replies.ObjectsFromBraces` states the one property of it some lemmas use.
- Floats in JSON values: a float salary compared with 0 is not modelled.
- The sparse-data warning in `analyze_home_loan_affordability`: it only logs.
- Prompt construction, `build_home_loan_prompt`, `json.dumps` of the context, and logging: they are text formatting.
- `plot_spending_pie` and `suggest_expense_category`: they are float parsing and plotting, and a bare model call.
- backend/app.py: Flask routing. Its 401 branch tests `result.get("error")`, which the three functions never set from the fetched context on a login failure (a model reply passed on by the goal breakdown may carry any key).
- The spending functions import the aggregator from backend/gemini_mcp_utils.py. That file is not part of this model; the aggregator of tools/home_loan_affordability.py stands for it.
- A `user_id` of `None`: only strings are modelled, and the empty string is the falsy one.
- McpFetch.Fetch: for an envelope that is absent it states `empty_response` or `unexpected_error`, not which. A chain of dicts and lists that comes out false reads nothing (`McpFetch.MissingFieldsReadNothing`), while the `TypeError` raised by `in` on `None`, a bool or an int, or by indexing a list or str with a str key, is left to `McpFetch.InnerText`'s body.
