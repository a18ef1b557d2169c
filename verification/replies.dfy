/** Turning the model's reply text into a dict: strip it, take the first
    brace span the extraction regex finds, and `json.loads` that span.
    `_call_gemini_and_parse_json` wraps the outcome one way; the spending
    analysis and the goal breakdown wrap it another. */
module Replies {
  import opened Wrappers
  import opened PyStr
  import opened PyJson
  import opened BraceSpan

  /** What the regex search and the decoder make of a reply: no span at
      all, a span `json.loads` rejects (with `str(e)`), or the decoded value. */
  datatype Extraction = NoObject | NotJson(message: string) | Found(value: Json)

  /** The model's reply (`resp.text`) to the prompt built from a context.
      The prompt's wording, and the question or goal it carries, are fixed
      by the caller and not modelled. */
  type Model = map<string, Json> -> string

  /** One analysis: the context the model was asked about, if it was asked
      at all, and what the function returned or raised. */
  datatype Analysis = Analysis(asked: Option<map<string, Json>>, result: Py<map<string, Json>>)

  function Outcome(d: Decoded): Extraction {
    match d
    case Parsed(v) => Found(v)
    case DecodeError(m) => NotJson(m)
  }

  /** What the JSON grammar promises of `json.loads`: a text that starts
      with `{` decodes, if at all, to an object. */
  ghost predicate ObjectsFromBraces(decode: Decoder) {
    forall s: string :: |s| > 0 && s[0] == '{' && decode(s).Parsed? ==> decode(s).value.JObj?
  }

  lemma SearchPicksLeftmost(text: string)
    ensures forall s: nat, e: nat :: Search(text) == Some(Span(s, e)) <==> LeftmostMatch(text, s, e)
    ensures Search(text).None? <==> forall s: nat, e: nat :: !Balanced(text, s, e)
  {
    forall s: nat, e: nat
      ensures Search(text) == Some(Span(s, e)) <==> LeftmostMatch(text, s, e)
    {
      SearchIsLeftmost(text, s, e);
    }
    SearchIsLeftmost(text, 0, 0);
  }

  /** `re.search(pattern, text, re.S)` followed by `json.loads(m.group(0))`. */
  function Extract(text: string, decode: Decoder): (r: Extraction)
    ensures r.NoObject? <==> forall s: nat, e: nat :: !Balanced(text, s, e)
    ensures forall s: nat, e: nat :: LeftmostMatch(text, s, e) ==> r == Outcome(decode(text[s..e]))
  {
    SearchPicksLeftmost(text);
    match Search(text)
    case None => NoObject
    case Some(sp) => Outcome(decode(text[sp.start..sp.end]))
  }

  /** Under a decoder that follows the JSON grammar, whatever the reply
      yields is a dict. */
  lemma FoundIsObject(text: string, decode: Decoder)
    requires ObjectsFromBraces(decode)
    ensures Extract(text, decode).Found? ==> Extract(text, decode).value.JObj?
  {
    SearchPicksLeftmost(text);
    match Search(text)
    case None =>
    case Some(sp) =>
      MatchShape(text, sp.start, sp.end);
      assert text[sp.start..sp.end][0] == '{';
  }

  const NoObjectMessage := "JSON extraction/parsing failed"
  const NoObjectDetail := "No valid JSON object found in Gemini's response. Raw: "
  const NotJsonMessage := "Invalid JSON from Gemini"

  /** `_call_gemini_and_parse_json` once the model has answered with `raw`:
      the decoded value under `"data"`, or an error dict that carries the
      stripped reply. */
  function CallAndParse(raw: string, decode: Decoder): (r: map<string, Json>)
    ensures var text := Strip(raw);
            && ((forall s: nat, e: nat :: !Balanced(text, s, e)) ==>
                  r == map["status" := JStr("error"), "message" := JStr(NoObjectMessage),
                           "details" := JStr(NoObjectDetail + text), "gemini_response" := JStr(text)])
            && (forall s: nat, e: nat :: LeftmostMatch(text, s, e) ==>
                  match decode(text[s..e])
                  case Parsed(v) => r == map["status" := JStr("success"), "data" := v]
                  case DecodeError(m) =>
                    r == map["status" := JStr("error"), "message" := JStr(NotJsonMessage),
                             "details" := JStr(m), "gemini_response" := JStr(text)])
  {
    var text := Strip(raw);
    Response(text, Extract(text, decode))
  }

  /** The dict `_call_gemini_and_parse_json` returns for the stripped reply
      `text` and what was extracted from it. */
  function Response(text: string, x: Extraction): map<string, Json> {
    match x
    case NoObject =>
      map["status" := JStr("error"), "message" := JStr(NoObjectMessage),
          "details" := JStr(NoObjectDetail + text), "gemini_response" := JStr(text)]
    case NotJson(m) =>
      map["status" := JStr("error"), "message" := JStr(NotJsonMessage),
          "details" := JStr(m), "gemini_response" := JStr(text)]
    case Found(v) => map["status" := JStr("success"), "data" := v]
  }

  /** The messages one analysis uses for its three ways to fail after the
      model has answered. */
  datatype Wording = Wording(noObject: string, notJson: string, unexpected: string)

  /** The `try` block of `analyze_financial_data` and of
      `get_financial_goal_breakdown` once the model has answered with `raw`:
      the decoded dict with `"status"` overwritten, or an error dict. A
      decoded value that is not a dict makes `result["status"] = ...` raise,
      which the generic handler reports with the exception's text. */
  function ParseReply(raw: string, decode: Decoder, w: Wording): (r: map<string, Json>)
    ensures var text := Strip(raw);
            && ((forall s: nat, e: nat :: !Balanced(text, s, e)) ==>
                  r == map["status" := JStr("error"), "message" := JStr(w.noObject), "details" := JStr(text)])
            && (forall s: nat, e: nat :: LeftmostMatch(text, s, e) ==>
                  match decode(text[s..e])
                  case Parsed(JObj(fields)) => r == fields["status" := JStr("success")]
                  case Parsed(v) =>
                    r == map["status" := JStr("error"), "message" := JStr(w.unexpected),
                             "details" := JStr(ItemAssignmentError(v))]
                  case DecodeError(m) =>
                    r == map["status" := JStr("error"), "message" := JStr(w.notJson),
                             "details" := JStr(m), "gemini_response" := JStr(text)])
  {
    var text := Strip(raw);
    ReplyDict(text, Extract(text, decode), w)
  }

  /** The dict the `try` block returns for the stripped reply `text` and
      what was extracted from it. */
  function ReplyDict(text: string, x: Extraction, w: Wording): map<string, Json> {
    match x
    case NoObject => map["status" := JStr("error"), "message" := JStr(w.noObject), "details" := JStr(text)]
    case NotJson(m) =>
      map["status" := JStr("error"), "message" := JStr(w.notJson),
          "details" := JStr(m), "gemini_response" := JStr(text)]
    case Found(JObj(fields)) => fields["status" := JStr("success")]
    case Found(v) =>
      map["status" := JStr("error"), "message" := JStr(w.unexpected), "details" := JStr(ItemAssignmentError(v))]
  }

  /** Every reply dict carries a `"status"`, `"success"` exactly for an
      extracted dict; any other carries the message of its way to fail. */
  lemma ReplyDictStatus(text: string, x: Extraction, w: Wording)
    ensures var r := ReplyDict(text, x, w);
            && "status" in r
            && (r["status"] == JStr("success") <==> x.Found? && x.value.JObj?)
            && (r["status"] != JStr("success") ==>
                  && "message" in r
                  && r["message"] == JStr(if x.NoObject? then w.noObject else if x.Found? then w.unexpected else w.notJson))
  {
  }

  /** Every reply ends with a `"status"`; it is `"success"` exactly when
      the span the regex picks decodes to a dict, and under a decoder that
      follows the JSON grammar the non-dict failure never happens. */
  lemma ReplyStatus(raw: string, decode: Decoder, w: Wording)
    requires w.unexpected != w.noObject && w.unexpected != w.notJson
    ensures var r := ParseReply(raw, decode, w);
            var text := Strip(raw);
            && "status" in r
            && ((forall s: nat, e: nat :: !Balanced(text, s, e)) ==> r["status"] == JStr("error"))
            && (forall s: nat, e: nat :: LeftmostMatch(text, s, e) ==>
                  (r["status"] == JStr("success") <==> decode(text[s..e]).Parsed? && decode(text[s..e]).value.JObj?))
            && (ObjectsFromBraces(decode) ==>
                  r["status"] == JStr("success") || ("message" in r && r["message"] != JStr(w.unexpected)))
  {
    var text := Strip(raw);
    var x := Extract(text, decode);
    ReplyDictStatus(text, x, w);
    if ObjectsFromBraces(decode) {
      FoundIsObject(text, decode);
    }
  }
}
