/** The first capture of `re.search(r'"login_url":\s*"(.*?)"', text)`
    (no DOTALL flag, so `.` stops at a newline).

    After the literal key, `\s*` can only end where the whitespace ends
    (a quote is not whitespace), and the lazy `(.*?)"` stops at the first
    quote after the opening one, failing at this start when a newline or
    the end of the text comes first. `re.search` tries the starts from left
    to right. */
module LoginUrl {
  import opened Wrappers
  import opened PyStr

  /** The literal part of the pattern before `\s*`. */
  const Key: string := "\"login_url\":"

  /** Where a match sits: the key at `start`, the opening quote at `open`,
      the closing quote at `close`; the capture is `text[open + 1..close]`. */
  datatype Capture = Capture(start: nat, open: nat, close: nat)

  /** `e` is the first quote at or after `k`, with no newline before it. */
  predicate QuoteEnds(s: string, k: nat, e: nat) {
    && k <= e < |s|
    && s[e] == '"'
    && forall m :: k <= m < e ==> s[m] != '"' && s[m] != '\n'
  }

  /** The pattern matches at `p` with its opening quote at `q` and its
      closing quote at `e`. */
  predicate MatchAt(s: string, p: nat, q: nat, e: nat) {
    && p + |Key| <= q < |s|
    && s[p..p + |Key|] == Key
    && (forall k :: p + |Key| <= k < q ==> IsSpace(s[k]))
    && s[q] == '"'
    && QuoteEnds(s, q + 1, e)
  }

  /** The first non-whitespace position at or after `k`. */
  function SkipSpaces(s: string, k: nat): (r: nat)
    requires k <= |s|
    ensures k <= r <= |s|
    ensures forall m :: k <= m < r ==> IsSpace(s[m])
    ensures r < |s| ==> !IsSpace(s[r])
    decreases |s| - k
  {
    if k == |s| || !IsSpace(s[k]) then k else SkipSpaces(s, k + 1)
  }

  /** The lazy `(.*?)"` from `k`: the first quote, unless a newline or the
      end of the text comes first. */
  function ClosingQuote(s: string, k: nat): (r: Option<nat>)
    requires k <= |s|
    ensures r.Some? ==> QuoteEnds(s, k, r.value)
    ensures r.None? ==> forall e :: !QuoteEnds(s, k, e)
    decreases |s| - k
  {
    if k == |s| || s[k] == '\n' then None
    else if s[k] == '"' then Some(k)
    else
      var r := ClosingQuote(s, k + 1);
      assert forall e: nat :: QuoteEnds(s, k, e) && e > k ==> QuoteEnds(s, k + 1, e);
      r
  }

  /** The pattern tried at `p`. */
  function MatchFrom(s: string, p: nat): (r: Option<Capture>)
    requires p <= |s|
    ensures r.Some? ==> r.value.start == p && MatchAt(s, p, r.value.open, r.value.close)
    ensures r.None? ==> forall q, e :: !MatchAt(s, p, q, e)
  {
    if p + |Key| <= |s| && s[p..p + |Key|] == Key then
      var q := SkipSpaces(s, p + |Key|);
      if q < |s| && s[q] == '"' then
        match ClosingQuote(s, q + 1)
        case Some(e) => Some(Capture(p, q, e))
        case None =>
          assert forall q', e :: MatchAt(s, p, q', e) ==> q' == q;
          None
      else
        assert forall q', e :: MatchAt(s, p, q', e) ==> q' == q;
        None
    else None
  }

  /** `re.search` from position `p` on. */
  function SearchFrom(s: string, p: nat): (r: Option<Capture>)
    requires p <= |s|
    ensures r.Some? ==> p <= r.value.start && MatchAt(s, r.value.start, r.value.open, r.value.close)
    ensures r.Some? ==> forall p', q, e :: p <= p' < r.value.start ==> !MatchAt(s, p', q, e)
    ensures r.None? ==> forall p', q, e :: p <= p' ==> !MatchAt(s, p', q, e)
    decreases |s| - p
  {
    if p == |s| then None
    else match MatchFrom(s, p)
      case Some(c) => Some(c)
      case None => SearchFrom(s, p + 1)
  }

  /** `u` is the capture of a match whose start is the leftmost start at
      which the pattern matches. */
  ghost predicate LeftmostCapture(s: string, u: string) {
    exists p: nat, q: nat, e: nat ::
      && MatchAt(s, p, q, e)
      && u == s[q + 1..e]
      && forall p': nat, q': nat, e': nat :: p' < p ==> !MatchAt(s, p', q', e')
  }

  /** `match.group(1)` of the search, if the pattern matches anywhere. */
  function FirstCapture(s: string): (r: Option<string>)
    ensures r.None? <==> forall p: nat, q: nat, e: nat :: !MatchAt(s, p, q, e)
    ensures r.Some? ==> LeftmostCapture(s, r.value)
  {
    match SearchFrom(s, 0)
    case Some(c) =>
      assert MatchAt(s, c.start, c.open, c.close);
      Some(s[c.open + 1..c.close])
    case None => None
  }

  /** At a given start the match, and so the capture, is unique. */
  lemma MatchUnique(s: string, p: nat, q1: nat, e1: nat, q2: nat, e2: nat)
    requires MatchAt(s, p, q1, e1) && MatchAt(s, p, q2, e2)
    ensures q1 == q2 && e1 == e2
  {
  }

  /** The capture is never split across lines and never contains a quote. */
  lemma CaptureIsOneLine(s: string)
    requires FirstCapture(s).Some?
    ensures forall k :: 0 <= k < |FirstCapture(s).value| ==>
              FirstCapture(s).value[k] != '"' && FirstCapture(s).value[k] != '\n'
  {
    var c := SearchFrom(s, 0).value;
    assert FirstCapture(s).value == s[c.open + 1..c.close];
  }

  /** The field written out matches at the start of the text. */
  lemma FieldMatchesAtStart(ws: string, u: string, rest: string)
    requires forall k :: 0 <= k < |ws| ==> IsSpace(ws[k])
    requires forall k :: 0 <= k < |u| ==> u[k] != '"' && u[k] != '\n'
    ensures var s := Key + ws + "\"" + u + "\"" + rest;
            var q := |Key| + |ws|;
            MatchAt(s, 0, q, q + 1 + |u|) && s[q + 1..q + 1 + |u|] == u
  {
    var s := Key + ws + "\"" + u + "\"" + rest;
    var q := |Key| + |ws|;
    var e := q + 1 + |u|;
    assert s[0..|Key|] == Key;
    assert forall k :: |Key| <= k < q ==> s[k] == ws[k - |Key|];
    assert s[q + 1..e] == u;
    assert forall m :: q + 1 <= m < e ==> s[m] == u[m - q - 1];
    assert s[q] == '"' && s[e] == '"';
  }

  /** A text that opens with the field, written with any whitespace after
      the colon and a URL free of quotes and newlines, yields that URL,
      whatever follows it. */
  lemma CaptureRecoversField(ws: string, u: string, rest: string)
    requires forall k :: 0 <= k < |ws| ==> IsSpace(ws[k])
    requires forall k :: 0 <= k < |u| ==> u[k] != '"' && u[k] != '\n'
    ensures FirstCapture(Key + ws + "\"" + u + "\"" + rest) == Some(u)
  {
    var s := Key + ws + "\"" + u + "\"" + rest;
    var q := |Key| + |ws|;
    var e := q + 1 + |u|;
    FieldMatchesAtStart(ws, u, rest);
    var r := SearchFrom(s, 0);
    assert r.Some? && r.value.start == 0;
    MatchUnique(s, 0, q, e, r.value.open, r.value.close);
  }
}
