/** The span finder behind `re.search(r'\{(?:[^{}]|(?:\{[^{}]*\}))*\}', text, re.S)`.

    Every alternative of the pattern starts with a different kind of
    character (a non-brace, or `{`), and `[^{}]*` stops at the first brace,
    so at a given start the engine has exactly one way to proceed: the
    pattern matches exactly when a left-to-right scan that counts open
    braces, and gives up when a third level opens or the text ends, returns
    to depth 0. `re.search` tries the starts from left to right. */
module BraceSpan {
  import opened Wrappers

  /** A match: the half-open index range `text[start..end]`. */
  datatype Span = Span(start: nat, end: nat)

  function Delta(c: char): int {
    if c == '{' then 1 else if c == '}' then -1 else 0
  }

  /** Open braces minus close braces in `t[i..k]`. */
  function Depth(t: string, i: nat, k: nat): int
    requires i <= k <= |t|
    decreases k - i
  {
    if k == i then 0 else Depth(t, i, k - 1) + Delta(t[k - 1])
  }

  /** `t[i..j]` is a text the pattern accepts: it opens with `{`, every
      proper non-empty prefix is one or two levels deep, and the whole span
      is back at depth 0. */
  predicate Balanced(t: string, i: nat, j: nat) {
    && i < j <= |t|
    && t[i] == '{'
    && Depth(t, i, j) == 0
    && forall k :: i < k < j ==> 1 <= Depth(t, i, k) <= 2
  }

  /** The scan state at `p` inside a span opened at `i`: depth `d`, never
      outside one or two levels so far. */
  ghost predicate Open(t: string, i: nat, p: nat, d: int) {
    && i < p <= |t|
    && t[i] == '{'
    && d == Depth(t, i, p)
    && (d == 1 || d == 2)
    && forall k :: i < k <= p ==> 1 <= Depth(t, i, k) <= 2
  }

  /** Continue the scan of a span opened at `i` from position `p` at depth `d`. */
  function Scan(t: string, i: nat, p: nat, d: int): (r: Option<nat>)
    requires Open(t, i, p, d)
    ensures r.Some? ==> p < r.value && Balanced(t, i, r.value)
    ensures r.None? ==> forall j :: i <= j <= |t| ==> !Balanced(t, i, j)
    decreases |t| - p
  {
    if p == |t| then None
    else if t[p] == '}' then
      if d == 1 then Some(p + 1) else Scan(t, i, p + 1, 1)
    else if t[p] == '{' then
      if d == 2 then
        assert Depth(t, i, p + 1) == 3;
        None
      else Scan(t, i, p + 1, 2)
    else Scan(t, i, p + 1, d)
  }

  /** The end of the span the pattern matches when tried at `i`, if any. */
  function CloseFrom(t: string, i: nat): (r: Option<nat>)
    requires i < |t|
    ensures r.Some? ==> Balanced(t, i, r.value)
    ensures r.None? ==> forall j :: i <= j <= |t| ==> !Balanced(t, i, j)
  {
    if t[i] == '{' then
      assert Depth(t, i, i + 1) == 1;
      Scan(t, i, i + 1, 1)
    else None
  }

  /** `re.search` from position `i` on. */
  function SearchFrom(t: string, i: nat): (r: Option<Span>)
    requires i <= |t|
    ensures r.Some? ==> i <= r.value.start && Balanced(t, r.value.start, r.value.end)
    ensures r.Some? ==> forall s: nat, e: nat :: i <= s < r.value.start ==> !Balanced(t, s, e)
    ensures r.None? ==> forall s: nat, e: nat :: i <= s ==> !Balanced(t, s, e)
    decreases |t| - i
  {
    if i == |t| then None
    else match CloseFrom(t, i)
      case Some(j) => Some(Span(i, j))
      case None => SearchFrom(t, i + 1)
  }

  /** The span `re.search` finds in `t`, if any. */
  function Search(t: string): Option<Span> {
    SearchFrom(t, 0)
  }

  /** The pattern accepts `t[s..e]`, and it accepts no span that starts
      further left. */
  ghost predicate LeftmostMatch(t: string, s: nat, e: nat) {
    Balanced(t, s, e) && forall s': nat, e': nat :: s' < s ==> !Balanced(t, s', e')
  }

  /** A span has exactly one end: a proper prefix never returns to depth 0. */
  lemma BalancedEndUnique(t: string, i: nat, j1: nat, j2: nat)
    requires Balanced(t, i, j1) && Balanced(t, i, j2)
    ensures j1 == j2
  {
  }

  /** The search is exactly the leftmost-start match, and it fails exactly
      when no span anywhere in the text is accepted. */
  lemma SearchIsLeftmost(t: string, s: nat, e: nat)
    ensures Search(t) == Some(Span(s, e)) <==> LeftmostMatch(t, s, e)
    ensures Search(t).None? <==> forall s': nat, e': nat :: !Balanced(t, s', e')
  {
    match Search(t)
    case Some(sp) =>
      if LeftmostMatch(t, s, e) && s == sp.start {
        BalancedEndUnique(t, s, e, sp.end);
      }
    case None =>
  }

  /** A matched span opens with `{`, closes with `}`, and its braces balance. */
  lemma MatchShape(t: string, s: nat, e: nat)
    requires Balanced(t, s, e)
    ensures s + 2 <= e
    ensures t[s] == '{' && t[e - 1] == '}'
  {
    assert 1 <= Depth(t, s, e - 1);
  }

  /** The three-level text `{{{a}}}` yields its inner two levels. */
  lemma ThreeLevelsYieldInnerTwo()
    ensures Search("{{{a}}}") == Some(Span(1, 6))
  {
    var t := "{{{a}}}";
    assert Depth(t, 0, 3) == 3;
    assert CloseFrom(t, 0) == None;
    assert Depth(t, 1, 2) == 1 && Depth(t, 1, 3) == 2;
    assert Depth(t, 1, 4) == 2 && Depth(t, 1, 5) == 1 && Depth(t, 1, 6) == 0;
    assert Balanced(t, 1, 6);
    assert CloseFrom(t, 1) == Some(6) by {
      var r := CloseFrom(t, 1);
      if r.Some? { BalancedEndUnique(t, 1, 6, r.value); }
    }
  }
}
