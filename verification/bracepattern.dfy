/** The language of the pattern `\{(?:[^{}]|(?:\{[^{}]*\}))*\}`, read off
    the pattern itself: an opening brace, a sequence of pieces (one
    non-brace character, or a brace pair around non-braces), a closing
    brace. It is the same language as `BraceSpan.Balanced`, and because a
    start admits at most one accepted end, what `re.search` returns is
    exactly what `BraceSpan.Search` returns. */
module BracePattern {
  import opened Wrappers
  import opened BraceSpan

  /** One repetition of the group: `[^{}]` or `\{[^{}]*\}`. */
  datatype Piece = Plain(c: char) | Group(inner: string)

  predicate IsBrace(c: char) {
    c == '{' || c == '}'
  }

  predicate NoBraces(s: string) {
    forall k :: 0 <= k < |s| ==> !IsBrace(s[k])
  }

  predicate PieceOk(p: Piece) {
    match p
    case Plain(c) => !IsBrace(c)
    case Group(inner) => NoBraces(inner)
  }

  function Render(p: Piece): string {
    match p
    case Plain(c) => [c]
    case Group(inner) => "{" + inner + "}"
  }

  function RenderAll(ps: seq<Piece>): string {
    if ps == [] then "" else Render(ps[0]) + RenderAll(ps[1..])
  }

  /** The whole text `s` is matched by the pattern. */
  ghost predicate Accepts(s: string) {
    exists ps: seq<Piece> ::
      (forall k :: 0 <= k < |ps| ==> PieceOk(ps[k])) && s == "{" + RenderAll(ps) + "}"
  }

  /** A body between the outer braces: never below depth 0 nor above 1,
      and back at 0 at its end. */
  ghost predicate Flat(b: string) {
    && Depth(b, 0, |b|) == 0
    && forall k :: 0 <= k <= |b| ==> 0 <= Depth(b, 0, k) <= 1
  }

  lemma {:induction false} DepthPrefix(x: string, y: string, m: nat)
    requires m <= |x|
    ensures Depth(x + y, 0, m) == Depth(x, 0, m)
    decreases m
  {
    if m > 0 {
      DepthPrefix(x, y, m - 1);
      assert (x + y)[m - 1] == x[m - 1];
    }
  }

  lemma {:induction false} DepthAppend(x: string, y: string, k: nat)
    requires k <= |y|
    ensures Depth(x + y, 0, |x| + k) == Depth(x, 0, |x|) + Depth(y, 0, k)
    decreases k
  {
    if k == 0 {
      DepthPrefix(x, y, |x|);
    } else {
      DepthAppend(x, y, k - 1);
      assert (x + y)[|x| + k - 1] == y[k - 1];
    }
  }

  /** Depth inside a slice is depth inside the text. */
  lemma {:induction false} DepthSlice(t: string, i: nat, j: nat, k: nat)
    requires i <= k <= j <= |t|
    ensures Depth(t, i, k) == Depth(t[i..j], 0, k - i)
    decreases k - i
  {
    if k > i {
      DepthSlice(t, i, j, k - 1);
      assert t[i..j][k - 1 - i] == t[k - 1];
    }
  }

  lemma BalancedSlice(t: string, i: nat, j: nat)
    requires i <= j <= |t|
    ensures Balanced(t, i, j) <==> Balanced(t[i..j], 0, j - i)
  {
    forall k | i <= k <= j {
      DepthSlice(t, i, j, k);
    }
    var s := t[i..j];
    if Balanced(t, i, j) {
      forall k' | 0 < k' < |s|
        ensures 1 <= Depth(s, 0, k') <= 2
      {
        DepthSlice(t, i, j, i + k');
      }
    }
    if Balanced(s, 0, j - i) {
      forall k | i < k < j
        ensures 1 <= Depth(t, i, k) <= 2
      {
        assert 0 < k - i < |s|;
      }
    }
  }

  /** A run without braces keeps the depth unchanged. */
  lemma {:induction false} DepthOverRun(b: string, m: nat, k: nat)
    requires m <= k <= |b|
    requires forall q :: m <= q < k ==> !IsBrace(b[q])
    ensures Depth(b, 0, k) == Depth(b, 0, m)
    decreases k - m
  {
    if k > m {
      DepthOverRun(b, m, k - 1);
    }
  }

  lemma {:induction false} PieceFlat(p: Piece)
    requires PieceOk(p)
    ensures Flat(Render(p))
  {
    match p
    case Plain(c) =>
      assert Depth(Render(p), 0, 1) == 0;
    case Group(inner) =>
      var r := Render(p);
      assert Depth(r, 0, 1) == 1;
      forall k | 1 <= k <= |inner| + 1
        ensures Depth(r, 0, k) == 1
      {
        DepthOverRun(r, 1, k);
      }
  }

  /** Two flat bodies in a row make a flat body. */
  lemma FlatConcat(x: string, y: string)
    requires Flat(x) && Flat(y)
    ensures Flat(x + y)
  {
    forall k | 0 <= k <= |x + y|
      ensures 0 <= Depth(x + y, 0, k) <= 1
    {
      if k <= |x| {
        DepthPrefix(x, y, k);
      } else {
        DepthAppend(x, y, k - |x|);
      }
    }
    DepthAppend(x, y, |y|);
  }

  lemma {:induction false} RenderedFlat(ps: seq<Piece>)
    requires forall k :: 0 <= k < |ps| ==> PieceOk(ps[k])
    ensures Flat(RenderAll(ps))
  {
    if ps != [] {
      PieceFlat(ps[0]);
      RenderedFlat(ps[1..]);
      FlatConcat(Render(ps[0]), RenderAll(ps[1..]));
    }
  }

  /** The pattern's outer braces turn a flat body into a balanced span. */
  lemma Wrap(b: string)
    ensures Flat(b) <==> Balanced("{" + b + "}", 0, |b| + 2)
  {
    var s := "{" + b + "}";
    var open := "{" + b;
    assert s == open + "}";
    forall k | 0 <= k <= |b|
      ensures Depth(s, 0, k + 1) == 1 + Depth(b, 0, k)
    {
      DepthPrefix(open, "}", k + 1);
      DepthAppend("{", b, k);
    }
    DepthAppend(open, "}", 1);
    if Flat(b) {
      forall k | 0 < k < |s|
        ensures 1 <= Depth(s, 0, k) <= 2
      {
        DepthPrefix(open, "}", k);
        DepthAppend("{", b, k - 1);
        assert Depth("{", 0, 1) == 1;
      }
    }
    if Balanced(s, 0, |b| + 2) {
      forall k | 0 <= k <= |b|
        ensures 0 <= Depth(b, 0, k) <= 1
      {
        assert 0 < k + 1 < |s|;
      }
    }
  }

  /** The first brace at or after `m`, or `|b|` when there is none. */
  ghost function NextBrace(b: string, m: nat): (r: nat)
    requires m <= |b|
    ensures m <= r <= |b|
    ensures forall q :: m <= q < r ==> !IsBrace(b[q])
    ensures r < |b| ==> IsBrace(b[r])
    decreases |b| - m
  {
    if m == |b| || IsBrace(b[m]) then m else NextBrace(b, m + 1)
  }

  /** What is left after a prefix that returns to depth 0 is flat again. */
  lemma FlatSuffix(x: string, y: string)
    requires Flat(x + y) && Depth(x, 0, |x|) == 0
    ensures Flat(y)
  {
    forall k | 0 <= k <= |y|
      ensures Depth(x + y, 0, |x| + k) == Depth(y, 0, k)
    {
      DepthAppend(x, y, k);
    }
    assert |x + y| == |x| + |y|;
  }

  /** In a flat body that opens a brace, the next brace closes it. */
  lemma GroupCloses(b: string)
    requires Flat(b) && b != [] && b[0] == '{'
    ensures var c := NextBrace(b, 1);
      && c < |b| && b[c] == '}'
      && Depth(b, 0, c + 1) == 0
  {
    var c := NextBrace(b, 1);
    assert Depth(b, 0, 1) == 1;
    DepthOverRun(b, 1, c);
    assert c < |b|;
    assert Depth(b, 0, c + 1) == 1 + Delta(b[c]);
  }

  /** A flat body that opens a brace closes it before any other brace,
      and the rest is flat. */
  lemma SplitGroup(b: string)
    requires Flat(b) && b != [] && b[0] == '{'
    ensures var c := NextBrace(b, 1);
      && c < |b| && b[c] == '}'
      && NoBraces(b[1..c])
      && b[..c + 1] == "{" + b[1..c] + "}"
      && Flat(b[c + 1..])
  {
    var c := NextBrace(b, 1);
    GroupCloses(b);
    assert forall k :: 0 <= k < c - 1 ==> b[1..c][k] == b[k + 1];
    assert b[..c + 1] == [b[0]] + b[1..c] + [b[c]];
    var x, y := b[..c + 1], b[c + 1..];
    assert b == x + y;
    DepthPrefix(x, y, c + 1);
    FlatSuffix(x, y);
  }

  /** A flat body that does not open a brace starts with a plain character,
      and the rest is flat. */
  lemma SplitPlain(b: string)
    requires Flat(b) && b != [] && b[0] != '{'
    ensures !IsBrace(b[0])
    ensures Flat(b[1..])
  {
    assert Depth(b, 0, 1) == Delta(b[0]);
    assert b == [b[0]] + b[1..];
    assert Depth([b[0]], 0, 1) == 0;
    FlatSuffix([b[0]], b[1..]);
  }

  /** A flat body is a sequence of pieces. */
  ghost function Parse(b: string): (ps: seq<Piece>)
    requires Flat(b)
    ensures forall k :: 0 <= k < |ps| ==> PieceOk(ps[k])
    ensures RenderAll(ps) == b
    decreases |b|
  {
    if b == [] then []
    else if b[0] == '{' then
      SplitGroup(b);
      var c := NextBrace(b, 1);
      var g := Group(b[1..c]);
      assert b == Render(g) + b[c + 1..];
      [g] + Parse(b[c + 1..])
    else
      SplitPlain(b);
      assert b == Render(Plain(b[0])) + b[1..];
      [Plain(b[0])] + Parse(b[1..])
  }

  /** What the pattern accepts is a balanced span. */
  lemma AcceptedIsBalanced(s: string)
    requires Accepts(s)
    ensures Balanced(s, 0, |s|)
  {
    var ps :| (forall k :: 0 <= k < |ps| ==> PieceOk(ps[k])) && s == "{" + RenderAll(ps) + "}";
    RenderedFlat(ps);
    Wrap(RenderAll(ps));
  }

  /** A balanced span is what the pattern reads off the pieces of its body. */
  lemma BalancedIsAccepted(s: string)
    requires Balanced(s, 0, |s|)
    ensures Accepts(s)
  {
    MatchShape(s, 0, |s|);
    var b := s[1..|s| - 1];
    assert s == "{" + b + "}";
    Wrap(b);
    var ps := Parse(b);
    assert (forall k :: 0 <= k < |ps| ==> PieceOk(ps[k])) && s == "{" + RenderAll(ps) + "}";
  }

  lemma AcceptsIffBalanced(s: string)
    ensures Accepts(s) <==> Balanced(s, 0, |s|)
  {
    if Accepts(s) {
      AcceptedIsBalanced(s);
    }
    if Balanced(s, 0, |s|) {
      BalancedIsAccepted(s);
    }
  }

  /** The pattern accepts exactly the balanced spans of a text. */
  lemma SpansAccepted(t: string)
    ensures forall s, e :: 0 <= s <= e <= |t| ==> (Accepts(t[s..e]) <==> Balanced(t, s, e))
  {
    forall s, e | 0 <= s <= e <= |t|
      ensures Accepts(t[s..e]) <==> Balanced(t, s, e)
    {
      AcceptsIffBalanced(t[s..e]);
      BalancedSlice(t, s, e);
    }
  }

  /** `re.search` with this pattern returns the leftmost start at which the
      pattern matches some span, and at that start the span has exactly one
      end; `Search` returns that span, and it returns nothing exactly when
      the pattern matches no span of the text. */
  lemma SearchMatchesPattern(t: string)
    ensures Search(t).Some? ==>
              var sp := Search(t).value;
              && sp.start <= sp.end <= |t|
              && Accepts(t[sp.start..sp.end])
              && (forall e :: sp.start <= e <= |t| && Accepts(t[sp.start..e]) ==> e == sp.end)
              && (forall s, e :: 0 <= s < sp.start && s <= e <= |t| ==> !Accepts(t[s..e]))
    ensures Search(t).None? <==> forall s, e :: 0 <= s <= e <= |t| ==> !Accepts(t[s..e])
  {
    SpansAccepted(t);
    match Search(t)
    case Some(sp) =>
      SearchIsLeftmost(t, sp.start, sp.end);
      forall e | sp.start <= e <= |t| && Accepts(t[sp.start..e])
        ensures e == sp.end
      {
        BalancedEndUnique(t, sp.start, e, sp.end);
      }
    case None =>
      SearchIsLeftmost(t, 0, 0);
  }
}
