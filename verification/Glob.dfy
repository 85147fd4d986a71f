/** Compiling globs to regular expressions keeps their meaning (internal/gitapi/glob.go). */
module Glob {
  import opened GlobRegex

  // The expression text written for one glob token inside d groups.
  function EmitTok(t: GTok, d: nat): RTok {
    match t
    case DoubleStar => AnyRun
    case Star => SegmentRun
    case Question => SegmentChar
    case Class(text) => Set(if text != "" && text[0] == '!' then "^" + text[1..] else text)
    case LBrace => Open
    case RBrace => if d > 0 then Close else Lit('}')
    case Comma => if d > 0 then Bar else Lit(',')
    case Char(c) => Lit(c)
  }

  function Deeper(t: GTok, d: nat): nat {
    if t == LBrace then d + 1 else if t == RBrace && d > 0 then d - 1 else d
  }

  function Emit(g: seq<GTok>, d: nat): (r: seq<RTok>)
    ensures |r| == |g|
  {
    if g == [] then [] else [EmitTok(g[0], d)] + Emit(g[1..], Deeper(g[0], d))
  }

  function Compiled(p: string): seq<RTok> {
    [Bos] + Emit(CloseAll(Lex(p)), 0) + [Eos]
  }

  // ---- the shape of patterns and expressions agree ---------------------------------------------------

  // Every brace is matched inside g, when it starts d deep.
  predicate Balanced(g: seq<GTok>, d: nat) {
    if g == [] then d == 0
    else if g[0] == RBrace then d > 0 && Balanced(g[1..], d - 1)
    else Balanced(g[1..], if g[0] == LBrace then d + 1 else d)
  }

  lemma {:induction false} EmitConcat(x: seq<GTok>, y: seq<GTok>, d: nat)
    ensures Emit(x + y, d) == Emit(x, d) + Emit(y, DepthAfter(x, d))
  {
    if x == [] {
      assert x + y == y;
    } else {
      assert (x + y)[0] == x[0] && (x + y)[1..] == x[1..] + y;
      EmitConcat(x[1..], y, Deeper(x[0], d));
    }
  }

  lemma {:induction false} EmitFirst(g: seq<GTok>, d: nat)
    requires g != []
    ensures Emit(g, d)[0] == EmitTok(g[0], d) && Emit(g, d)[1..] == Emit(g[1..], Deeper(g[0], d))
  {
  }

  lemma GroupEndStep(r: seq<RTok>, d: nat)
    requires r != [] && d > 0
    ensures r[0] == Close && d == 1 ==> GroupEnd(r, d) == 0
    ensures !(r[0] == Close && d == 1) ==>
              GroupEnd(r, d) == 1 + GroupEnd(r[1..], if r[0] == Open then d + 1 else if r[0] == Close then d - 1 else d)
  {
  }

  lemma FirstBarStep(r: seq<RTok>, d: nat)
    requires r != []
    ensures r[0] == Bar && d == 0 ==> FirstBar(r, d) == 0
    ensures !(r[0] == Bar && d == 0) ==>
              FirstBar(r, d) == 1 + FirstBar(r[1..], if r[0] == Open then d + 1 else if r[0] == Close && d > 0 then d - 1 else d)
  {
  }

  lemma {:induction false} SameGroupEnd(g: seq<GTok>, d: nat)
    requires d > 0
    ensures GroupEnd(Emit(g, d), d) == BraceEnd(g, d)
  {
    if g != [] {
      hide Emit, GroupEnd;
      EmitFirst(g, d);
      GroupEndStep(Emit(g, d), d);
      if !(g[0] == RBrace && d == 1) {
        SameGroupEnd(g[1..], Deeper(g[0], d));
      }
    }
  }

  // The depth after one token of a balanced pattern.
  function Inner(t: GTok, d: nat): int {
    if t == LBrace then d + 1 else if t == RBrace then d - 1 else d
  }

  lemma {:induction false} CommaStep(g: seq<GTok>, d: nat)
    requires g != [] && Balanced(g, d)
    ensures Inner(g[0], d) >= 0 && Balanced(g[1..], Inner(g[0], d)) && Deeper(g[0], d + 1) == Inner(g[0], d) + 1
    ensures FirstComma(g, d) == if g[0] == Comma && d == 0 then 0 else 1 + FirstComma(g[1..], Inner(g[0], d))
  {
  }

  // A token and what is written for it one group further in move alike.
  lemma {:induction false} BarStep(t: GTok, d: nat, r: seq<RTok>)
    requires Inner(t, d) >= 0 && r != [] && r[0] == EmitTok(t, d + 1)
    ensures FirstBar(r, d) == if t == Comma && d == 0 then 0 else 1 + FirstBar(r[1..], Inner(t, d))
  {
    FirstBarStep(r, d);
  }

  lemma {:induction false} NothingToSeparate(d: nat)
    ensures FirstBar(Emit([], d + 1), d) == FirstComma([], d) == 0
  {
  }

  lemma {:induction false} SameSeparator(g: seq<GTok>, d: nat)
    requires Balanced(g, d)
    ensures FirstBar(Emit(g, d + 1), d) == FirstComma(g, d)
  {
    hide *;
    if g == [] {
      NothingToSeparate(d);
    } else {
      CommaStep(g, d);
      EmitFirst(g, d + 1);
      BarStep(g[0], d, Emit(g, d + 1));
      if !(g[0] == Comma && d == 0) {
        SameSeparator(g[1..], Inner(g[0], d));
      }
    }
  }

  lemma {:induction false} NoBarOutside(g: seq<GTok>, d: nat)
    ensures FirstBar(Emit(g, d), d) == |g|
  {
    if g != [] {
      hide Emit, FirstBar;
      EmitFirst(g, d);
      FirstBarStep(Emit(g, d), d);
      NoBarOutside(g[1..], Deeper(g[0], d));
    }
  }

  lemma {:induction false} EmitOneUp(g: seq<GTok>, d: nat)
    requires Balanced(g, d) && FirstComma(g, d) == |g|
    ensures Emit(g, d + 1) == Emit(g, d)
  {
    if g != [] {
      EmitOneUp(g[1..], if g[0] == LBrace then d + 1 else if g[0] == RBrace then d - 1 else d);
    }
  }

  lemma {:induction false} InsideIsBalanced(g: seq<GTok>, d: nat)
    requires BraceEnd(g, d + 1) < |g|
    ensures Balanced(g[..BraceEnd(g, d + 1)], d) && DepthAfter(g, d + 1) == DepthAfter(g[BraceEnd(g, d + 1) + 1..], 0)
  {
    var c := BraceEnd(g, d + 1);
    if g[0] == RBrace && d == 0 {
      assert g[..c] == [];
    } else {
      var e := if g[0] == LBrace then d + 1 else if g[0] == RBrace then d - 1 else d;
      InsideIsBalanced(g[1..], e);
      assert g[..c][1..] == g[1..][..c - 1] && g[c + 1..] == g[1..][c..];
    }
  }

  lemma {:induction false} ClosedHasEnd(g: seq<GTok>, d: nat)
    requires d > 0 && DepthAfter(g, d) == 0
    ensures BraceEnd(g, d) < |g|
  {
    if !(g[0] == RBrace && d == 1) {
      ClosedHasEnd(g[1..], Deeper(g[0], d));
    }
  }

  lemma {:induction false} SplitAtComma(g: seq<GTok>, d: nat)
    requires Balanced(g, d) && FirstComma(g, d) < |g|
    ensures var p := FirstComma(g, d);
            Balanced(g[..p], d) && FirstComma(g[..p], d) == p && Balanced(g[p + 1..], 0) && DepthAfter(g[..p], d + 1) == 1
  {
    var p := FirstComma(g, d);
    if g[0] == Comma && d == 0 {
      assert g[..p] == [];
    } else {
      var e := if g[0] == LBrace then d + 1 else if g[0] == RBrace then d - 1 else d;
      assert p == 1 + FirstComma(g[1..], e);
      SplitAtComma(g[1..], e);
      assert g[..p][0] == g[0] && g[..p][1..] == g[1..][..p - 1] && g[p + 1..] == g[1..][p..];
    }
  }

  lemma {:induction false} BalancedEnds(g: seq<GTok>, d: nat, e: nat)
    requires Balanced(g, d)
    ensures DepthAfter(g, d + e) == e
  {
    if g != [] {
      BalancedEnds(g[1..], if g[0] == LBrace then d + 1 else if g[0] == RBrace then d - 1 else d, e);
    }
  }

  lemma {:induction false} BraceEndInFirst(x: seq<GTok>, y: seq<GTok>, d: nat)
    requires d > 0 && BraceEnd(x, d) < |x|
    ensures BraceEnd(x + y, d) == BraceEnd(x, d)
  {
    assert (x + y)[0] == x[0] && (x + y)[1..] == x[1..] + y;
    if !(x[0] == RBrace && d == 1) {
      BraceEndInFirst(x[1..], y, Deeper(x[0], d));
    }
  }

  lemma {:induction false} BalancedConcat(x: seq<GTok>, y: seq<GTok>, d: nat)
    requires Balanced(x, d) && Balanced(y, 0)
    ensures Balanced(x + y, d)
  {
    if x == [] {
      assert x + y == y;
    } else {
      assert (x + y)[0] == x[0] && (x + y)[1..] == x[1..] + y;
      BalancedConcat(x[1..], y, if x[0] == LBrace then d + 1 else if x[0] == RBrace then d - 1 else d);
    }
  }

  lemma {:induction false} BalancedTail(g: seq<GTok>, d: nat)
    requires Balanced(g, d) && d > 0
    ensures BraceEnd(g, d) < |g| && Balanced(g[BraceEnd(g, d) + 1..], 0)
  {
    if !(g[0] == RBrace && d == 1) {
      BalancedTail(g[1..], Deeper(g[0], d));
      assert g[BraceEnd(g, d) + 1..] == g[1..][BraceEnd(g, d)..];
    }
  }

  // ---- a pattern in two halves -----------------------------------------------------------------------

  predicate InHalves(x: seq<GTok>, y: seq<GTok>, s: string, i: nat, j: nat)
    requires i <= j <= |s|
  {
    exists k | i <= k <= j :: Accepts(x, s, i, k) && Accepts(y, s, k, j)
  }

  predicate AlternativeThen(content: seq<GTok>, rest: seq<GTok>, y: seq<GTok>, s: string, i: nat, j: nat)
    requires i <= j <= |s|
  {
    exists k | i <= k <= j :: AnyAlternative(content, rest, s, i, k) && Accepts(y, s, k, j)
  }

  /** A balanced pattern followed by another matches in two halves. */
  lemma {:induction false} AcceptsConcat(x: seq<GTok>, y: seq<GTok>, s: string, i: nat, j: nat)
    requires Balanced(x, 0) && i <= j <= |s|
    ensures Accepts(x + y, s, i, j) <==> InHalves(x, y, s, i, j)
    decreases |x|, 1
  {
    if x == [] {
      assert x + y == y;
      assert Accepts(x, s, i, i);
    } else if x[0] == LBrace {
      hide Accepts, AnyAlternative, Balanced, BraceEnd;
      BracesFirst(x, y);
      var c := BraceEnd(x[1..], 1);
      AlternativesConcat(x[1..][..c], x[1..][c + 1..], y, s, i, j);
      AcceptsBraces(x, s, i);
      AcceptsBraces(x + y, s, i);
    } else {
      AtomThenHalves(x, y, s, i, j);
    }
  }

  lemma {:induction false} BracesFirst(x: seq<GTok>, y: seq<GTok>)
    requires x != [] && x[0] == LBrace && Balanced(x, 0)
    ensures var c := BraceEnd(x[1..], 1);
            && c < |x| - 1 && Balanced(x[1..][..c], 0) && Balanced(x[1..][c + 1..], 0)
            && (x + y)[0] == LBrace && BraceEnd((x + y)[1..], 1) == c
            && (x + y)[1..][..c] == x[1..][..c] && (x + y)[1..][c + 1..] == x[1..][c + 1..] + y
  {
    hide Balanced, BraceEnd, DepthAfter;
    HeadOpens(x);
    var t := x[1..];
    assert (x + y)[1..] == t + y;
    BalancedTail(t, 1);
    InsideIsBalanced(t, 0);
    BraceEndInFirst(t, y, 1);
    SliceBefore(t, y, BraceEnd(t, 1));
  }

  lemma {:induction false} HeadOpens(x: seq<GTok>)
    requires x != [] && x[0] == LBrace && Balanced(x, 0)
    ensures Balanced(x[1..], 1)
  {
  }

  lemma SliceBefore(t: seq<GTok>, y: seq<GTok>, c: nat)
    requires c < |t|
    ensures (t + y)[..c] == t[..c] && (t + y)[c + 1..] == t[c + 1..] + y
  {
  }

  // How a pattern that starts with a closed brace reads.
  lemma AcceptsBraces(g: seq<GTok>, s: string, i: nat)
    requires g != [] && g[0] == LBrace && BraceEnd(g[1..], 1) < |g| - 1 && i <= |s|
    ensures var c := BraceEnd(g[1..], 1);
            forall j: nat | i <= j <= |s| :: Accepts(g, s, i, j) == AnyAlternative(g[1..][..c], g[1..][c + 1..], s, i, j)
  {
  }

  lemma {:induction false} AtomThenHalves(x: seq<GTok>, y: seq<GTok>, s: string, i: nat, j: nat)
    requires x != [] && x[0] != LBrace && Balanced(x, 0) && i <= j <= |s|
    ensures Accepts(x + y, s, i, j) <==> InHalves(x, y, s, i, j)
    decreases |x|, 0
  {
    assert (x + y)[0] == x[0] && (x + y)[1..] == x[1..] + y;
    if Accepts(x + y, s, i, j) {
      var k: nat :| i <= k <= j && Stands(x[0], s, i, k) && Accepts(x[1..] + y, s, k, j);
      AcceptsConcat(x[1..], y, s, k, j);
      var m: nat :| k <= m <= j && Accepts(x[1..], s, k, m) && Accepts(y, s, m, j);
      assert Accepts(x, s, i, m);
    }
    if InHalves(x, y, s, i, j) {
      var m: nat :| i <= m <= j && Accepts(x, s, i, m) && Accepts(y, s, m, j);
      var k: nat :| i <= k <= m && Stands(x[0], s, i, k) && Accepts(x[1..], s, k, m);
      AcceptsConcat(x[1..], y, s, k, j);
      assert Accepts(x[1..] + y, s, k, j);
    }
  }

  lemma {:induction false} AlternativesConcat(content: seq<GTok>, rest: seq<GTok>, y: seq<GTok>, s: string, i: nat, j: nat)
    requires Balanced(content, 0) && Balanced(rest, 0) && i <= j <= |s|
    ensures AnyAlternative(content, rest + y, s, i, j) <==> AlternativeThen(content, rest, y, s, i, j)
    decreases |content| + |rest|, |content| + 2
  {
    var p := FirstComma(content, 0);
    if p < |content| {
      SplitAtComma(content, 0);
      var a, b := content[..p], content[p + 1..];
      BalancedConcat(a, rest, 0);
      assert a + (rest + y) == a + rest + y;
      AcceptsConcat(a + rest, y, s, i, j);
      AlternativesConcat(b, rest, y, s, i, j);
      hide Accepts, Balanced, FirstComma;
    } else {
      BalancedConcat(content, rest, 0);
      assert content + (rest + y) == content + rest + y;
      AcceptsConcat(content + rest, y, s, i, j);
      hide Accepts, Balanced, FirstComma;
    }
  }

  // ---- the expression means what the pattern means ----------------------------------------------------

  // "." in an expression matches no newline, "**" in a pattern matches anything.
  predicate Fits(g: seq<GTok>, s: string) {
    '\n' !in s || DoubleStar !in g
  }

  lemma TokenAgrees(t: GTok, s: string, i: nat, k: nat)
    requires i <= k <= |s| && t != LBrace && Fits([t], s)
    ensures TokenSpan(EmitTok(t, 0), s, i, k) <==> Stands(t, s, i, k)
  {
  }

  // How an expression without an outer bar reads: a token, or a group, and then the rest.
  lemma {:induction false} MatchesToken(r: seq<RTok>, s: string, i: nat, j: nat)
    requires r != [] && FirstBar(r, 0) == |r| && r[0] != Open && i <= j <= |s|
    ensures Matches(r, s, i, j) <==> exists k | i <= k <= j :: TokenSpan(r[0], s, i, k) && Matches(r[1..], s, k, j)
  {
    hide FirstBar, GroupEnd, TokenSpan;
  }

  lemma {:induction false} MatchesGroup(r: seq<RTok>, s: string, i: nat, j: nat)
    requires r != [] && FirstBar(r, 0) == |r| && r[0] == Open && GroupEnd(r[1..], 1) < |r| - 1 && i <= j <= |s|
    ensures var c := GroupEnd(r[1..], 1); Matches(r, s, i, j) <==> GroupThen(r[1..][..c], r[1..][c + 1..], s, i, j)
  {
    hide FirstBar, GroupEnd, TokenSpan, GroupThen;
  }

  lemma {:induction false} MatchesBar(r: seq<RTok>, s: string, i: nat, j: nat)
    requires FirstBar(r, 0) < |r| && i <= j <= |s|
    ensures var p := FirstBar(r, 0);
            Matches(r, s, i, j) <==> Matches(r[..p], s, i, j) || Matches(r[p + 1..], s, i, j)
  {
  }

  lemma {:induction false} EmitAtComma(content: seq<GTok>)
    requires Balanced(content, 0) && FirstComma(content, 0) < |content|
    ensures var p := FirstComma(content, 0);
            && FirstBar(Emit(content, 1), 0) == p
            && Emit(content, 1)[..p] == Emit(content[..p], 0) && Emit(content, 1)[p + 1..] == Emit(content[p + 1..], 1)
  {
    hide Emit, Balanced, FirstComma, FirstBar, DepthAfter;
    var p := FirstComma(content, 0);
    var a, b := content[..p], content[p..];
    SplitAtComma(content, 0);
    SameSeparator(content, 0);
    EmitOneUp(a, 0);
    EmitConcat(a, b, 1);
    assert content == a + b;
    EmitFirst(b, 1);
    assert b[1..] == content[p + 1..];
  }

  lemma {:induction false} EmitAtBrace(g: seq<GTok>)
    requires g != [] && g[0] == LBrace && DepthAfter(g, 0) == 0
    ensures var c := BraceEnd(g[1..], 1);
            && c < |g| - 1 && GroupEnd(Emit(g, 0)[1..], 1) == c && Emit(g, 0)[0] == Open
            && Balanced(g[1..][..c], 0) && DepthAfter(g[1..][c + 1..], 0) == 0
            && Emit(g, 0)[1..][..c] == Emit(g[1..][..c], 1) && Emit(g, 0)[1..][c + 1..] == Emit(g[1..][c + 1..], 0)
  {
    hide Emit, Balanced, BraceEnd, GroupEnd, DepthAfter;
    var t := g[1..];
    EmitFirst(g, 0);
    DepthStep(g);
    ClosedHasEnd(t, 1);
    var c := BraceEnd(t, 1);
    var a, b := t[..c], t[c..];
    InsideIsBalanced(t, 0);
    SameGroupEnd(t, 1);
    BalancedEnds(a, 0, 1);
    EmitConcat(a, b, 1);
    assert t == a + b;
    EmitFirst(b, 1);
    assert b[1..] == t[c + 1..];
  }

  lemma {:induction false} DepthStep(g: seq<GTok>)
    requires g != []
    ensures DepthAfter(g, 0) == DepthAfter(g[1..], Deeper(g[0], 0))
  {
  }

  /** Every alternative in the braces is an alternative of the group. */
  lemma {:induction false} SameAlternatives(content: seq<GTok>, s: string, i: nat, j: nat)
    requires Balanced(content, 0) && Fits(content, s) && i <= j <= |s|
    ensures Matches(Emit(content, 1), s, i, j) <==> AnyAlternative(content, [], s, i, j)
    decreases |content|, 2
  {
    hide Emit, Balanced, FirstComma, FirstBar, DepthAfter, Matches, Accepts;
    var p := FirstComma(content, 0);
    if p < |content| {
      var a, b := content[..p], content[p + 1..];
      SplitAtComma(content, 0);
      EmitAtComma(content);
      MatchesBar(Emit(content, 1), s, i, j);
      BalancedEnds(a, 0, 0);
      assert a + [] == a;
      SameMeaning(a, s, i, j);
      SameAlternatives(b, s, i, j);
    } else {
      EmitOneUp(content, 0);
      BalancedEnds(content, 0, 0);
      assert content + [] == content;
      SameMeaning(content, s, i, j);
    }
  }

  /** The expression emitted for a pattern matches the spans the pattern accepts. */
  lemma {:induction false} SameMeaning(g: seq<GTok>, s: string, i: nat, j: nat)
    requires DepthAfter(g, 0) == 0 && Fits(g, s) && i <= j <= |s|
    ensures Matches(Emit(g, 0), s, i, j) <==> Accepts(g, s, i, j)
    decreases |g|, 1
  {
    if g == [] {
    } else if g[0] == LBrace {
      SameBraces(g, s, i, j);
    } else {
      hide Emit, FirstBar, Matches, Stands, TokenSpan;
      NoBarOutside(g, 0);
      EmitFirst(g, 0);
      MatchesToken(Emit(g, 0), s, i, j);
      forall k: nat | i <= k <= j
        ensures TokenSpan(EmitTok(g[0], 0), s, i, k) <==> Stands(g[0], s, i, k)
        ensures Matches(Emit(g[1..], 0), s, k, j) <==> Accepts(g[1..], s, k, j)
      {
        TokenAgrees(g[0], s, i, k);
        SameMeaning(g[1..], s, k, j);
      }
    }
  }

  lemma NothingIsBalanced()
    ensures Balanced([], 0)
  {
  }

  lemma {:induction false} SameBraces(g: seq<GTok>, s: string, i: nat, j: nat)
    requires g != [] && g[0] == LBrace && DepthAfter(g, 0) == 0 && Fits(g, s) && i <= j <= |s|
    ensures Matches(Emit(g, 0), s, i, j) <==> Accepts(g, s, i, j)
    decreases |g|, 0
  {
    hide Emit, FirstBar, Matches, Accepts, AnyAlternative, Balanced, BraceEnd, GroupEnd, DepthAfter;
    EmitAtBrace(g);
    NoBarOutside(g, 0);
    MatchesGroup(Emit(g, 0), s, i, j);
    AcceptsBraces(g, s, i);
    var c := BraceEnd(g[1..], 1);
    var content, rest := g[1..][..c], g[1..][c + 1..];
    NothingIsBalanced();
    AlternativesConcat(content, [], rest, s, i, j);
    assert [] + rest == rest;
    assert AnyAlternative(content, rest, s, i, j) <==> AlternativeThen(content, [], rest, s, i, j);
    forall k: nat | i <= k <= j
      ensures Matches(Emit(content, 1), s, i, k) <==> AnyAlternative(content, [], s, i, k)
      ensures Matches(Emit(rest, 0), s, k, j) <==> Accepts(rest, s, k, j)
    {
      SameAlternatives(content, s, i, k);
      SameMeaning(rest, s, k, j);
    }
  }

  // ---- anchors ---------------------------------------------------------------------------------------

  lemma {:induction false} BarAppend(x: seq<RTok>, d: nat)
    requires FirstBar(x, d) == |x|
    ensures FirstBar(x + [Eos], d) == |x| + 1
  {
    if x == [] {
      assert x + [Eos] == [Eos];
    } else {
      hide FirstBar;
      FirstBarStep(x, d);
      FirstBarStep(x + [Eos], d);
      assert (x + [Eos])[1..] == x[1..] + [Eos];
      BarAppend(x[1..], if x[0] == Open then d + 1 else if x[0] == Close && d > 0 then d - 1 else d);
    }
  }

  lemma {:induction false} GroupEndAppend(x: seq<RTok>, d: nat)
    requires d > 0 && GroupEnd(x, d) < |x|
    ensures GroupEnd(x + [Eos], d) == GroupEnd(x, d)
  {
    hide GroupEnd;
    GroupEndStep(x, d);
    GroupEndStep(x + [Eos], d);
    assert (x + [Eos])[1..] == x[1..] + [Eos];
    if !(x[0] == Close && d == 1) {
      GroupEndAppend(x[1..], if x[0] == Open then d + 1 else if x[0] == Close then d - 1 else d);
    }
  }

  lemma {:induction false} JustEos(s: string, i: nat, j: nat)
    requires i <= j <= |s|
    ensures Matches([Eos], s, i, j) <==> i == j == |s|
  {
    assert [Eos][1..] == [];
    assert FirstBar([Eos], 0) == 1;
    if i == j == |s| {
      assert TokenSpan(Eos, s, i, i) && Matches([], s, i, j);
    }
  }

  // The end anchor holds at the end of the name only.
  lemma {:induction false} EndAnchored(g: seq<GTok>, s: string, i: nat, j: nat)
    requires DepthAfter(g, 0) == 0 && i <= j <= |s|
    ensures Matches(Emit(g, 0) + [Eos], s, i, j) <==> j == |s| && Matches(Emit(g, 0), s, i, j)
    decreases |g|, 1
  {
    var x := Emit(g, 0);
    var r := x + [Eos];
    if g == [] {
      assert r == [Eos];
      JustEos(s, i, j);
    } else {
      hide Emit, FirstBar, Matches, DepthAfter, GroupEnd, TokenSpan, BraceEnd, Balanced;
      NoBarOutside(g, 0);
      BarAppend(x, 0);
      EmitFirst(g, 0);
      DepthStep(g);
      assert r[0] == x[0] && r[1..] == x[1..] + [Eos];
      if g[0] == LBrace {
        EndAnchoredGroup(g, s, i, j);
      } else {
        MatchesToken(x, s, i, j);
        MatchesToken(r, s, i, j);
        forall k: nat | i <= k <= j ensures Matches(r[1..], s, k, j) <==> j == |s| && Matches(x[1..], s, k, j) {
          EndAnchored(g[1..], s, k, j);
        }
      }
    }
  }

  lemma {:induction false} EndAnchoredGroup(g: seq<GTok>, s: string, i: nat, j: nat)
    requires g != [] && g[0] == LBrace && DepthAfter(g, 0) == 0 && i <= j <= |s|
    ensures Matches(Emit(g, 0) + [Eos], s, i, j) <==> j == |s| && Matches(Emit(g, 0), s, i, j)
    decreases |g|, 0
  {
    hide Emit, FirstBar, Matches, DepthAfter, GroupEnd, TokenSpan, BraceEnd, Balanced;
    var x := Emit(g, 0);
    var r := x + [Eos];
    NoBarOutside(g, 0);
    BarAppend(x, 0);
    EmitAtBrace(g);
    var c := BraceEnd(g[1..], 1);
    assert r[1..] == x[1..] + [Eos];
    GroupEndAppend(x[1..], 1);
    MatchesGroup(x, s, i, j);
    MatchesGroup(r, s, i, j);
    var inner, rest := x[1..][..c], x[1..][c + 1..];
    assert r[1..][..c] == inner && r[1..][c + 1..] == rest + [Eos];
    forall k: nat | i <= k <= j ensures Matches(rest + [Eos], s, k, j) <==> j == |s| && Matches(rest, s, k, j) {
      EndAnchored(g[1..][c + 1..], s, k, j);
    }
  }

  // Between both anchors the expression matches the whole name or nothing.
  lemma {:induction false} Anchored(g: seq<GTok>, s: string)
    requires DepthAfter(g, 0) == 0
    ensures Found([Bos] + Emit(g, 0) + [Eos], s) <==> Matches(Emit(g, 0), s, 0, |s|)
  {
    hide Emit, Matches, DepthAfter, FirstBar;
    var x := Emit(g, 0);
    var r := [Bos] + x + [Eos];
    assert r[1..] == x + [Eos];
    NoBarOutside(g, 0);
    BarAppend(x, 0);
    FirstBarStep(r, 0);
    forall i: nat, j: nat | i <= j <= |s| ensures Matches(r, s, i, j) <==> i == 0 && j == |s| && Matches(x, s, 0, |s|) {
      MatchesToken(r, s, i, j);
      EndAnchored(g, s, i, j);
      if Matches(r, s, i, j) {
        var k: nat :| i <= k <= j && TokenSpan(Bos, s, i, k) && Matches(r[1..], s, k, j);
      } else if i == 0 {
        assert TokenSpan(Bos, s, 0, 0);
      }
    }
    if Found(r, s) {
      var i: nat, j: nat :| i <= j <= |s| && Matches(r, s, i, j);
    }
    assert Matches(x, s, 0, |s|) ==> Matches(r, s, 0, |s|);
  }

  lemma {:induction false} DepthConcat(x: seq<GTok>, y: seq<GTok>, d: nat)
    ensures DepthAfter(x + y, d) == DepthAfter(y, DepthAfter(x, d))
  {
    if x == [] {
      assert x + y == y;
    } else {
      assert (x + y)[0] == x[0] && (x + y)[1..] == x[1..] + y;
      DepthConcat(x[1..], y, Deeper(x[0], d));
    }
  }

  lemma {:induction false} BracesClose(n: nat)
    ensures DepthAfter(Braces(n), n) == 0
  {
    if n > 0 {
      assert Braces(n)[1..] == Braces(n - 1);
      BracesClose(n - 1);
    }
  }

  /** The compiled expression finds exactly the names the pattern means. */
  lemma {:induction false} CompilingKeepsMeaning(pattern: string, name: string)
    requires Fits(CloseAll(Lex(pattern)), name)
    ensures Found(Compiled(pattern), name) <==> GlobMatches(pattern, name)
  {
    hide Found, Matches, Accepts;
    var g := Lex(pattern);
    DepthConcat(g, Braces(DepthAfter(g, 0)), 0);
    BracesClose(DepthAfter(g, 0));
    Anchored(CloseAll(g), name);
    SameMeaning(CloseAll(g), name, 0, |name|);
  }

  // "**" means any name, but its expression does not match a newline.
  lemma {:induction false} NewlineIsMissed(name: string)
    requires '\n' in name
    ensures GlobMatches("**", name) && !Found(Compiled("**"), name)
  {
    var g := [DoubleStar];
    assert Lex("**") == g;
    assert CloseAll(g) == g;
    assert g[1..] == [];
    assert Stands(DoubleStar, name, 0, |name|) && Accepts(g[1..], name, |name|, |name|);
    Anchored(g, name);
    EmitFirst(g, 0);
    var r := Emit(g, 0);
    assert r == [AnyRun] && r[1..] == [];
    NoBarOutside(g, 0);
    MatchesToken(r, name, 0, |name|);
    assert Compiled("**") == [Bos] + r + [Eos];
    var at :| 0 <= at < |name| && name[at] == '\n';
    assert forall k: nat | k <= |name| :: TokenSpan(AnyRun, name, 0, k) ==> k <= at;
    assert forall k: nat | k <= at :: !Matches([], name, k, |name|);
  }

  /** The expressions find what the patterns mean exactly in the names without a newline. */
  lemma {:induction false} NewlinesAreNotMatched(name: string)
    ensures (forall p: string :: Found(Compiled(p), name) <==> GlobMatches(p, name)) <==> '\n' !in name
  {
    hide Found, Compiled, GlobMatches;
    if '\n' in name {
      NewlineIsMissed(name);
    } else {
      forall p: string ensures Found(Compiled(p), name) <==> GlobMatches(p, name) {
        CompilingKeepsMeaning(p, name);
      }
    }
  }

  // ---- patterns without wildcards --------------------------------------------------------------------

  predicate HasWildcard(p: string) {
    exists k | 0 <= k < |p| :: p[k] in "*?[{"
  }

  lemma {:induction false} PlainTokens(p: string, s: string, i: nat, j: nat)
    requires !HasWildcard(p) && i <= j <= |s|
    ensures DepthAfter(Lex(p), 0) == 0
    ensures Accepts(Lex(p), s, i, j) <==> s[i..j] == p
  {
    if p != "" {
      assert p[0] !in "*?[{";
      assert forall k :: 0 <= k < |p| - 1 ==> p[1..][k] == p[k + 1];
      var t := Lex(p)[0];
      assert Lex(p)[1..] == Lex(p[1..]) && (t == RBrace || t == Comma || t == Char(p[0]));
      hide Lex;
      forall k: nat | i <= k <= j ensures Accepts(Lex(p[1..]), s, k, j) <==> s[k..j] == p[1..] {
        PlainTokens(p[1..], s, k, j);
      }
      PlainTokens(p[1..], s, i, j);
      if s[i..j] == p {
        assert s[i] == s[i..j][0] && s[i + 1..j] == s[i..j][1..];
        assert Stands(t, s, i, i + 1) && Accepts(Lex(p[1..]), s, i + 1, j);
      }
      if Accepts(Lex(p), s, i, j) {
        var k: nat :| i <= k <= j && Stands(t, s, i, k) && Accepts(Lex(p)[1..], s, k, j);
        assert s[i..j] == [s[i]] + s[i + 1..j];
      }
    }
  }

  lemma {:induction false} PlainIsExact(p: string, name: string)
    requires !HasWildcard(p)
    ensures GlobMatches(p, name) <==> p == name
  {
    PlainTokens(p, name, 0, |name|);
    assert CloseAll(Lex(p)) == Lex(p);
    assert name[0..|name|] == name;
  }
}
