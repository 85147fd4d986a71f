/** What a branch-rule pattern means, character by character of its text (internal/gitapi/glob.go). */
module GlobPatterns {
  import opened GlobRegex
  import opened Glob

  // ---- a name behind another text ----------------------------------------------------------------------

  lemma StandsBehind(t: GTok, front: string, s: string, i: nat, j: nat)
    requires i <= j <= |s|
    ensures Stands(t, front + s, |front| + i, |front| + j) <==> Stands(t, s, i, j)
  {
    assert forall k :: i <= k < j ==> (front + s)[|front| + k] == s[k];
    if t == Star && Stands(t, front + s, |front| + i, |front| + j) {
      forall k | i <= k < j ensures s[k] != '/' {
        assert (front + s)[|front| + k] == s[k];
      }
    }
  }

  // The meaning of a pattern does not depend on what comes before the span.
  lemma {:induction false} AcceptsBehind(g: seq<GTok>, front: string, s: string, i: nat, j: nat)
    requires i <= j <= |s|
    ensures Accepts(g, front + s, |front| + i, |front| + j) <==> Accepts(g, s, i, j)
    decreases |g|, 0
  {
    if g == [] {
    } else if g[0] == LBrace {
      var c := BraceEnd(g[1..], 1);
      AlternativesBehind(g[1..][..c], if c < |g| - 1 then g[1..][c + 1..] else [], front, s, i, j);
    } else {
      forall k: nat | i <= k <= j
        ensures Stands(g[0], front + s, |front| + i, |front| + k) <==> Stands(g[0], s, i, k)
        ensures Accepts(g[1..], front + s, |front| + k, |front| + j) <==> Accepts(g[1..], s, k, j)
      {
        StandsBehind(g[0], front, s, i, k);
        AcceptsBehind(g[1..], front, s, k, j);
      }
      hide Stands, BraceEnd;
      var n := |front|;
      if Accepts(g, front + s, n + i, n + j) {
        var k :| n + i <= k <= n + j && Stands(g[0], front + s, n + i, k) && Accepts(g[1..], front + s, k, n + j);
        var m := k - n;
        assert Stands(g[0], s, i, m) && Accepts(g[1..], s, m, j);
      }
      if Accepts(g, s, i, j) {
        var k :| i <= k <= j && Stands(g[0], s, i, k) && Accepts(g[1..], s, k, j);
        assert Stands(g[0], front + s, n + i, n + k) && Accepts(g[1..], front + s, n + k, n + j);
      }
    }
  }

  lemma {:induction false} AlternativesBehind(content: seq<GTok>, rest: seq<GTok>, front: string, s: string, i: nat, j: nat)
    requires i <= j <= |s|
    ensures AnyAlternative(content, rest, front + s, |front| + i, |front| + j) <==> AnyAlternative(content, rest, s, i, j)
    decreases |content| + |rest|, |content| + 1
  {
    var p := FirstComma(content, 0);
    if p < |content| {
      AcceptsBehind(content[..p] + rest, front, s, i, j);
      AlternativesBehind(content[p + 1..], rest, front, s, i, j);
    } else {
      AcceptsBehind(content + rest, front, s, i, j);
    }
  }

  // From position k on, the name fits the pattern exactly when the rest of it does.
  lemma {:induction false} RestFits(g: seq<GTok>, s: string, k: nat)
    requires k <= |s|
    ensures Accepts(g, s, k, |s|) <==> Accepts(g, s[k..], 0, |s| - k)
  {
    assert s[..k] + s[k..] == s;
    AcceptsBehind(g, s[..k], s[k..], 0, |s| - k);
  }

  // ---- one token, and the rest of the pattern ----------------------------------------------------------

  lemma {:induction false} TokenFirst(pattern: string, t: GTok, rest: string)
    requires t != LBrace && Lex(pattern) == [t] + Lex(rest)
    ensures CloseAll(Lex(pattern)) == [t] + CloseAll(Lex(rest))
  {
    assert ([t] + Lex(rest))[1..] == Lex(rest);
  }

  // The token takes the first k characters and the rest of the pattern the others.
  lemma {:induction false} FirstThenRest(pattern: string, t: GTok, rest: string, name: string)
    requires t != LBrace && Lex(pattern) == [t] + Lex(rest)
    ensures GlobMatches(pattern, name) <==>
            exists k: nat | k <= |name| :: Stands(t, name, 0, k) && GlobMatches(rest, name[k..])
  {
    hide Lex, CloseAll, Stands, BraceEnd;
    TokenFirst(pattern, t, rest);
    var g := CloseAll(Lex(rest));
    assert ([t] + g)[1..] == g;
    forall k: nat | k <= |name| ensures Accepts(g, name, k, |name|) <==> GlobMatches(rest, name[k..]) {
      RestFits(g, name, k);
    }
  }

  lemma {:induction false} OneCharacter(pattern: string, t: GTok, rest: string, name: string)
    requires t != LBrace && t != Star && t != DoubleStar && Lex(pattern) == [t] + Lex(rest)
    ensures GlobMatches(pattern, name) <==> name != "" && Stands(t, name, 0, 1) && GlobMatches(rest, name[1..])
  {
    hide Lex, GlobMatches;
    FirstThenRest(pattern, t, rest, name);
  }

  /**
   The empty pattern means the empty name; "?" any character but a slash; a plain character itself, and so do a
   brace or a comma that delimits nothing and a bracket that is never closed.
   */
  lemma {:induction false} CharactersMean(c: char, rest: string, name: string)
    ensures GlobMatches("", name) <==> name == ""
    ensures GlobMatches("?" + rest, name) <==> name != "" && name[0] != '/' && GlobMatches(rest, name[1..])
    ensures c !in "*?[{" || (c == '[' && ']' !in rest) ==>
              (GlobMatches([c] + rest, name) <==> name != "" && name[0] == c && GlobMatches(rest, name[1..]))
  {
    assert ("?" + rest)[1..] == rest && ([c] + rest)[1..] == rest;
    OneCharacter("?" + rest, Question, rest, name);
    if c == '[' && ']' !in rest {
      assert ']' !in [c] + rest;
      OneCharacter([c] + rest, Char(c), rest, name);
    } else if c !in "*?[{" {
      OneCharacter([c] + rest, if c == '}' then RBrace else if c == ',' then Comma else Char(c), rest, name);
    }
  }

  /** "**" means any text, "*" any text without a slash. */
  lemma {:induction false} StarsMean(rest: string, name: string)
    ensures GlobMatches("**" + rest, name) <==> exists k: nat | k <= |name| :: GlobMatches(rest, name[k..])
    ensures rest == "" || rest[0] != '*' ==>
              (GlobMatches("*" + rest, name) <==> exists k: nat | k <= |name| :: '/' !in name[..k] && GlobMatches(rest, name[k..]))
  {
    assert ("**" + rest)[2..] == rest && ("*" + rest)[1..] == rest;
    FirstThenRest("**" + rest, DoubleStar, rest, name);
    if rest == "" || rest[0] != '*' {
      FirstThenRest("*" + rest, Star, rest, name);
      hide GlobMatches;
      forall k: nat | k <= |name| ensures Stands(Star, name, 0, k) <==> '/' !in name[..k] {
        assert forall m :: 0 <= m < k ==> name[..k][m] == name[m];
      }
    }
  }

  // ---- classes -----------------------------------------------------------------------------------------

  /** A class lists single characters and ranges; without a hyphen in it, just its characters. */
  lemma {:induction false} ListsMeans(items: string, c: char)
    ensures '-' !in items ==> (Lists(items, c) <==> c in items)
    ensures forall from: char, to: char :: Lists([from, '-', to] + items, c) <==> from <= c <= to || Lists(items, c)
  {
    if items != "" && '-' !in items {
      ListsMeans(items[1..], c);
      assert items == [items[0]] + items[1..];
    }
    forall from: char, to: char ensures Lists([from, '-', to] + items, c) <==> from <= c <= to || Lists(items, c) {
      assert ([from, '-', to] + items)[3..] == items;
    }
  }

  /** The expression of a class compiles exactly when every range in it is in order. */
  lemma {:induction false} RangesMustBeOrdered(items: string, from: char, to: char)
    ensures '-' !in items ==> OrderedRanges(items)
    ensures OrderedRanges([from, '-', to] + items) <==> from <= to && OrderedRanges(items)
    ensures SetCompiles("^" + items) <==> OrderedRanges(items)
    ensures items == "" || items[0] != '^' ==> (SetCompiles(items) <==> OrderedRanges(items))
  {
    if items != "" && '-' !in items {
      RangesMustBeOrdered(items[1..], from, to);
      assert items == [items[0]] + items[1..];
    }
    assert ([from, '-', to] + items)[3..] == items && ("^" + items)[1..] == items;
  }

  /** A class means one character it lists; after "!" or "^" one that it does not list. */
  lemma {:induction false} ClassMeans(items: string, negation: char, rest: string, name: string)
    requires ']' !in items && negation in "!^"
    ensures items == "" || items[0] !in "!^" ==>
              (GlobMatches("[" + items + "]" + rest, name) <==> name != "" && Lists(items, name[0]) && GlobMatches(rest, name[1..]))
    ensures GlobMatches("[" + [negation] + items + "]" + rest, name) <==>
            name != "" && !Lists(items, name[0]) && GlobMatches(rest, name[1..])
  {
    hide GlobMatches, Lists, Lex;
    var all := [negation] + items;
    assert "[" + [negation] + items + "]" + rest == "[" + all + "]" + rest && all[1..] == items;
    ClassToken(items, rest, name);
    ClassToken(all, rest, name);
  }

  lemma {:induction false} ClassToken(items: string, rest: string, name: string)
    requires ']' !in items
    ensures GlobMatches("[" + items + "]" + rest, name) <==>
            name != "" && (Lists(Listed(items), name[0]) <==> !Negated(items)) && GlobMatches(rest, name[1..])
  {
    hide GlobMatches, Lists, Lex;
    ClassFirst(items, rest);
    OneCharacter("[" + items + "]" + rest, Class(items), rest, name);
  }

  lemma {:induction false} ClassFirst(items: string, rest: string)
    requires ']' !in items
    ensures Lex("[" + items + "]" + rest) == [Class(items)] + Lex(rest)
  {
    var p := "[" + items + "]" + rest;
    var j := IndexByte(p, ']');
    assert p[|items| + 1] == ']';
    assert forall k :: 0 <= k <= |items| ==> p[k] != ']';
    assert p[1..j] == items && p[j + 1..] == rest;
  }

  // ---- braces ------------------------------------------------------------------------------------------

  // A text that is read the same whatever follows it, and leaves no brace open.
  predicate Simple(a: string) {
    forall i :: 0 <= i < |a| ==> a[i] !in "*[{},"
  }

  // Its tokens.
  predicate Plain(x: seq<GTok>) {
    forall i :: 0 <= i < |x| ==> x[i] == Question || x[i].Char?
  }

  lemma {:induction false} SimpleFirst(a: string, rest: string)
    requires Simple(a)
    ensures Lex(a + rest) == Lex(a) + Lex(rest)
    ensures Plain(Lex(a))
  {
    if a == "" {
      assert a + rest == rest;
    } else {
      assert (a + rest)[1..] == a[1..] + rest;
      SimpleFirst(a[1..], rest);
    }
  }

  lemma {:induction false} SimpleTokens(x: seq<GTok>, y: seq<GTok>, d: nat)
    requires Plain(x)
    ensures DepthAfter(x + y, d) == DepthAfter(y, d)
    ensures d > 0 ==> BraceEnd(x + y, d) == |x| + BraceEnd(y, d)
    ensures FirstComma(x + y, d) == |x| + FirstComma(y, d)
  {
    if x == [] {
      assert x + y == y;
    } else {
      assert (x + y)[1..] == x[1..] + y;
      SimpleTokens(x[1..], y, d);
    }
  }

  // "{", the tokens x, ",", the tokens y, "}", and the rest.
  function Braced(x: seq<GTok>, y: seq<GTok>, rest: seq<GTok>): seq<GTok> {
    [LBrace] + (x + ([Comma] + (y + ([RBrace] + rest))))
  }

  lemma {:induction false} BracesLex(a: string, b: string, rest: string)
    requires Simple(a) && Simple(b)
    ensures Plain(Lex(a)) && Plain(Lex(b)) && Lex("{" + a + "," + b + "}" + rest) == Braced(Lex(a), Lex(b), Lex(rest))
    ensures Lex(a + rest) == Lex(a) + Lex(rest) && Lex(b + rest) == Lex(b) + Lex(rest)
  {
    var p := "{" + a + "," + b + "}" + rest;
    var p1, p2, p3 := a + ("," + b + "}" + rest), b + ("}" + rest), "}" + rest;
    assert p[1..] == p1 && ("," + b + "}" + rest)[1..] == p2 && p3[1..] == rest;
    SimpleFirst(a, "," + b + "}" + rest);
    SimpleFirst(b, "}" + rest);
    SimpleFirst(a, rest);
    SimpleFirst(b, rest);
  }

  lemma {:induction false} BracesClosed(x: seq<GTok>, y: seq<GTok>, l: seq<GTok>)
    requires Plain(x) && Plain(y)
    ensures CloseAll(Braced(x, y, l)) == Braced(x, y, CloseAll(l))
    ensures CloseAll(x + l) == x + CloseAll(l) && CloseAll(y + l) == y + CloseAll(l)
  {
    hide DepthAfter, BraceEnd, FirstComma, Braces, Braced;
    SimpleTokens(x, l, 0);
    SimpleTokens(y, l, 0);
    SimpleTokens(x, [Comma] + (y + ([RBrace] + l)), 1);
    SimpleTokens(y, [RBrace] + l, 1);
    DepthSteps(x, y, l);
    BracedAppend(x, y, l, Braces(DepthAfter(l, 0)));
  }

  lemma {:induction false} BracedAppend(x: seq<GTok>, y: seq<GTok>, l: seq<GTok>, m: seq<GTok>)
    ensures Braced(x, y, l) + m == Braced(x, y, l + m)
    ensures x + l + m == x + (l + m) && y + l + m == y + (l + m)
  {
  }

  lemma {:induction false} DepthSteps(x: seq<GTok>, y: seq<GTok>, l: seq<GTok>)
    ensures DepthAfter(Braced(x, y, l), 0) == DepthAfter(x + ([Comma] + (y + ([RBrace] + l))), 1)
    ensures DepthAfter([Comma] + (y + ([RBrace] + l)), 1) == DepthAfter(y + ([RBrace] + l), 1)
    ensures DepthAfter([RBrace] + l, 1) == DepthAfter(l, 0)
  {
    assert ([RBrace] + l)[1..] == l;
    assert ([Comma] + (y + ([RBrace] + l)))[1..] == y + ([RBrace] + l);
    assert Braced(x, y, l)[1..] == x + ([Comma] + (y + ([RBrace] + l)));
  }

  lemma {:induction false} BracesSplit(x: seq<GTok>, y: seq<GTok>, g: seq<GTok>)
    requires Plain(x) && Plain(y)
    ensures BraceEnd(x + ([Comma] + (y + ([RBrace] + g))), 1) == |x| + 1 + |y|
    ensures FirstComma(x + ([Comma] + y), 0) == |x| && FirstComma(y, 0) == |y|
  {
    SimpleTokens(x, [Comma] + (y + ([RBrace] + g)), 1);
    SimpleTokens(y, [RBrace] + g, 1);
    SimpleTokens(x, [Comma] + y, 0);
    SimpleTokens(y, [], 0);
    assert y + [] == y;
    assert ([Comma] + (y + ([RBrace] + g)))[1..] == y + ([RBrace] + g);
  }

  /** Braces mean either of their alternatives, in their place. */
  lemma {:induction false} BracesMean(a: string, b: string, rest: string, name: string)
    requires Simple(a) && Simple(b)
    ensures GlobMatches("{" + a + "," + b + "}" + rest, name) <==> GlobMatches(a + rest, name) || GlobMatches(b + rest, name)
  {
    hide Lex, CloseAll, BraceEnd, FirstComma, Stands, Plain;
    BracesLex(a, b, rest);
    var x, y, g := Lex(a), Lex(b), CloseAll(Lex(rest));
    BracesClosed(x, y, Lex(rest));
    BracesSplit(x, y, g);
    EitherAccepted(x, y, g, name);
  }

  lemma {:induction false} EitherAccepted(x: seq<GTok>, y: seq<GTok>, g: seq<GTok>, name: string)
    requires BraceEnd(x + ([Comma] + (y + ([RBrace] + g))), 1) == |x| + 1 + |y|
    requires FirstComma(x + ([Comma] + y), 0) == |x| && FirstComma(y, 0) == |y|
    ensures Accepts(Braced(x, y, g), name, 0, |name|) <==> Accepts(x + g, name, 0, |name|) || Accepts(y + g, name, 0, |name|)
  {
    hide BraceEnd, FirstComma, Stands;
    var inside := x + ([Comma] + (y + ([RBrace] + g)));
    var content, c := x + ([Comma] + y), |x| + 1 + |y|;
    assert Braced(x, y, g)[1..] == inside && inside[..c] == content && inside[c + 1..] == g;
    assert content[..|x|] == x && content[|x| + 1..] == y;
    assert AnyAlternative(content, g, name, 0, |name|) <==> Accepts(x + g, name, 0, |name|) || AnyAlternative(y, g, name, 0, |name|);
  }

  lemma {:induction false} OpenBraceRead(a: string)
    requires Simple(a)
    ensures Plain(Lex(a)) && Lex("{" + a) == [LBrace] + Lex(a)
  {
    assert ("{" + a)[1..] == a && a + "" == a;
    SimpleFirst(a, "");
  }

  lemma {:induction false} OpenBraceClosed(x: seq<GTok>)
    requires Plain(x)
    ensures CloseAll([LBrace] + x) == [LBrace] + (x + [RBrace]) && CloseAll(x) == x
    ensures BraceEnd(x + [RBrace], 1) == |x| && FirstComma(x, 0) == |x|
  {
    assert x + [] == x && ([LBrace] + x)[1..] == x;
    SimpleTokens(x, [], 1);
    SimpleTokens(x, [], 0);
    SimpleTokens(x, [RBrace], 1);
    assert Braces(1) == [RBrace];
  }

  /** A brace that is never closed extends to the end of the pattern. */
  lemma {:induction false} OpenBraceMeans(a: string, name: string)
    requires Simple(a)
    ensures GlobMatches("{" + a, name) <==> GlobMatches(a, name)
  {
    hide Lex, CloseAll, Stands, Plain, DepthAfter, BraceEnd, FirstComma;
    OpenBraceRead(a);
    var x := Lex(a);
    OpenBraceClosed(x);
    var all := [LBrace] + (x + [RBrace]);
    assert all[1..] == x + [RBrace] && (x + [RBrace])[..|x|] == x && (x + [RBrace])[|x| + 1..] == [] && x + [] == x;
    assert Accepts(all, name, 0, |name|) <==> AnyAlternative(x, [], name, 0, |name|);
  }
}
