/** The compile loop and the cached matcher (internal/gitapi/glob.go). */
module GlobMatcher {
  import opened Option
  import opened GlobRegex
  import opened Glob

  const CACHE_LIMIT := 1024

  // What compileGlob returns: nothing when the expression does not compile.
  function CompileResult(p: string): Option<seq<RTok>> {
    if Compiles(Compiled(p)) then Some(Compiled(p)) else None
  }

  // One round of the loop at p[i]: how many characters it takes and which token they are.
  function TokenAt(p: string): (t: (GTok, nat))
    requires p != ""
    ensures 1 <= t.1 <= |p|
  {
    match p[0]
    case '*' => if |p| > 1 && p[1] == '*' then (DoubleStar, 2) else (Star, 1)
    case '?' => (Question, 1)
    case '[' => var j := IndexByte(p, ']'); if j == |p| then (Char('['), 1) else (Class(p[1..j]), j + 1)
    case '{' => (LBrace, 1)
    case '}' => (RBrace, 1)
    case ',' => (Comma, 1)
    case c => (Char(c), 1)
  }

  lemma {:induction false} LexStep(p: string)
    requires p != ""
    ensures Lex(p) == [TokenAt(p).0] + Lex(p[TokenAt(p).1..])
  {
  }

  lemma {:induction false} EmitStep(p: string, d: nat)
    requires p != ""
    ensures Emit(Lex(p), d) == [EmitTok(TokenAt(p).0, d)] + Emit(Lex(p[TokenAt(p).1..]), Deeper(TokenAt(p).0, d))
    ensures DepthAfter(Lex(p), d) == DepthAfter(Lex(p[TokenAt(p).1..]), Deeper(TokenAt(p).0, d))
  {
    LexStep(p);
    hide Lex;
    assert Lex(p)[1..] == Lex(p[TokenAt(p).1..]);
  }

  lemma {:induction false} AddBraces(n: nat)
    ensures Emit(Braces(n), n) == seq(n, i => Close)
  {
    if n > 0 {
      AddBraces(n - 1);
      assert Braces(n)[1..] == Braces(n - 1);
      assert seq(n, i => Close) == [Close] + seq(n - 1, i => Close);
    } else {
      assert seq(0, i => Close) == [];
    }
  }

  lemma {:induction false} WholeEmit(p: string)
    ensures Compiled(p) == [Bos] + Emit(Lex(p), 0) + seq(DepthAfter(Lex(p), 0), i => Close) + [Eos]
  {
    var g := Lex(p);
    EmitConcat(g, Braces(DepthAfter(g, 0)), 0);
    AddBraces(DepthAfter(g, 0));
  }

  // The text after the opening bracket, with "!" written as "^".
  function ClassText(cls: string): string {
    if cls != "" && cls[0] == '!' then "^" + cls[1..] else cls
  }

  /** Writes the expression token by token, counting the groups that are open. */
  method CompileGlob(p: string) returns (re: Option<seq<RTok>>)
    ensures re == CompileResult(p)
  {
    hide Lex, Emit, DepthAfter, Compiles;
    var b := [Bos];
    var depth: nat := 0;
    var i := 0;
    assert p[0..] == p;
    while i < |p|
      invariant 0 <= i <= |p|
      invariant b + Emit(Lex(p[i..]), depth) == [Bos] + Emit(Lex(p), 0)
      invariant DepthAfter(Lex(p[i..]), depth) == DepthAfter(Lex(p), 0)
    {
      ghost var rest, b0, d0 := p[i..], b, depth;
      EmitStep(rest, depth);
      var c := p[i];
      match c {
        case '*' =>
          if i + 1 < |p| && p[i + 1] == '*' {
            b := b + [AnyRun];
            i := i + 1;
          } else {
            b := b + [SegmentRun];
          }
        case '?' =>
          b := b + [SegmentChar];
        case '[' =>
          var j := IndexByte(p[i..], ']');
          if j == |p| - i {
            b := b + [Lit('[')];
          } else {
            assert p[i..][1..j] == p[i + 1..i + j];
            b := b + [Set(ClassText(p[i + 1..i + j]))];
            i := i + j;
          }
        case '{' =>
          depth := depth + 1;
          b := b + [Open];
        case '}' =>
          if depth > 0 {
            depth := depth - 1;
            b := b + [Close];
          } else {
            b := b + [Lit('}')];
          }
        case ',' =>
          b := b + [if depth > 0 then Bar else Lit(',')];
        case _ =>
          b := b + [Lit(c)];
      }
      i := i + 1;
      StepDone(p, rest, b0, b, d0, depth, i);
    }
    NothingLeft(p, i, b, depth);
    ghost var closers, body := depth, b;
    while depth > 0
      invariant depth <= closers && b == body + seq(closers - depth, k => Close)
    {
      b := b + [Close];
      depth := depth - 1;
    }
    b := b + [Eos];
    WholeEmit(p);
    re := if Compiles(b) then Some(b) else None;
  }

  lemma {:induction false} StepDone(p: string, rest: string, b0: seq<RTok>, b: seq<RTok>, d0: nat, d: nat, i: nat)
    requires rest != "" && |rest| <= |p| && rest == p[|p| - |rest|..]
    requires i == |p| - |rest| + TokenAt(rest).1 && d == Deeper(TokenAt(rest).0, d0) && b == b0 + [EmitTok(TokenAt(rest).0, d0)]
    requires Emit(Lex(rest), d0) == [EmitTok(TokenAt(rest).0, d0)] + Emit(Lex(rest[TokenAt(rest).1..]), d)
    ensures p[i..] == rest[TokenAt(rest).1..]
    ensures b + Emit(Lex(p[i..]), d) == b0 + Emit(Lex(rest), d0)
  {
    hide Lex, Emit;
    assert p[i..] == rest[TokenAt(rest).1..];
  }

  lemma {:induction false} NothingLeft(p: string, i: nat, b: seq<RTok>, d: nat)
    requires i == |p|
    ensures Lex(p[i..]) == [] && b + Emit(Lex(p[i..]), d) == b && DepthAfter(Lex(p[i..]), d) == d
  {
  }

  // The classes the expression engine reads as listed here: not empty, and without the two characters
  // that have a meaning of their own inside a class.
  predicate PlainClass(t: GTok) {
    t.Class? ==> Listed(t.text) != "" && '\\' !in Listed(t.text) && '[' !in Listed(t.text)
  }

  predicate PlainClasses(p: string) {
    forall i :: 0 <= i < |Lex(p)| ==> PlainClass(Lex(p)[i])
  }

  /** The matcher with its cache of compiled expressions, emptied when it has grown past the limit. */
  class Matcher {
    var cache: map<string, Option<seq<RTok>>>

    ghost predicate Valid()
      reads this
    {
      (forall p :: p in cache ==> cache[p] == CompileResult(p)) && |cache| <= 1025
    }

    constructor ()
      ensures Valid()
    {
      cache := map[];
    }

    /**
     A name matches when it equals the pattern or the pattern means it; equality decides alone when the
     pattern has no wildcard or its expression does not compile. The cache never changes the answer.
     */
    method MatchGlob(pattern: string, name: string) returns (ok: bool)
      requires Valid()
      modifies this
      ensures Valid()
      ensures ok <==> pattern == name || (HasWildcard(pattern) && Compiles(Compiled(pattern)) && Found(Compiled(pattern), name))
      ensures PlainClasses(pattern) && Compiles(Compiled(pattern)) && Fits(CloseAll(Lex(pattern)), name) ==>
                (ok <==> pattern == name || GlobMatches(pattern, name))
    {
      hide Found, GlobMatches, Compiled, Compiles, PlainClasses, Fits, HasWildcard;
      if Fits(CloseAll(Lex(pattern)), name) {
        CompilingKeepsMeaning(pattern, name);
      }
      if !HasWildcard(pattern) {
        PlainIsExact(pattern, name);
      }
      if pattern == name {
        return true;
      }
      if !HasWildcard(pattern) {
        return false;
      }
      var re: Option<seq<RTok>>;
      if pattern in cache {
        re := cache[pattern];
      } else {
        re := CompileGlob(pattern);
        if |cache| > CACHE_LIMIT {
          cache := map[];
        }
        cache := cache[pattern := re];
      }
      return re.Some? && Found(re.value, name);
    }
  }
}
