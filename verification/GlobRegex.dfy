/**
 Branch-rule globs and the regular expressions they are compiled to (internal/gitapi/glob.go), both as
 token sequences with a meaning of their own. Spans are positions in the whole name.
 */
module GlobRegex {

  // ---- character classes -----------------------------------------------------------------------------

  // The characters a class lists: single ones and ranges.
  predicate Lists(items: string, c: char) {
    if items == "" then false
    else if |items| >= 3 && items[1] == '-' then items[0] <= c <= items[2] || Lists(items[3..], c)
    else items[0] == c || Lists(items[1..], c)
  }

  predicate OrderedRanges(items: string) {
    if items == "" then true
    else if |items| >= 3 && items[1] == '-' then items[0] <= items[2] && OrderedRanges(items[3..])
    else OrderedRanges(items[1..])
  }

  // ---- regular expressions ---------------------------------------------------------------------------

  datatype RTok =
    | Bos            // ^
    | Eos            // $
    | AnyRun         // .*
    | SegmentRun     // [^/]*
    | SegmentChar    // [^/]
    | Set(text: string)
    | Lit(c: char)
    | Open           // (?:
    | Close          // )
    | Bar            // |

  predicate SetHas(text: string, c: char) {
    if text != "" && text[0] == '^' then !Lists(text[1..], c) else Lists(text, c)
  }

  predicate SetCompiles(text: string) {
    OrderedRanges(if text != "" && text[0] == '^' then text[1..] else text)
  }

  predicate Compiles(r: seq<RTok>) {
    forall i :: 0 <= i < |r| && r[i].Set? ==> SetCompiles(r[i].text)
  }

  // A token that is not a bracket or bar matches exactly the span from i to j.
  predicate TokenSpan(t: RTok, s: string, i: nat, j: nat)
    requires i <= j <= |s|
  {
    match t
    case Bos => i == j == 0
    case Eos => i == j == |s|
    case AnyRun => forall k :: i <= k < j ==> s[k] != '\n'
    case SegmentRun => forall k :: i <= k < j ==> s[k] != '/'
    case SegmentChar => j == i + 1 && s[i] != '/'
    case Set(text) => j == i + 1 && SetHas(text, s[i])
    case Lit(c) => j == i + 1 && s[i] == c
    case _ => false
  }

  // Where the group that is open d deep ends; |r| when it does not.
  function GroupEnd(r: seq<RTok>, d: nat): (c: nat)
    requires d > 0
    ensures c <= |r| && (c < |r| ==> r[c] == Close)
  {
    if r == [] then 0
    else if r[0] == Close && d == 1 then 0
    else 1 + GroupEnd(r[1..], if r[0] == Open then d + 1 else if r[0] == Close then d - 1 else d)
  }

  // The first bar outside every group, starting d deep; |r| when there is none.
  function FirstBar(r: seq<RTok>, d: nat): (p: nat)
    ensures p <= |r| && (p < |r| ==> r[p] == Bar)
  {
    if r == [] then 0
    else if r[0] == Bar && d == 0 then 0
    else 1 + FirstBar(r[1..], if r[0] == Open then d + 1 else if r[0] == Close && d > 0 then d - 1 else d)
  }

  // The expression matches exactly the span from i to j. Alternation binds weakest.
  predicate Matches(r: seq<RTok>, s: string, i: nat, j: nat)
    requires i <= j <= |s|
    decreases |r|, 0
  {
    var p := FirstBar(r, 0);
    if p < |r| then Matches(r[..p], s, i, j) || Matches(r[p + 1..], s, i, j)
    else if r == [] then i == j
    else if r[0] == Open then
      var c := GroupEnd(r[1..], 1);
      c < |r| - 1 && GroupThen(r[1..][..c], r[1..][c + 1..], s, i, j)
    else exists k | i <= k <= j :: TokenSpan(r[0], s, i, k) && Matches(r[1..], s, k, j)
  }

  predicate GroupThen(group: seq<RTok>, rest: seq<RTok>, s: string, i: nat, j: nat)
    requires i <= j <= |s|
    decreases |group| + |rest|, 1
  {
    exists k | i <= k <= j :: Matches(group, s, i, k) && Matches(rest, s, k, j)
  }

  // Go's MatchString: the expression matches somewhere in the name.
  predicate Found(r: seq<RTok>, s: string) {
    exists i, j | 0 <= i <= |s| && i <= j <= |s| :: Matches(r, s, i, j)
  }

  // ---- globs -----------------------------------------------------------------------------------------

  datatype GTok = DoubleStar | Star | Question | Class(text: string) | LBrace | RBrace | Comma | Char(c: char)

  predicate Negated(text: string) {
    text != "" && (text[0] == '!' || text[0] == '^')
  }

  function Listed(text: string): string {
    if Negated(text) then text[1..] else text
  }

  // What one glob token stands for. A brace or comma that delimits nothing is itself.
  predicate Stands(t: GTok, s: string, i: nat, j: nat)
    requires i <= j <= |s|
  {
    match t
    case DoubleStar => true
    case Star => forall k :: i <= k < j ==> s[k] != '/'
    case Question => j == i + 1 && s[i] != '/'
    case Class(text) => j == i + 1 && (Lists(Listed(text), s[i]) <==> !Negated(text))
    case LBrace => false
    case RBrace => j == i + 1 && s[i] == '}'
    case Comma => j == i + 1 && s[i] == ','
    case Char(c) => j == i + 1 && s[i] == c
  }

  // Where the brace that is open d deep is closed; |g| when it is not.
  function BraceEnd(g: seq<GTok>, d: nat): (c: nat)
    requires d > 0
    ensures c <= |g| && (c < |g| ==> g[c] == RBrace)
  {
    if g == [] then 0
    else if g[0] == RBrace && d == 1 then 0
    else 1 + BraceEnd(g[1..], if g[0] == LBrace then d + 1 else if g[0] == RBrace then d - 1 else d)
  }

  // The first comma outside every brace, starting d deep; |g| when there is none.
  function FirstComma(g: seq<GTok>, d: nat): (p: nat)
    ensures p <= |g| && (p < |g| ==> g[p] == Comma)
  {
    if g == [] then 0
    else if g[0] == Comma && d == 0 then 0
    else 1 + FirstComma(g[1..], if g[0] == LBrace then d + 1 else if g[0] == RBrace && d > 0 then d - 1 else d)
  }

  // The glob stands for the span from i to j: braces are tried alternative by alternative, each in the
  // place of the braces.
  predicate Accepts(g: seq<GTok>, s: string, i: nat, j: nat)
    requires i <= j <= |s|
    decreases |g|, 0
  {
    if g == [] then i == j
    else if g[0] == LBrace then
      var c := BraceEnd(g[1..], 1);
      AnyAlternative(g[1..][..c], if c < |g| - 1 then g[1..][c + 1..] else [], s, i, j)
    else exists k | i <= k <= j :: Stands(g[0], s, i, k) && Accepts(g[1..], s, k, j)
  }

  predicate AnyAlternative(content: seq<GTok>, rest: seq<GTok>, s: string, i: nat, j: nat)
    requires i <= j <= |s|
    decreases |content| + |rest|, |content| + 1
  {
    var p := FirstComma(content, 0);
    if p < |content| then
      Accepts(content[..p] + rest, s, i, j) || AnyAlternative(content[p + 1..], rest, s, i, j)
    else Accepts(content + rest, s, i, j)
  }

  // How deep g ends when it starts d deep. A closing brace that closes nothing is a character.
  function DepthAfter(g: seq<GTok>, d: nat): nat {
    if g == [] then d
    else DepthAfter(g[1..], if g[0] == LBrace then d + 1 else if g[0] == RBrace && d > 0 then d - 1 else d)
  }

  function Braces(n: nat): (g: seq<GTok>)
    ensures |g| == n
  {
    if n == 0 then [] else [RBrace] + Braces(n - 1)
  }

  // A brace left open extends to the end of the pattern.
  function CloseAll(g: seq<GTok>): seq<GTok> {
    g + Braces(DepthAfter(g, 0))
  }

  function IndexByte(p: string, c: char): (j: nat)
    ensures j <= |p| && (j < |p| ==> p[j] == c) && forall k :: 0 <= k < j ==> p[k] != c
  {
    if p == "" || p[0] == c then 0 else 1 + IndexByte(p[1..], c)
  }

  // A bracket without its closing bracket is a character.
  function Lex(p: string): seq<GTok> {
    if p == "" then []
    else
      match p[0]
      case '*' => if |p| > 1 && p[1] == '*' then [DoubleStar] + Lex(p[2..]) else [Star] + Lex(p[1..])
      case '?' => [Question] + Lex(p[1..])
      case '[' =>
        var j := IndexByte(p, ']');
        if j == |p| then [Char('[')] + Lex(p[1..]) else [Class(p[1..j])] + Lex(p[j + 1..])
      case '{' => [LBrace] + Lex(p[1..])
      case '}' => [RBrace] + Lex(p[1..])
      case ',' => [Comma] + Lex(p[1..])
      case c => [Char(c)] + Lex(p[1..])
  }

  /** The direct meaning of a pattern. */
  predicate GlobMatches(pattern: string, name: string) {
    Accepts(CloseAll(Lex(pattern)), name, 0, |name|)
  }
}
