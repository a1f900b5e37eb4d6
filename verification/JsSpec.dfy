// Reference definition of JavaScript minification as performed by helpers/jsmin.c.
//
// The source text is first normalised, then split into tokens separated by gaps
// (runs of blanks and comments).  The output keeps every token and replaces each
// gap by at most one blank.  Nothing here mentions the two-character window or
// the three actions of the program; JsMin.dfy shows that the program computes
// exactly this, and JsTheorems.dfy says what it means.
module JsSpec {
  import opened Wrappers

  datatype Error = UnterminatedComment | UnterminatedString | UnterminatedRegex

  datatype Result<+T> = Ok(value: T) | Err(error: Error)

  // ----- Characters --------------------------------------------------------

  predicate IsAlphanum(c: char) {
    'a' <= c <= 'z' || '0' <= c <= '9' || 'A' <= c <= 'Z' || c == '_' || c == '$' || c == '\\' || c > '~'
  }

  predicate IsBlank(c: char) {
    c == ' ' || c == '\n'
  }

  predicate IsQuote(c: char) {
    c == '\'' || c == '\"'
  }

  function NormalChar(c: char): char {
    if c >= ' ' || c == '\n' then c else if c == '\r' then '\n' else ' '
  }

  predicate IsNormal(c: char) {
    c >= ' ' || c == '\n'
  }

  function Normalize(s: string): (r: string) {
    if s == "" then "" else [NormalChar(s[0])] + Normalize(s[1..])
  }

  lemma {:induction false} NormalizeIsPointwise(s: string)
    ensures |Normalize(s)| == |s|
    ensures forall i :: 0 <= i < |s| ==> Normalize(s)[i] == NormalChar(s[i])
  {
    if s != "" {
      NormalizeIsPointwise(s[1..]);
    }
  }

  // ----- Scanners ----------------------------------------------------------

  // s from its first line feed on.
  function SkipLine(s: string): (r: string)
    ensures |r| <= |s|
  {
    if s == "" || s[0] == '\n' then s else SkipLine(s[1..])
  }

  lemma {:induction false} SkipLineStops(s: string)
    ensures SkipLine(s) != "" ==> SkipLine(s)[0] == '\n'
  {
    if s != "" && s[0] != '\n' {
      SkipLineStops(s[1..]);
    }
  }

  // What follows the first "*/" in s.
  function SkipBlock(s: string): (r: Option<string>)
    ensures r.Some? ==> |r.value| < |s|
  {
    if |s| < 2 then None
    else if s[0] == '*' && s[1] == '/' then Some(s[2..])
    else SkipBlock(s[1..])
  }

  // The text before the first unescaped q in s, and what follows that q.
  function Body(q: char, s: string): (r: Option<(string, string)>)
    ensures r.Some? ==> |r.value.1| < |s|
    decreases |s|
  {
    if s == "" then None
    else if s[0] == q then Some(("", s[1..]))
    else if s[0] != '\\' then
      var r := Body(q, s[1..]);
      if r.None? then None else Some(([s[0]] + r.value.0, r.value.1))
    else if |s| == 1 then None
    else
      var r := Body(q, s[2..]);
      if r.None? then None else Some(([s[0], s[1]] + r.value.0, r.value.1))
  }

  predicate IsLineComment(s: string) {
    |s| >= 2 && s[0] == '/' && s[1] == '/'
  }

  predicate IsBlockComment(s: string) {
    |s| >= 2 && s[0] == '/' && s[1] == '*'
  }

  // ----- Tokens and gaps ---------------------------------------------------

  datatype Gap = NoGap | SpaceGap | LineGap

  function Widen(g: Gap): Gap {
    if g.NoGap? then SpaceGap else g
  }

  // A character that opens no literal, a string literal, or a regular expression.
  datatype Token = Plain(c: char) | Quoted(q: char, body: string) | Regex(body: string)
  {
    function Text(): (s: string)
      ensures s != ""
    {
      match this
      case Plain(c) => [c]
      case Quoted(q, t) => [q] + t + [q]
      case Regex(t) => ['/'] + t + ['/']
    }

    predicate WellFormed() {
      match this
      case Plain(c) => !IsBlank(c) && !IsQuote(c)
      case Quoted(q, t) => IsQuote(q) && Body(q, t + [q]) == Some((t, ""))
      case Regex(t) => t != "" && t[0] != '*' && Body('/', t + ['/']) == Some((t, ""))
    }

    function First(): char {
      match this case Plain(c) => c case Quoted(q, _) => q case Regex(_) => '/'
    }

    function Last(): char {
      First()
    }
  }

  type Tok = t: Token | t.WellFormed() witness Plain('x')

  datatype Item = Item(gap: Gap, tok: Tok)

  predicate ClosesPhrase(c: char) {
    c == '}' || c == ']' || c == ')' || c == '+' || c == '-' || IsQuote(c)
  }

  predicate OpensPhrase(c: char) {
    c == '{' || c == '[' || c == '(' || c == '+' || c == '-'
  }

  // A line feed can matter to JavaScript after these characters.
  predicate KeepsLine(c: char) {
    ClosesPhrase(c) || IsAlphanum(c)
  }

  // The character that stands before the next token: the last character p of the
  // previous token, or the blank that has to be considered between the two.  At
  // the start of the text p is a line feed.
  function Context(p: char, g: Gap): char {
    if p == '\n' then '\n'
    else if g.LineGap? && KeepsLine(p) then '\n'
    else if g.SpaceGap? && IsAlphanum(p) then ' '
    else p
  }

  predicate RegexMayFollow(a: char) {
    || a == '(' || a == ',' || a == '=' || a == ':' || a == '[' || a == '!' || a == '&'
    || a == '|' || a == '?' || a == '{' || a == '}' || a == ';' || a == '\n'
  }

  // The token at the front of s, which starts with neither a blank nor a comment,
  // and what follows it.
  function LexToken(a: char, s: string): (r: Result<(Tok, string)>)
    requires s != "" && !IsBlank(s[0]) && !IsLineComment(s) && !IsBlockComment(s)
    ensures r.Ok? ==> |r.value.1| < |s|
  {
    if IsQuote(s[0]) then
      var r := Body(s[0], s[1..]);
      if r.None? then Err(UnterminatedString)
      else
        BodyIsWhole(s[0], s[1..]);
        Ok((Quoted(s[0], r.value.0), r.value.1))
    else if s[0] == '/' && RegexMayFollow(a) then
      var r := Body('/', s[1..]);
      if r.None? then Err(UnterminatedRegex)
      else
        BodyIsWhole('/', s[1..]);
        Ok((Regex(r.value.0), r.value.1))
    else Ok((Plain(s[0]), s[1..]))
  }

  lemma {:induction false} BodySplits(q: char, s: string)
    requires Body(q, s).Some?
    ensures var (t, r) := Body(q, s).value; s == t + [q] + r
    decreases |s|
  {
    var (t, r) := Body(q, s).value;
    if s[0] != q {
      var k := if s[0] == '\\' then 2 else 1;
      BodySplits(q, s[k..]);
      assert s == s[..k] + s[k..];
    }
  }

  // A literal found in a text stays the same whatever follows it.
  lemma {:induction false} BodyExtends(q: char, s: string, tail: string)
    requires Body(q, s).Some?
    ensures var t := Body(q, s).value.0; Body(q, t + [q] + tail) == Some((t, tail))
    decreases |s|
  {
    var t := Body(q, s).value.0;
    if s[0] == q {
      assert (t + [q] + tail)[1..] == tail;
    } else {
      var k := if s[0] == '\\' then 2 else 1;
      BodyExtends(q, s[k..], tail);
      BodyPrefixed(q, s[..k], Body(q, s[k..]).value.0 + [q] + tail);
      assert t + [q] + tail == s[..k] + (Body(q, s[k..]).value.0 + [q] + tail);
    }
  }

  lemma BodyPrefixed(q: char, x: string, s: string)
    requires x != "" && x[0] != q && |x| == if x[0] == '\\' then 2 else 1
    ensures Body(q, x + s) == match Body(q, s) case None => None case Some((t, r)) => Some((x + t, r))
  {
    assert (x + s)[|x|..] == s && |x + s| >= |x|;
    assert x == if x[0] == '\\' then [x[0], x[1]] else [x[0]];
  }

  lemma BodyIsWhole(q: char, s: string)
    requires Body(q, s).Some?
    ensures var (t, r) := Body(q, s).value;
            Body(q, t + [q]) == Some((t, "")) && s == t + [q] + r && (t != "" ==> t[0] == s[0])
  {
    BodySplits(q, s);
    BodyExtends(q, s, "");
    var (t, r) := Body(q, s).value;
    assert t + [q] + "" == t + [q];
  }

  // Tokens of s with the kind of gap before each.  p is the last character of the
  // token before s and g the gap already passed since then.
  function Lex(p: char, g: Gap, s: string): Result<seq<Item>>
    decreases |s|
  {
    if s == "" then Ok([])
    else if s[0] == ' ' then Lex(p, Widen(g), s[1..])
    else if s[0] == '\n' then Lex(p, LineGap, s[1..])
    else if IsLineComment(s) then Lex(p, g, SkipLine(s[2..]))
    else if IsBlockComment(s) then
      match SkipBlock(s[2..])
      case None => Err(UnterminatedComment)
      case Some(rest) => Lex(p, Widen(g), rest)
    else
      match LexToken(Context(p, g), s)
      case Err(e) => Err(e)
      case Ok((t, rest)) =>
        match Lex(t.Last(), NoGap, rest)
        case Err(e) => Err(e)
        case Ok(items) => Ok([Item(g, t)] + items)
  }

  // ----- Output ------------------------------------------------------------

  predicate KeepsLineBefore(t: Tok) {
    t.Regex? || OpensPhrase(t.First()) || IsAlphanum(t.First())
  }

  // What is written between the context character a and the token t.
  function Joint(a: char, t: Tok): string {
    if a == ' ' && IsAlphanum(t.First()) then " "
    else if a == '\n' && KeepsLineBefore(t) then "\n"
    else ""
  }

  // What is left of a gap g between a token that ends in p and the token t.
  function Separator(p: char, g: Gap, t: Tok): string {
    Joint(Context(p, g), t)
  }

  function Render(p: char, items: seq<Item>): string
    decreases |items|
  {
    if items == [] then ""
    else Separator(p, items[0].gap, items[0].tok) + items[0].tok.Text() + Render(items[0].tok.Last(), items[1..])
  }

  function Prepend(x: string, r: Result<string>): Result<string> {
    match r case Err(e) => Err(e) case Ok(y) => Ok(x + y)
  }

  function Output(p: char, g: Gap, s: string): Result<string> {
    match Lex(p, g, s) case Err(e) => Err(e) case Ok(items) => Ok(Render(p, items))
  }

  // Output, one token at a time.
  lemma OutputToken(p: char, g: Gap, s: string)
    requires s != "" && !IsBlank(s[0]) && !IsLineComment(s) && !IsBlockComment(s)
    ensures Output(p, g, s) ==
            match LexToken(Context(p, g), s)
            case Err(e) => Err(e)
            case Ok((t, rest)) => Prepend(Joint(Context(p, g), t) + t.Text(), Output(t.Last(), NoGap, rest))
  {
    var r := LexToken(Context(p, g), s);
    if r.Ok? {
      var (t, rest) := r.value;
      var tail := Lex(t.Last(), NoGap, rest);
      if tail.Ok? {
        assert ([Item(g, t)] + tail.value)[1..] == tail.value;
      }
    }
  }

  function Minify(source: string): Result<string> {
    Output('\n', LineGap, Normalize(source))
  }
}
