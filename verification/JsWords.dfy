// What minification does to plain text, to comments and to literals, with every
// character that matters spelled out.
module JsWords {
  import opened Wrappers
  import opened JsSpec
  import opened JsTheorems

  // ----- Plain text ------------------------------------------------------------------

  // No blanks, control characters, quotes or slashes.
  predicate IsPlain(c: char) {
    c > ' ' && c != '\'' && c != '\"' && c != '/'
  }

  predicate PlainText(s: string) {
    forall i :: 0 <= i < |s| ==> IsPlain(s[i])
  }

  predicate Blanks(s: string) {
    forall i :: 0 <= i < |s| ==> s[i] <= ' '
  }

  predicate HasLineBreak(s: string) {
    exists i :: 0 <= i < |s| && (s[i] == '\n' || s[i] == '\r')
  }

  // What is written in front of a text that starts with d.
  function Lead(d: char): string {
    if IsWordChar(d) || IsOpener(d) then "\n" else ""
  }

  // What is written for a gap between c and d with a line break in it or without.
  function Between(c: char, d: char, line: bool): string {
    if !line then if IsWordChar(c) && IsWordChar(d) then " " else ""
    else if (IsWordChar(c) || IsCloser(c)) && (IsWordChar(d) || IsOpener(d)) then "\n"
    else ""
  }

  lemma {:induction false} NormalizeAppend(x: string, y: string)
    ensures Normalize(x + y) == Normalize(x) + Normalize(y)
  {
    if x == "" {
      assert x + y == y;
    } else {
      assert (x + y)[1..] == x[1..] + y;
      NormalizeAppend(x[1..], y);
    }
  }

  lemma {:induction false} NormalizeKeeps(s: string)
    requires forall i :: 0 <= i < |s| ==> s[i] >= ' '
    ensures Normalize(s) == s
  {
    if s != "" {
      NormalizeKeeps(s[1..]);
    }
  }

  lemma PrependBoth(x: string, y: string, r: Result<string>)
    ensures Prepend(x, Prepend(y, r)) == Prepend(x + y, r)
  {
    if r.Ok? {
      assert x + (y + r.value) == x + y + r.value;
    }
  }

  // One plain character behind the context that p and g stand for.
  lemma PlainChar(p: char, g: Gap, d: char, rest: string)
    requires IsPlain(d)
    ensures Output(p, g, [d] + rest) == Prepend(Joint(Context(p, g), Plain(d)) + [d], Output(d, NoGap, rest))
  {
    assert ([d] + rest)[1..] == rest;
    OutputToken(p, g, [d] + rest);
  }

  lemma {:induction false} PlainOutput(p: char, x: string, rest: string)
    requires PlainText(x) && !IsBlank(p)
    ensures Output(p, NoGap, x + rest) == Prepend(x, Output(if x == "" then p else x[|x| - 1], NoGap, rest))
    decreases |x|
  {
    if x == "" {
      assert "" + rest == rest;
      PrependNothing(Output(p, NoGap, rest));
    } else {
      assert x + rest == [x[0]] + (x[1..] + rest) && "" + [x[0]] == [x[0]] && [x[0]] + x[1..] == x;
      PlainChar(p, NoGap, x[0], x[1..] + rest);
      PlainOutput(x[0], x[1..], rest);
      PrependBoth([x[0]], x[1..], Output(x[|x| - 1], NoGap, rest));
    }
  }

  lemma PrependNothing(r: Result<string>)
    ensures Prepend("", r) == r
  {
    if r.Ok? {
      assert "" + r.value == r.value;
    }
  }

  // A plain text behind a gap is written whole behind what is written for the gap.
  lemma PlainBehind(p: char, g: Gap, x: string, rest: string)
    requires PlainText(x) && x != ""
    ensures Output(p, g, x + rest) ==
            Prepend(Joint(Context(p, g), Plain(x[0])) + x, Output(x[|x| - 1], NoGap, rest))
  {
    var joint, tail := Joint(Context(p, g), Plain(x[0])), Output(x[|x| - 1], NoGap, rest);
    assert [x[0]] + x[1..] == x;
    Joined([x[0]], x[1..], rest);
    Joined(joint, [x[0]], x[1..]);
    PlainChar(p, g, x[0], x[1..] + rest);
    PlainOutput(x[0], x[1..], rest);
    PrependBoth(joint + [x[0]], x[1..], tail);
  }

  // ----- Gaps ----------------------------------------------------------------------------

  // The gap turns the kind of gap before it into the kind behind it.
  ghost predicate Passes(gap: string, g: Gap, h: Gap) {
    forall p, rest :: Output(p, g, gap + rest) == Output(p, h, rest)
  }

  lemma {:induction false} BlanksPass(gap: string, g: Gap)
    requires Blanks(gap)
    ensures Passes(Normalize(gap), g, if gap == "" then g else if HasLineBreak(gap) then LineGap else Widen(g))
    decreases |gap|
  {
    var text := Normalize(gap);
    if gap == "" {
      forall rest: string ensures "" + rest == rest {
      }
    } else {
      var g1, h := if text[0] == '\n' then LineGap else Widen(g), if HasLineBreak(gap) then LineGap else Widen(g);
      BlanksPass(gap[1..], g1);
      LineBreaks(gap[0], gap[1..]);
      assert [gap[0]] + gap[1..] == gap;
      forall p, rest: string ensures Output(p, g, text + rest) == Output(p, h, rest) {
        BlankPassed(p, g, text[0], text[1..] + rest);
        Joined([text[0]], text[1..], rest);
      }
    }
  }

  lemma BlankPassed(p: char, g: Gap, c: char, rest: string)
    requires IsBlank(c)
    ensures Output(p, g, [c] + rest) == Output(p, if c == '\n' then LineGap else Widen(g), rest)
  {
    assert ([c] + rest)[1..] == rest;
  }

  lemma LineBreaks(c: char, s: string)
    ensures HasLineBreak([c] + s) <==> c == '\n' || c == '\r' || HasLineBreak(s)
  {
    var t := [c] + s;
    assert t[0] == c;
    if i :| 0 <= i < |s| && (s[i] == '\n' || s[i] == '\r') {
      assert t[i + 1] == s[i];
    }
    if i :| 0 < i < |t| && (t[i] == '\n' || t[i] == '\r') {
      assert s[i - 1] == t[i];
    }
  }

  // A block comment, which ends at the first "*/", is like a blank.
  predicate NoEnd(t: string) {
    forall i :: 0 <= i < |t| - 1 ==> !(t[i] == '*' && t[i + 1] == '/')
  }

  lemma {:induction false} BlockEnds(t: string, rest: string)
    requires NoEnd(t)
    ensures SkipBlock(t + "*/" + rest) == Some(rest)
    decreases |t|
  {
    var s := t + "*/" + rest;
    if t == "" {
      assert s[2..] == rest;
    } else {
      assert s[1..] == t[1..] + "*/" + rest;
      assert s[1] == if |t| > 1 then t[1] else '*';
      BlockEnds(t[1..], rest);
    }
  }

  lemma BlockPasses(t: string, g: Gap)
    requires NoEnd(t)
    ensures Passes("/*" + Normalize(t) + "*/", g, Widen(g))
  {
    NormalizeIsPointwise(t);
    forall p: char, rest ensures Output(p, g, "/*" + Normalize(t) + "*/" + rest) == Output(p, Widen(g), rest) {
      BlockPassed(p, Normalize(t), g, rest);
    }
  }

  lemma BlockPassed(p: char, t: string, g: Gap, rest: string)
    requires NoEnd(t)
    ensures Output(p, g, "/*" + t + "*/" + rest) == Output(p, Widen(g), rest)
  {
    BlockEnds(t, rest);
    var s := "/*" + t + "*/" + rest;
    assert s[0] == '/' && s[1] == '*' && s[2..] == t + "*/" + rest;
    assert Lex(p, g, s) == Lex(p, Widen(g), rest);
  }

  // A line comment is like the line break behind it.
  lemma {:induction false} LineEnds(t: string, rest: string)
    requires forall i :: 0 <= i < |t| ==> t[i] != '\n'
    ensures SkipLine(t + "\n" + rest) == "\n" + rest
    decreases |t|
  {
    if t == "" {
      assert "" + "\n" + rest == "\n" + rest;
    } else {
      assert (t + "\n" + rest)[1..] == t[1..] + "\n" + rest;
      LineEnds(t[1..], rest);
    }
  }

  lemma LinePasses(t: string, g: Gap)
    requires !HasLineBreak(t)
    ensures Passes("//" + Normalize(t) + "\n", g, LineGap)
  {
    NormalizeIsPointwise(t);
    forall p: char, rest ensures Output(p, g, "//" + Normalize(t) + "\n" + rest) == Output(p, LineGap, rest) {
      LinePassed(p, Normalize(t), g, rest);
    }
  }

  lemma LinePassed(p: char, t: string, g: Gap, rest: string)
    requires forall i :: 0 <= i < |t| ==> t[i] != '\n'
    ensures Output(p, g, "//" + t + "\n" + rest) == Output(p, LineGap, rest)
  {
    LineEnds(t, rest);
    var s := "//" + t + "\n" + rest;
    assert s[0] == '/' && s[1] == '/' && s[2..] == t + "\n" + rest;
    assert ("\n" + rest)[1..] == rest;
    assert Lex(p, g, s) == Lex(p, g, "\n" + rest) == Lex(p, LineGap, rest);
  }

  // ----- Words ---------------------------------------------------------------------------

  // What stands between two plain texts becomes a blank, a line feed or nothing,
  // according to the characters beside it and to whether it has a line break.
  lemma GapBecomes(x: string, gap: string, y: string, line: bool)
    requires PlainText(x) && x != "" && PlainText(y) && y != ""
    requires Passes(Normalize(gap), NoGap, if line then LineGap else SpaceGap)
    ensures Minify(x + gap + y) == Ok(Lead(x[0]) + x + Between(x[|x| - 1], y[0], line) + y)
  {
    NormalizeBetween(x, gap, y);
    TextBehind(x[|x| - 1], Normalize(gap), y, line);
    TextInFront(x, Normalize(gap) + y);
    Joined(Lead(x[0]) + x, Between(x[|x| - 1], y[0], line), y);
  }

  lemma NormalizeBetween(x: string, gap: string, y: string)
    requires PlainText(x) && PlainText(y)
    ensures Normalize(x + gap + y) == x + (Normalize(gap) + y)
  {
    NormalizeKeeps(x);
    NormalizeKeeps(y);
    NormalizeAppend(x + gap, y);
    NormalizeAppend(x, gap);
    Joined(x, Normalize(gap), y);
  }

  lemma Joined(x: string, y: string, z: string)
    ensures x + (y + z) == x + y + z
  {
  }

  lemma TextInFront(x: string, rest: string)
    requires PlainText(x) && x != ""
    ensures Output('\n', LineGap, x + rest) == Prepend(Lead(x[0]) + x, Output(x[|x| - 1], NoGap, rest))
  {
    PlainBehind('\n', LineGap, x, rest);
    LeadIs(x[0]);
  }

  lemma TextBehind(c: char, text: string, y: string, line: bool)
    requires IsPlain(c) && PlainText(y) && y != "" && Passes(text, NoGap, if line then LineGap else SpaceGap)
    ensures Output(c, NoGap, text + y) == Ok(Between(c, y[0], line) + y)
  {
    var kind := if line then LineGap else SpaceGap;
    assert Output(c, NoGap, text + y) == Output(c, kind, y);
    assert y + "" == y && Between(c, y[0], line) + y + "" == Between(c, y[0], line) + y;
    PlainBehind(c, kind, y, "");
    BetweenIs(c, y[0], line);
  }

  lemma LeadIs(d: char)
    requires IsPlain(d)
    ensures Joint('\n', Plain(d)) == Lead(d)
  {
    WordCharIs(d);
  }

  lemma BetweenIs(c: char, d: char, line: bool)
    requires IsPlain(c) && IsPlain(d)
    ensures Joint(Context(c, if line then LineGap else SpaceGap), Plain(d)) == Between(c, d, line)
  {
    WordCharIs(c);
    WordCharIs(d);
  }

  // Blanks, tabs, line breaks and other control characters.
  lemma BlanksBecome(x: string, gap: string, y: string)
    requires PlainText(x) && x != "" && PlainText(y) && y != "" && Blanks(gap) && gap != ""
    ensures Minify(x + gap + y) == Ok(Lead(x[0]) + x + Between(x[|x| - 1], y[0], HasLineBreak(gap)) + y)
  {
    BlanksPass(gap, NoGap);
    GapBecomes(x, gap, y, HasLineBreak(gap));
  }

  // Comments: a block comment counts as a blank, whatever is in it, and a line comment as
  // the line break that ends it.
  lemma BlockCommentBecomes(x: string, t: string, y: string)
    requires PlainText(x) && x != "" && PlainText(y) && y != "" && NoEnd(t)
    ensures Minify(x + ("/*" + t + "*/") + y) == Ok(Lead(x[0]) + x + Between(x[|x| - 1], y[0], false) + y)
  {
    BlockPasses(t, NoGap);
    NormalizeAppend("/*" + t, "*/");
    NormalizeAppend("/*", t);
    NormalizeKeeps("/*");
    NormalizeKeeps("*/");
    GapBecomes(x, "/*" + t + "*/", y, false);
  }

  lemma LineCommentBecomes(x: string, t: string, y: string)
    requires PlainText(x) && x != "" && PlainText(y) && y != "" && !HasLineBreak(t)
    ensures Minify(x + ("//" + t + "\n") + y) == Ok(Lead(x[0]) + x + Between(x[|x| - 1], y[0], true) + y)
  {
    LinePasses(t, NoGap);
    NormalizeAppend("//" + t, "\n");
    NormalizeAppend("//", t);
    NormalizeKeeps("//");
    assert Normalize("\n") == "\n";
    GapBecomes(x, "//" + t + "\n", y, true);
  }

  // ----- Literals --------------------------------------------------------------------------

  // The text between the delimiters q of a literal: a backslash takes the next character
  // with it.
  predicate Literal(q: char, t: string)
    decreases |t|
  {
    t == "" ||
    (if t[0] == '\\' then |t| >= 2 && Literal(q, t[2..]) else t[0] != q && Literal(q, t[1..]))
  }

  lemma {:induction false} LiteralEnds(q: char, t: string, rest: string)
    requires Literal(q, t) && q != '\\'
    ensures Body(q, t + [q] + rest) == Some((t, rest))
    decreases |t|
  {
    var s := t + [q] + rest;
    if t == "" {
      assert s[1..] == rest;
    } else {
      var k := if t[0] == '\\' then 2 else 1;
      assert s[k..] == t[k..] + [q] + rest && t[..k] + t[k..] == t;
      assert t[..k] == if k == 2 then [t[0], t[1]] else [t[0]];
      LiteralEnds(q, t[k..], rest);
    }
  }

  function Enclosed(q: char, t: string): string {
    [q] + t + [q]
  }

  lemma EnclosedParts(q: char, t: string, rest: string)
    requires Literal(q, t) && q != '\\'
    ensures var s := Enclosed(q, t) + rest; s[0] == q && Body(q, s[1..]) == Some((t, rest))
    ensures Body(q, t + [q]) == Some((t, "")) && (t != "" ==> (Enclosed(q, t) + rest)[1] == t[0])
  {
    LiteralEnds(q, t, rest);
    LiteralEnds(q, t, "");
    EnclosedTail(q, t, rest);
  }

  lemma EnclosedTail(q: char, t: string, rest: string)
    ensures var s := Enclosed(q, t) + rest; s[1..] == t + [q] + rest && (t != "" ==> s[1] == t[0])
    ensures t + [q] + "" == t + [q]
  {
  }

  lemma NormalizeEnclosed(q: char, t: string)
    requires q >= ' ' && forall i :: 0 <= i < |t| ==> t[i] >= ' '
    ensures Normalize(Enclosed(q, t)) == Enclosed(q, t)
  {
    NormalizeKeeps(Enclosed(q, t));
  }

  // A string is kept as it is, blanks and comments in it included.
  lemma StringsAreKept(q: char, t: string)
    requires (q == '\'' || q == '\"') && Literal(q, t) && forall i :: 0 <= i < |t| ==> t[i] >= ' '
    ensures Minify(Enclosed(q, t)) == Ok(Enclosed(q, t))
  {
    var s := Enclosed(q, t);
    NormalizeEnclosed(q, t);
    EnclosedParts(q, t, "");
    assert s + "" == s && "" + s == s;
    StringOutput(q, t);
  }

  lemma StringOutput(q: char, t: string)
    requires q == '\'' || q == '\"'
    requires Body(q, Enclosed(q, t)[1..]) == Some((t, "")) && Body(q, t + [q]) == Some((t, ""))
    ensures Output('\n', LineGap, Enclosed(q, t)) == Prepend("" + Enclosed(q, t), Ok(""))
  {
    OutputToken('\n', LineGap, Enclosed(q, t));
    assert Joint('\n', Quoted(q, t)) == "";
  }

  // A regular expression in a context that allows one.
  lemma RegexOutput(p: char, g: Gap, t: string, rest: string)
    requires Literal('/', t) && t != "" && t[0] != '*' && RegexMayFollow(Context(p, g))
    ensures Output(p, g, Enclosed('/', t) + rest) ==
            Prepend((if Context(p, g) == '\n' then "\n" else "") + Enclosed('/', t), Output('/', NoGap, rest))
  {
    var s := Enclosed('/', t) + rest;
    EnclosedParts('/', t, rest);
    assert LexToken(Context(p, g), s) == Ok((Regex(t), rest));
    OutputToken(p, g, s);
  }

  // A slash begins a regular expression at the start and behind the characters listed.
  lemma RegexesAreKept(t: string)
    requires Literal('/', t) && t != "" && t[0] != '*' && forall i :: 0 <= i < |t| ==> t[i] >= ' '
    ensures Minify(Enclosed('/', t)) == Ok("\n" + Enclosed('/', t))
  {
    var s := Enclosed('/', t);
    NormalizeEnclosed('/', t);
    RegexOutput('\n', LineGap, t, "");
    assert s + "" == s && "\n" + s + "" == "\n" + s;
  }

  predicate BeforeRegex(a: char) {
    a == '(' || a == ',' || a == '=' || a == ':' || a == '[' || a == '!' || a == '&' || a == '|' || a == '?' ||
    a == '{' || a == '}' || a == ';'
  }

  lemma SlashBegins(a: char, t: string)
    requires BeforeRegex(a) && Literal('/', t) && t != "" && t[0] != '*'
    requires forall i :: 0 <= i < |t| ==> t[i] >= ' '
    ensures Minify([a] + Enclosed('/', t)) == Ok(Lead(a) + [a] + Enclosed('/', t))
  {
    NormalizeEnclosed('/', t);
    NormalizeAppend([a], Enclosed('/', t));
    NormalizeKeeps([a]);
    RegexBehind(a, t);
    CharInFront(a, Enclosed('/', t), Enclosed('/', t));
  }

  lemma CharInFront(a: char, rest: string, out: string)
    requires IsPlain(a) && Output(a, NoGap, rest) == Ok(out)
    ensures Output('\n', LineGap, [a] + rest) == Ok(Lead(a) + [a] + out)
  {
    TextInFront([a], rest);
  }

  lemma RegexBehind(a: char, t: string)
    requires BeforeRegex(a) && Literal('/', t) && t != "" && t[0] != '*'
    ensures Output(a, NoGap, Enclosed('/', t)) == Ok(Enclosed('/', t))
  {
    var s := Enclosed('/', t);
    RegexOutput(a, NoGap, t, "");
    assert s + "" == s && "" + s == s;
  }

  // Behind other characters it divides, and blanks behind it go.
  lemma SlashDivides(a: char, gap: string, y: string)
    requires IsPlain(a) && !BeforeRegex(a) && Blanks(gap) && gap != "" && PlainText(y) && y != ""
    ensures Minify([a] + ("/" + (gap + y))) == Ok(Lead(a) + [a] + ("/" + y))
  {
    var text := Normalize(gap);
    NormalizeDivision(a, gap, y);
    BlanksPass(gap, NoGap);
    NormalizeIsPointwise(gap);
    BehindSlash(text, if HasLineBreak(gap) then LineGap else SpaceGap, y);
    DivisionOutput(a, text + y, y);
    CharInFront(a, "/" + (text + y), "/" + y);
  }

  lemma BehindSlash(text: string, kind: Gap, y: string)
    requires PlainText(y) && y != "" && Passes(text, NoGap, kind) && !kind.NoGap?
    ensures Output('/', NoGap, text + y) == Prepend("" + y, Ok(""))
  {
    assert Output('/', NoGap, text + y) == Output('/', kind, y);
    assert y + "" == y;
    PlainBehind('/', kind, y, "");
  }

  lemma NormalizeDivision(a: char, gap: string, y: string)
    requires IsPlain(a) && PlainText(y)
    ensures Normalize([a] + ("/" + (gap + y))) == [a] + ("/" + (Normalize(gap) + y))
  {
    NormalizeKeeps([a]);
    NormalizeKeeps("/");
    NormalizeKeeps(y);
    NormalizeAppend([a], "/" + (gap + y));
    NormalizeAppend("/", gap + y);
    NormalizeAppend(gap, y);
  }

  lemma DivisionOutput(a: char, rest: string, y: string)
    requires IsPlain(a) && !BeforeRegex(a) && rest != "" && IsBlank(rest[0])
    requires Output('/', NoGap, rest) == Prepend("" + y, Ok(""))
    ensures Output(a, NoGap, "/" + rest) == Ok("/" + y)
  {
    var s := "/" + rest;
    assert s[1..] == rest;
    assert LexToken(a, s) == Ok((Plain('/'), rest)) && Joint(a, Plain('/')) == "";
    OutputToken(a, NoGap, s);
    SlashAnd(y);
  }

  lemma SlashAnd(y: string)
    ensures "" + ['/'] + ("" + y + "") == "/" + y
  {
  }
}
