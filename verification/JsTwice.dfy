// How long the output is, and when minifying it again changes nothing.
module JsTwice {
  import opened Wrappers
  import opened JsSpec
  import opened JsTheorems

  // Reading s behind p and g as source text comes upon a comment.
  predicate MeetsComment(p: char, g: Gap, s: string)
    decreases |s|
  {
    if s == "" then false
    else if s[0] == ' ' then MeetsComment(p, Widen(g), s[1..])
    else if s[0] == '\n' then MeetsComment(p, LineGap, s[1..])
    else if IsLineComment(s) || IsBlockComment(s) then true
    else
      match LexToken(Context(p, g), s)
      case Err(e) => false
      case Ok((t, rest)) => MeetsComment(t.Last(), NoGap, rest)
  }

  // ----- Length ----------------------------------------------------------------

  // Minification adds at most the line feed in front; a comment makes it shorter.
  lemma {:induction false} OutputIsShort(p: char, g: Gap, s: string)
    requires p != ' ' && Lex(p, g, s).Ok?
    ensures var n := |Render(p, Lex(p, g, s).value)|;
            n + (if MeetsComment(p, g, s) then 1 else 0) <= |s| + (if g.NoGap? && p != '\n' then 0 else 1)
    decreases |s|
  {
    if s == "" {
    } else if s[0] == ' ' {
      OutputIsShort(p, Widen(g), s[1..]);
    } else if s[0] == '\n' {
      OutputIsShort(p, LineGap, s[1..]);
    } else if IsLineComment(s) {
      OutputIsShort(p, g, SkipLine(s[2..]));
    } else if IsBlockComment(s) {
      OutputIsShort(p, Widen(g), SkipBlock(s[2..]).value);
    } else {
      var (t, rest) := LexToken(Context(p, g), s).value;
      LexTokenSplits(Context(p, g), s);
      TokenEnds(t);
      OutputIsShort(t.Last(), NoGap, rest);
      assert Lex(p, g, s).value[1..] == Lex(t.Last(), NoGap, rest).value;
    }
  }

  lemma MinifyIsShort(source: string)
    requires Minify(source).Ok?
    ensures |Minify(source).value| <= |source| + 1
  {
    OutputIsShort('\n', LineGap, Normalize(source));
    NormalizeIsPointwise(source);
  }

  // ----- Minifying twice -------------------------------------------------------

  // After the context character a, a slash begins t just as the lexer would have it.
  predicate Fits(a: char, t: Tok) {
    (t.Regex? ==> RegexMayFollow(a)) && (t == Plain('/') ==> !RegexMayFollow(a))
  }

  predicate Chained(p: char, items: seq<Item>)
    decreases |items|
  {
    items == [] || (Fits(Context(p, items[0].gap), items[0].tok) && Chained(items[0].tok.Last(), items[1..]))
  }

  lemma {:induction false} LexIsChained(p: char, g: Gap, s: string)
    requires Lex(p, g, s).Ok?
    ensures Chained(p, Lex(p, g, s).value)
    decreases |s|
  {
    if s == "" {
    } else if s[0] == ' ' {
      LexIsChained(p, Widen(g), s[1..]);
    } else if s[0] == '\n' {
      LexIsChained(p, LineGap, s[1..]);
    } else if IsLineComment(s) {
      LexIsChained(p, g, SkipLine(s[2..]));
    } else if IsBlockComment(s) {
      LexIsChained(p, Widen(g), SkipBlock(s[2..]).value);
    } else {
      var (t, rest) := LexToken(Context(p, g), s).value;
      LexIsChained(t.Last(), NoGap, rest);
      assert Lex(p, g, s).value[1..] == Lex(t.Last(), NoGap, rest).value;
    }
  }

  // A token in front of any text is read as that token again.
  lemma TokenAgain(a: char, t: Tok, rest: string)
    requires Fits(a, t)
    requires !IsLineComment(t.Text() + rest) && !IsBlockComment(t.Text() + rest)
    ensures LexToken(a, t.Text() + rest) == Ok((t, rest))
  {
    var s := t.Text() + rest;
    if t.Plain? {
      assert s[1..] == rest;
    } else {
      BodyExtends(t.First(), t.body + [t.First()], rest);
      LiteralTail(t.First(), t.body, rest);
    }
  }

  lemma LiteralTail(q: char, body: string, rest: string)
    ensures var s := [q] + body + [q] + rest; s[0] == q && s[1..] == body + [q] + rest
  {
  }

  function StartGap(p: char): Gap {
    if p == '\n' then LineGap else NoGap
  }

  function ReadGap(p: char, sep: string): Gap {
    if sep == "" then StartGap(p) else if sep[0] == ' ' then Widen(StartGap(p)) else LineGap
  }

  // What is left of a gap does the same as the whole gap.
  lemma SeparatorSuffices(p: char, g: Gap, t: Tok)
    requires p != ' ' && Fits(Context(p, g), t)
    ensures var g1 := ReadGap(p, Separator(p, g, t));
            Fits(Context(p, g1), t) && Joint(Context(p, g1), t) == Separator(p, g, t)
  {
  }

  lemma ReadSeparator(p: char, sep: string, s: string)
    requires sep == "" || sep == " " || sep == "\n"
    ensures Output(p, StartGap(p), sep + s) == Output(p, ReadGap(p, sep), s)
    ensures MeetsComment(p, StartGap(p), sep + s) == MeetsComment(p, ReadGap(p, sep), s)
  {
    if sep == "" {
      assert sep + s == s;
    } else {
      assert (sep + s)[1..] == s;
    }
  }

  // Reading the output again: same tokens, and the gaps already at their smallest.
  lemma {:induction false} RenderAgain(p: char, items: seq<Item>)
    requires p != ' ' && Chained(p, items)
    requires !MeetsComment(p, StartGap(p), Render(p, items))
    ensures Output(p, StartGap(p), Render(p, items)) == Ok(Render(p, items))
    decreases |items|
  {
    if items != [] {
      var t, g := items[0].tok, items[0].gap;
      var sep, rest := Separator(p, g, t), Render(t.Last(), items[1..]);
      var g1, s := ReadGap(p, sep), t.Text() + rest;
      assert Render(p, items) == sep + s;
      ReadSeparator(p, sep, s);
      SeparatorSuffices(p, g, t);
      TokenEnds(t);
      TokenAgain(Context(p, g1), t, rest);
      RenderAgain(t.Last(), items[1..]);
      OutputToken(p, g1, s);
    }
  }

  // ----- The output is normalised text -----------------------------------------

  predicate AllNormal(s: string) {
    forall i :: 0 <= i < |s| ==> IsNormal(s[i])
  }

  lemma NormalParts(x: string, y: string)
    ensures AllNormal(x + y) <==> AllNormal(x) && AllNormal(y)
  {
    var z := x + y;
    if AllNormal(z) {
      assert forall i :: 0 <= i < |x| ==> z[i] == x[i];
      assert forall i :: 0 <= i < |y| ==> z[|x| + i] == y[i];
    }
  }

  lemma {:induction false} NormalizeFixes(s: string)
    requires AllNormal(s)
    ensures Normalize(s) == s
  {
    if s != "" {
      NormalizeFixes(s[1..]);
    }
  }

  lemma {:induction false} SkipIsSuffix(s: string)
    ensures |s| >= |SkipLine(s)| && s[|s| - |SkipLine(s)|..] == SkipLine(s)
    ensures SkipBlock(s).Some? ==> s[|s| - |SkipBlock(s).value|..] == SkipBlock(s).value
  {
    if s != "" {
      SkipIsSuffix(s[1..]);
    }
  }

  lemma {:induction false} OutputIsNormal(p: char, g: Gap, s: string)
    requires AllNormal(s) && Lex(p, g, s).Ok?
    ensures AllNormal(Render(p, Lex(p, g, s).value))
    decreases |s|
  {
    if s == "" {
    } else if s[0] == ' ' {
      OutputIsNormal(p, Widen(g), s[1..]);
    } else if s[0] == '\n' {
      OutputIsNormal(p, LineGap, s[1..]);
    } else if IsLineComment(s) {
      SkipIsSuffix(s[2..]);
      OutputIsNormal(p, g, SkipLine(s[2..]));
    } else if IsBlockComment(s) {
      SkipIsSuffix(s[2..]);
      OutputIsNormal(p, Widen(g), SkipBlock(s[2..]).value);
    } else {
      var (t, rest) := LexToken(Context(p, g), s).value;
      LexTokenSplits(Context(p, g), s);
      NormalParts(t.Text(), rest);
      OutputIsNormal(t.Last(), NoGap, rest);
      OutputToken(p, g, s);
      NormalParts(Joint(Context(p, g), t), t.Text());
      NormalParts(Joint(Context(p, g), t) + t.Text(), Render(t.Last(), Lex(t.Last(), NoGap, rest).value));
    }
  }

  // ----- When minifying is idempotent ------------------------------------------

  lemma PlainStartShortens(o: string)
    requires o != "" && !IsBlank(o[0]) && o[0] != '/' && !OpensPhrase(o[0]) && !IsAlphanum(o[0])
    requires Lex('\n', LineGap, o).Ok? && MeetsComment('\n', LineGap, o)
    ensures |Render('\n', Lex('\n', LineGap, o).value)| < |o|
  {
    OutputToken('\n', LineGap, o);
    var (t, rest) := LexToken('\n', o).value;
    LexTokenSplits('\n', o);
    TokenEnds(t);
    assert Joint('\n', t) == "" && o[0] == t.First();
    OutputIsShort(t.Last(), NoGap, rest);
  }

  lemma Regroup(x: string, y: string, z: string)
    ensures x + y + z == x + (y + z)
    ensures x == "" && y != "" ==> x + y + z == y + z && (y + z)[0] == y[0]
  {
  }

  // A comment in the output makes the second result shorter.
  lemma CommentShortens(o: string, t: Tok, rest: string)
    requires o == Joint('\n', t) + t.Text() + rest && Fits('\n', t)
    requires Lex('\n', LineGap, o).Ok? && MeetsComment('\n', LineGap, o)
    ensures |Render('\n', Lex('\n', LineGap, o).value)| < |o|
  {
    TokenEnds(t);
    if KeepsLineBefore(t) {
      Regroup("\n", t.Text(), rest);
      LineStartShortens(o, t.Text() + rest);
    } else {
      Regroup("", t.Text(), rest);
      PlainStartShortens(o);
    }
  }

  lemma LineStartShortens(o: string, s: string)
    requires o == "\n" + s && Lex('\n', LineGap, o).Ok? && MeetsComment('\n', LineGap, o)
    ensures |Render('\n', Lex('\n', LineGap, o).value)| < |o|
  {
    assert o[1..] == s;
    OutputIsShort('\n', LineGap, s);
  }

  // Minifying a successful output again gives the same text exactly when that
  // output, read as source text, contains no comment outside literals.
  lemma MinifyTwice(source: string)
    requires Minify(source).Ok?
    ensures var out := Minify(source).value;
            Minify(out) == Ok(out) <==> !MeetsComment('\n', LineGap, out)
  {
    var s := Normalize(source);
    NormalizeIsPointwise(source);
    var items, out := Lex('\n', LineGap, s).value, Minify(source).value;
    LexIsChained('\n', LineGap, s);
    OutputIsNormal('\n', LineGap, s);
    NormalizeFixes(out);
    if MeetsComment('\n', LineGap, out) {
      if Minify(out).Ok? {
        CommentShortens(out, items[0].tok, Render(items[0].tok.Last(), items[1..]));
      }
    } else {
      RenderAgain('\n', items);
    }
  }

  // Two slashes that a blank kept apart become a comment.
  lemma TwiceCanLoseText()
    ensures Minify("x/ /y") == Ok("\nx//y") && Minify("\nx//y") == Ok("\nx")
  {
    NormalizeFixes("x/ /y");
    NormalizeFixes("\nx//y");
    FirstPass();
    SecondPass();
  }

  lemma FirstPass()
    ensures Output('\n', LineGap, "x/ /y") == Ok("\nx//y")
  {
    Behind();
    assert ['/'] + " /y" == "/ /y" && "" + ['/'] + "/y" == "//y";
    OneToken('x', NoGap, '/', " /y", "/y", "//y");
    assert ['x'] + "/ /y" == "x/ /y" && "\n" + ['x'] + "//y" == "\nx//y";
    OneToken('\n', LineGap, 'x', "/ /y", "//y", "\nx//y");
  }

  // What comes behind the first slash.
  lemma Behind()
    ensures Output('/', NoGap, " /y") == Ok("/y")
  {
    assert ['y'] + "" == "y" && "" + ['y'] + "" == "y";
    OneToken('/', NoGap, 'y', "", "", "y");
    assert ['/'] + "y" == "/y" && "" + ['/'] + "y" == "/y" && " /y"[1..] == "/y";
    OneToken('/', SpaceGap, '/', "y", "y", "/y");
  }

  lemma SecondPass()
    ensures Output('\n', LineGap, "\nx//y") == Ok("\nx")
  {
    assert "//y"[2..] == "y" && "y"[1..] == "" && SkipLine("y") == SkipLine("") == "";
    assert Output('x', NoGap, "//y") == Output('x', NoGap, "") == Ok("");
    assert ['x'] + "//y" == "x//y" && "\n" + ['x'] + "" == "\nx" && "\nx//y"[1..] == "x//y";
    OneToken('\n', LineGap, 'x', "//y", "", "\nx");
  }

  lemma OneToken(p: char, g: Gap, c: char, rest: string, tail: string, out: string)
    requires !IsBlank(c) && !IsQuote(c) && (c == '/' ==> !RegexMayFollow(Context(p, g)))
    requires c == '/' && rest != "" ==> rest[0] != '/' && rest[0] != '*'
    requires Output(c, NoGap, rest) == Ok(tail) && out == Joint(Context(p, g), Plain(c)) + [c] + tail
    ensures Output(p, g, [c] + rest) == Ok(out)
  {
    var s := [c] + rest;
    assert s[1..] == rest && (|s| >= 2 ==> s[1] == rest[0]);
    OutputToken(p, g, s);
  }

  // ----- When minifying fails --------------------------------------------------

  // tail opens, behind the context character a, something that is never closed.
  predicate Unclosed(e: Error, a: char, tail: string) {
    match e
    case UnterminatedComment => IsBlockComment(tail) && SkipBlock(tail[2..]) == None
    case UnterminatedString => tail != "" && IsQuote(tail[0]) && Body(tail[0], tail[1..]) == None
    case UnterminatedRegex =>
      && tail != "" && tail[0] == '/' && !IsLineComment(tail) && !IsBlockComment(tail)
      && RegexMayFollow(a) && Body('/', tail[1..]) == None
  }

  // A place in the text: what is before it, the last character and the gap there, and
  // the text from there on.
  datatype Place = Place(before: string, p: char, g: Gap, tail: string)

  // The place behind the first whole piece of s, which is a blank, a comment or a token;
  // there is none at the end, and none if something is opened that is never closed.
  function Onward(p: char, g: Gap, s: string): (r: Option<Place>)
    ensures r.Some? ==> |r.value.tail| < |s|
  {
    if s == "" then None
    else if s[0] == ' ' then Some(Place([' '], p, Widen(g), s[1..]))
    else if s[0] == '\n' then Some(Place(['\n'], p, LineGap, s[1..]))
    else if IsLineComment(s) then Some(Place(['/', '/'] + LineText(s[2..]), p, g, SkipLine(s[2..])))
    else if IsBlockComment(s) then
      if SkipBlock(s[2..]).None? then None
      else Some(Place(['/', '*'] + BlockText(s[2..]), p, Widen(g), SkipBlock(s[2..]).value))
    else
      match LexToken(Context(p, g), s)
      case Err(_) => None
      case Ok((t, rest)) => Some(Place(t.Text(), t.Last(), NoGap, rest))
  }

  function After(x: string, f: Place): Place {
    f.(before := x + f.before)
  }

  // Passing whole pieces from the front of s comes to f.
  ghost predicate Reached(p: char, g: Gap, s: string, f: Place)
    decreases |s|
  {
    || f == Place("", p, g, s)
    || (Onward(p, g, s).Some? &&
        var n := Onward(p, g, s).value;
        exists f1 :: Reached(n.p, n.g, n.tail, f1) && f == After(n.before, f1))
  }

  lemma OnwardLexes(p: char, g: Gap, s: string, e: Error)
    ensures var n := Onward(p, g, s);
            Lex(p, g, s) == Err(e) <==>
              if n.Some? then Lex(n.value.p, n.value.g, n.value.tail) == Err(e) else Unclosed(e, Context(p, g), s)
  {
  }

  // A place where something unclosed begins is not passed.
  lemma UnclosedStops(p: char, g: Gap, s: string, e: Error)
    requires Unclosed(e, Context(p, g), s)
    ensures Onward(p, g, s).None?
  {
  }

  // Minifying fails if and only if passing whole pieces comes to a comment, a string or
  // a regular expression that is never closed.
  lemma {:induction false} FailureIsUnclosed(p: char, g: Gap, s: string, e: Error)
    ensures Lex(p, g, s) == Err(e) <==>
            exists f :: Reached(p, g, s, f) && Unclosed(e, Context(f.p, f.g), f.tail)
    decreases |s|
  {
    OnwardLexes(p, g, s, e);
    assert Reached(p, g, s, Place("", p, g, s));
    if Onward(p, g, s).Some? {
      var n := Onward(p, g, s).value;
      FailureIsUnclosed(n.p, n.g, n.tail, e);
      if Lex(p, g, s) == Err(e) {
        var f :| Reached(n.p, n.g, n.tail, f) && Unclosed(e, Context(f.p, f.g), f.tail);
        assert Reached(p, g, s, After(n.before, f));
      }
      if Unclosed(e, Context(p, g), s) {
        UnclosedStops(p, g, s, e);
        assert false;
      }
    }
  }

  lemma MinifyFailsIff(source: string, e: Error)
    ensures Minify(source) == Err(e) <==>
            exists f :: Reached('\n', LineGap, Normalize(source), f) && Unclosed(e, Context(f.p, f.g), f.tail)
  {
    FailureIsUnclosed('\n', LineGap, Normalize(source), e);
  }

  // What is passed on the way to a place, and what is left, make up the text; and what
  // is passed consists of whole tokens and gaps.
  ghost predicate Passes(p: char, g: Gap, s: string, f: Place) {
    s == f.before + f.tail && Lex(p, g, f.before).Ok?
  }

  lemma {:induction false} ReachedPasses(p: char, g: Gap, s: string, f: Place)
    requires Reached(p, g, s, f)
    ensures Passes(p, g, s, f)
    decreases |s|
  {
    if f == Place("", p, g, s) {
      assert s == "" + s;
    } else {
      var n := Onward(p, g, s).value;
      var f1 :| Reached(n.p, n.g, n.tail, f1) && f == After(n.before, f1);
      ReachedPasses(n.p, n.g, n.tail, f1);
      PassesMore(p, g, s, f1);
    }
  }

  lemma PassesMore(p: char, g: Gap, s: string, f1: Place)
    requires Onward(p, g, s).Some?
    requires var n := Onward(p, g, s).value; Reached(n.p, n.g, n.tail, f1) && Passes(n.p, n.g, n.tail, f1)
    ensures Passes(p, g, s, After(Onward(p, g, s).value.before, f1))
  {
    if IsBlank(s[0]) {
      BlankPasses(p, g, s, f1);
    } else if IsLineComment(s) {
      LinePasses(p, g, s, f1);
    } else if IsBlockComment(s) {
      BlockPasses(p, g, s, f1);
    } else {
      TokenPasses(p, g, s, f1);
    }
  }

  lemma Joined(x: string, s: string, f: Place)
    requires s == f.before + f.tail
    ensures x + s == After(x, f).before + After(x, f).tail && (x + f.before)[|x|..] == f.before
  {
  }

  lemma BlankPasses(p: char, g: Gap, s: string, f: Place)
    requires s != "" && IsBlank(s[0]) && Passes(p, if s[0] == ' ' then Widen(g) else LineGap, s[1..], f)
    ensures Passes(p, g, s, After([s[0]], f))
  {
    Joined([s[0]], s[1..], f);
    assert s == [s[0]] + s[1..];
  }

  lemma LinePasses(p: char, g: Gap, s: string, f: Place)
    requires IsLineComment(s) && Reached(p, g, SkipLine(s[2..]), f) && Passes(p, g, SkipLine(s[2..]), f)
    ensures Passes(p, g, s, After(['/', '/'] + LineText(s[2..]), f))
  {
    SkipLineStops(s[2..]);
    LineCommentAgain(s, SkipLine(s[2..]));
    LineStopsAtBreak(p, g, s[2..], f);
    LinePassed(s[2..], f.before);
    Joined(['/', '/'] + LineText(s[2..]), SkipLine(s[2..]), f);
  }

  lemma BlockPasses(p: char, g: Gap, s: string, f: Place)
    requires IsBlockComment(s) && SkipBlock(s[2..]).Some? && Passes(p, Widen(g), SkipBlock(s[2..]).value, f)
    ensures Passes(p, g, s, After(['/', '*'] + BlockText(s[2..]), f))
  {
    BlockCommentAgain(s, f.before);
    Joined(['/', '*'] + BlockText(s[2..]), SkipBlock(s[2..]).value, f);
  }

  lemma TokenPasses(p: char, g: Gap, s: string, f: Place)
    requires s != "" && !IsBlank(s[0]) && !IsLineComment(s) && !IsBlockComment(s)
    requires LexToken(Context(p, g), s).Ok?
    requires var (t, rest) := LexToken(Context(p, g), s).value; Passes(t.Last(), NoGap, rest, f)
    ensures Passes(p, g, s, After(LexToken(Context(p, g), s).value.0.Text(), f))
  {
    var (t, rest) := LexToken(Context(p, g), s).value;
    LexTokenSplits(Context(p, g), s);
    TokenEnds(t);
    Joined(t.Text(), rest, f);
    NotComment(t.Text() + f.before, s);
    TokenAgain(Context(p, g), t, f.before);
    OutputToken(p, g, t.Text() + f.before);
  }

  // Behind a line comment nothing or a line feed is passed next.
  lemma LineStopsAtBreak(p: char, g: Gap, s: string, f: Place)
    requires Reached(p, g, SkipLine(s), f)
    ensures f.before == "" || f.before[0] == '\n'
  {
    SkipLineStops(s);
  }

  lemma {:induction false} LinePassed(s: string, t: string)
    requires t == "" || t[0] == '\n'
    ensures var x := ['/', '/'] + LineText(s); IsLineComment(x + t) && SkipLine((x + t)[2..]) == t
  {
    LineTextPassed(s, t);
    assert (['/', '/'] + LineText(s) + t)[2..] == LineText(s) + t;
  }

  lemma {:induction false} LineTextPassed(s: string, t: string)
    requires t == "" || t[0] == '\n'
    ensures SkipLine(LineText(s) + t) == t
  {
    if s == "" || s[0] == '\n' {
      assert "" + t == t;
    } else {
      LineTextPassed(s[1..], t);
      assert (LineText(s) + t)[1..] == LineText(s[1..]) + t;
    }
  }

  lemma NotComment(x: string, s: string)
    requires x <= s && !IsLineComment(s) && !IsBlockComment(s)
    ensures !IsLineComment(x) && !IsBlockComment(x)
  {
  }
}
