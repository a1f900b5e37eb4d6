// One round of the main loop of helpers/jsmin.c keeps the text that will have been
// written when the program ends equal to the reference output.
module JsRefinement {
  import opened Wrappers
  import opened JsSpec
  import opened JsWindow

  // The reference output of s behind the context character a.
  function OutputFrom(a: char, s: string): Result<string> {
    if a == ' ' then Output('_', SpaceGap, s)
    else if a == '\n' then Output('\n', LineGap, s)
    else Output(a, NoGap, s)
  }

  // Output depends on the previous token and gap only through their context.
  lemma {:induction false} SameContext(p1: char, g1: Gap, p2: char, g2: Gap, s: string)
    requires p1 != ' ' && p2 != ' ' && Context(p1, g1) == Context(p2, g2)
    ensures Output(p1, g1, s) == Output(p2, g2, s)
    decreases |s|
  {
    if s == "" {
    } else if s[0] == ' ' {
      SameContext(p1, Widen(g1), p2, Widen(g2), s[1..]);
    } else if s[0] == '\n' {
      SameContext(p1, LineGap, p2, LineGap, s[1..]);
    } else if IsLineComment(s) {
      SameContext(p1, g1, p2, g2, SkipLine(s[2..]));
    } else if IsBlockComment(s) {
      var rest := SkipBlock(s[2..]);
      if rest.Some? {
        SameContext(p1, Widen(g1), p2, Widen(g2), rest.value);
      }
    } else {
      OutputToken(p1, g1, s);
      OutputToken(p2, g2, s);
    }
  }

  lemma ContextDecides(p: char, g: Gap, s: string)
    requires p != ' '
    ensures Output(p, g, s) == OutputFrom(Context(p, g), s)
  {
    var a := Context(p, g);
    if a == ' ' {
      SameContext(p, g, '_', SpaceGap, s);
    } else if a == '\n' {
      SameContext(p, g, '\n', LineGap, s);
    } else {
      SameContext(p, g, a, NoGap, s);
    }
  }

  // ----- Getting the next character ------------------------------------------

  // Fetching skips a comment and leaves the blank it stands for.
  lemma FetchKeepsOutput(p: char, g: Gap, s: string)
    requires p != ' '
    ensures match Fetch(s)
            case Err(e) => Output(p, g, s) == Err(e)
            case Ok((c, u)) =>
              && Output(p, g, s) == Output(p, g, Text(c) + u)
              && !IsLineComment(Text(c) + u) && !IsBlockComment(Text(c) + u)
  {
    if s == "" {
    } else if IsLineComment(s) {
      var t := SkipLine(s[2..]);
      SkipLineStops(s[2..]);
      assert t != "" ==> ['\n'] + t[1..] == t;
    } else if IsBlockComment(s) {
      var t := SkipBlock(s[2..]);
      if t.Some? {
        assert ([' '] + t.value)[1..] == t.value;
      }
    } else {
      assert [s[0]] + s[1..] == s;
    }
  }

  lemma {:induction false} CopyToIsBody(q: char, out: string, s: string)
    ensures CopyTo(q, out, s) ==
            match Body(q, s) case None => None case Some((t, rest)) => Some((out + t, rest))
    decreases |s|
  {
    if s == "" {
    } else if s[0] == q {
      assert out + "" == out;
    } else if s[0] != '\\' {
      CopyToIsBody(q, out + [s[0]], s[1..]);
      var r := Body(q, s[1..]);
      assert r.Some? ==> out + [s[0]] + r.value.0 == out + ([s[0]] + r.value.0);
    } else if |s| > 1 {
      CopyToIsBody(q, out + [s[0]] + [s[1]], s[2..]);
      var r := Body(q, s[2..]);
      assert r.Some? ==> out + [s[0]] + [s[1]] + r.value.0 == out + ([s[0], s[1]] + r.value.0);
    }
  }

  // ----- The text a window stands for ----------------------------------------

  function Pending(a: char): string {
    if IsBlank(a) then "" else [a]
  }

  // Everything written by the end, given that B has not been fetched yet.
  function Early(w: Window): Result<string> {
    if w.a.EOF? then Ok(w.written)
    else Prepend(w.written + Pending(w.a.c), OutputFrom(w.a.c, w.unread))
  }

  // Everything written by the end, from the head of the main loop.
  function Total(w: Window): Result<string> {
    Early(w.(unread := Text(w.b) + w.unread))
  }

  // Invariant of the main loop.
  predicate AtHead(w: Window) {
    && (w.b.EOF? ==> w.unread == "")
    && !IsLineComment(Text(w.b) + w.unread) && !IsBlockComment(Text(w.b) + w.unread)
    && !StartsRegex(w.a, w.b)
    && (w.a.EOF? ==> w.b.EOF?)
  }

  // Unread input, plus one for each of theA and theB that is not EOF.
  function Measure(w: Window): nat {
    |w.unread| + |Text(w.a)| + |Text(w.b)|
  }

  lemma FetchKeepsFrom(a: char, s: string)
    ensures match Fetch(s)
            case Err(e) => OutputFrom(a, s) == Err(e)
            case Ok((c, u)) =>
              && OutputFrom(a, s) == OutputFrom(a, Text(c) + u)
              && !IsLineComment(Text(c) + u) && !IsBlockComment(Text(c) + u)
  {
    if a == ' ' {
      FetchKeepsOutput('_', SpaceGap, s);
    } else {
      FetchKeepsOutput(a, if a == '\n' then LineGap else NoGap, s);
    }
  }

  // A token behind the context character a.
  lemma TokenFrom(a: char, s: string)
    requires s != "" && !IsBlank(s[0]) && !IsLineComment(s) && !IsBlockComment(s)
    ensures OutputFrom(a, s) ==
            match LexToken(a, s)
            case Err(e) => Err(e)
            case Ok((t, rest)) => Prepend(Joint(a, t) + t.Text(), OutputFrom(t.Last(), rest))
  {
    if a == ' ' {
      OutputToken('_', SpaceGap, s);
    } else {
      OutputToken(a, if a == '\n' then LineGap else NoGap, s);
    }
  }

  // A blank behind the context character a.
  lemma BlankFrom(a: char, s: string)
    requires s != "" && IsBlank(s[0])
    ensures s[0] == ' ' ==> OutputFrom(a, s) == OutputFrom(if IsAlphanum(a) then ' ' else a, s[1..])
    ensures s[0] == '\n' ==> OutputFrom(a, s) == OutputFrom(if IsBlank(a) || KeepsLine(a) then '\n' else a, s[1..])
  {
    var p := if a == ' ' then '_' else a;
    var g := if a == ' ' then SpaceGap else if a == '\n' then LineGap else NoGap;
    ContextDecides(p, if s[0] == ' ' then Widen(g) else LineGap, s[1..]);
  }

  lemma PrependTwice(x: string, y: string, r: Result<string>)
    ensures Prepend(x, Prepend(y, r)) == Prepend(x + y, r)
  {
    if r.Ok? {
      assert x + (y + r.value) == x + y + r.value;
    }
  }

  lemma AdvanceKeepsText(w: Window)
    requires w.a.EOF? ==> w.unread == ""
    ensures match Advance(w)
            case Err(e) => Early(w) == Err(e)
            case Ok(v) =>
              && AtHead(v) && Total(v) == Early(w) && v.a.EOF? == w.a.EOF?
              && |v.unread| + |Text(v.b)| <= |w.unread|
  {
    if w.a.Ch? {
      var a := w.a.c;
      FetchKeepsFrom(a, w.unread);
      var r := Fetch(w.unread);
      if r.Ok? && StartsRegex(w.a, r.value.0) {
        RegexKeepsText(w);
      }
    }
  }

  // A regular expression behind a, written with the character that precedes it.
  lemma RegexFrom(a: char, u: string)
    requires RegexMayFollow(a) && !IsLineComment(['/'] + u) && !IsBlockComment(['/'] + u)
    ensures Prepend(Pending(a), OutputFrom(a, ['/'] + u)) ==
            match Body('/', u)
            case None => Err(UnterminatedRegex)
            case Some((t, rest)) => Prepend([a] + ['/'] + t, Prepend(['/'], OutputFrom('/', rest)))
  {
    var s := ['/'] + u;
    assert s[1..] == u;
    TokenFrom(a, s);
    var r := LexToken(a, s);
    if r.Ok? {
      var (t, rest) := r.value;
      var tail := OutputFrom('/', rest);
      PrependTwice(Pending(a), Joint(a, t) + t.Text(), tail);
      PrependTwice([a] + ['/'] + t.body, ['/'], tail);
      assert Pending(a) + Joint(a, t) == [a];
      RegexText(Pending(a), Joint(a, t), [a], t.body);
    }
  }

  lemma RegexText(x: string, y: string, z: string, t: string)
    requires x + y == z
    ensures x + (y + (['/'] + t + ['/'])) == z + ['/'] + t + ['/']
  {
    assert x + (y + (['/'] + t + ['/'])) == (x + y) + (['/'] + t + ['/']);
  }

  // What a window writes by the end when a regular expression follows A.
  lemma RegexEarly(w: Window, u: string)
    requires w.a.Ch? && RegexMayFollow(w.a.c) && Fetch(w.unread) == Ok((Ch('/'), u))
    ensures Early(w) ==
            match Body('/', u)
            case None => Err(UnterminatedRegex)
            case Some((t, rest)) => Prepend(w.written + [w.a.c] + ['/'] + t + ['/'], OutputFrom('/', rest))
  {
    var a := w.a.c;
    FetchKeepsFrom(a, w.unread);
    RegexFrom(a, u);
    PrependTwice(w.written, Pending(a), OutputFrom(a, ['/'] + u));
    var r := Body('/', u);
    if r.Some? {
      var (t, rest) := r.value;
      var tail := OutputFrom('/', rest);
      PrependTwice(w.written, [a] + ['/'] + t, Prepend(['/'], tail));
      PrependTwice(w.written + ([a] + ['/'] + t), ['/'], tail);
      assert w.written + ([a] + ['/'] + t) == w.written + [a] + ['/'] + t;
    }
  }

  // The window after a regular expression whose text before the last slash is in out.
  lemma AfterRegex(out: string, rest: string)
    ensures match Fetch(rest)
            case Err(e) => Prepend(out + ['/'], OutputFrom('/', rest)) == Err(e)
            case Ok((b, u)) =>
              var v := Window(Ch('/'), b, u, out);
              AtHead(v) && Total(v) == Prepend(out + ['/'], OutputFrom('/', rest)) && |u| + |Text(b)| <= |rest|
  {
    FetchKeepsFrom('/', rest);
  }

  lemma RegexKeepsText(w: Window)
    requires w.a.Ch? && Fetch(w.unread).Ok? && StartsRegex(w.a, Fetch(w.unread).value.0)
    ensures match Advance(w)
            case Err(e) => Early(w) == Err(e)
            case Ok(v) =>
              && AtHead(v) && Total(v) == Early(w) && v.a.EOF? == w.a.EOF?
              && |v.unread| + |Text(v.b)| <= |w.unread|
  {
    var u := Fetch(w.unread).value.1;
    RegexEarly(w, u);
    CopyToIsBody('/', w.written + [w.a.c] + ['/'], u);
    var r := CopyTo('/', w.written + [w.a.c] + ['/'], u);
    if r.Some? {
      AfterRegex(r.value.0, r.value.1);
    }
  }

  // ----- One round of the main loop ------------------------------------------

  // What is written between the context character a and a token, other than a
  // regular expression, that starts with c.
  function JointBefore(a: char, c: char): string {
    if a == ' ' && IsAlphanum(c) then " "
    else if a == '\n' && (OpensPhrase(c) || IsAlphanum(c)) then "\n"
    else ""
  }

  // What precedes B in the output when the window shows a and B.
  function Before(a: char, b: Code): string {
    Pending(a) + if b.EOF? || IsBlank(b.c) then "" else JointBefore(a, b.c)
  }

  // Everything written by the end if B is copied to A after writing Before.
  lemma ShiftKeepsText(w: Window, a: char)
    requires AtHead(w) && w.a == Ch(a)
    requires w.b == Ch(' ') ==> a == ' ' || IsAlphanum(a)
    requires w.b == Ch('\n') ==> IsBlank(a) || KeepsLine(a)
    ensures match Shift(w.(written := w.written + Before(a, w.b)))
            case Err(e) => Total(w) == Err(e)
            case Ok(v) =>
              && Early(v) == Total(w) && (v.a.EOF? ==> v.unread == "")
              && |v.unread| <= |w.unread| && v.a == w.b
  {
    if w.b.EOF? || IsBlank(w.b.c) {
      ShiftGap(w, a);
    } else if IsQuote(w.b.c) {
      ShiftString(w, a);
    } else {
      ShiftPlain(w, a);
    }
  }

  lemma ShiftGap(w: Window, a: char)
    requires w.a == Ch(a) && (if w.b.EOF? then w.unread == "" else IsBlank(w.b.c))
    requires w.b == Ch(' ') ==> a == ' ' || IsAlphanum(a)
    requires w.b == Ch('\n') ==> IsBlank(a) || KeepsLine(a)
    ensures Early(w.(a := w.b, written := w.written + Before(a, w.b))) == Total(w)
  {
    var s := Text(w.b) + w.unread;
    assert Before(a, w.b) == Pending(a);
    if w.b.Ch? {
      BlankFrom(a, s);
      assert s[1..] == w.unread;
      assert w.written + Pending(a) + "" == w.written + Pending(a);
    } else {
      assert w.written + Pending(a) + "" == w.written + Pending(a);
    }
  }

  // A token after a: what is written up to it, and what comes after.
  lemma TokenTotal(w: Window, a: char, t: Tok, rest: string)
    requires w.a == Ch(a) && !t.Regex?
    requires var s := Text(w.b) + w.unread;
             && s != "" && !IsBlank(s[0]) && !IsLineComment(s) && !IsBlockComment(s)
             && LexToken(a, s) == Ok((t, rest)) && w.b == Ch(t.First())
    ensures Total(w) == Prepend(w.written + Before(a, w.b) + t.Text(), OutputFrom(t.Last(), rest))
  {
    TokenFrom(a, Text(w.b) + w.unread);
    assert Joint(a, t) == JointBefore(a, t.First());
    PrependTwice(w.written + Pending(a), Joint(a, t) + t.Text(), OutputFrom(t.Last(), rest));
    Concat4(w.written, Pending(a), Joint(a, t), t.Text());
  }

  lemma Concat4(x: string, y: string, z: string, t: string)
    ensures x + y + (z + t) == x + (y + z) + t
    ensures x + (y + z + t) == x + y + z + t
  {
  }

  lemma ShiftPlain(w: Window, a: char)
    requires AtHead(w) && w.a == Ch(a) && w.b.Ch? && !IsBlank(w.b.c) && !IsQuote(w.b.c)
    ensures Early(w.(a := w.b, written := w.written + Before(a, w.b))) == Total(w)
  {
    var s := Text(w.b) + w.unread;
    assert s[1..] == w.unread;
    TokenTotal(w, a, Plain(w.b.c), w.unread);
  }

  lemma ShiftString(w: Window, a: char)
    requires AtHead(w) && w.a == Ch(a) && w.b.Ch? && IsQuote(w.b.c)
    ensures match Shift(w.(written := w.written + Before(a, w.b)))
            case Err(e) => Total(w) == Err(e)
            case Ok(v) => Early(v) == Total(w) && |v.unread| <= |w.unread| && v.a == w.b
  {
    var s, q, u := Text(w.b) + w.unread, w.b.c, w.unread;
    assert s[1..] == u;
    var out := w.written + Before(a, w.b);
    CopyToIsBody(q, out + [q], u);
    var r := Body(q, u);
    if r.None? {
      TokenFrom(a, s);
    } else {
      BodyIsWhole(q, u);
      TokenTotal(w, a, Quoted(q, r.value.0), r.value.1);
      Concat4(out, [q], r.value.0, [q]);
    }
  }

  // The action chosen by the main loop keeps the text written by the end, and
  // brings the end nearer.
  lemma RoundKeepsTotal(w: Window)
    requires AtHead(w) && w.a.Ch?
    ensures match Act(Choose(w.a, w.b), w)
            case Err(e) => Total(w) == Err(e)
            case Ok(v) => AtHead(v) && Total(v) == Total(w) && Measure(v) < Measure(w)
  {
    var a, d := w.a.c, Choose(w.a, w.b);
    if d == 3 {
      var s := Text(w.b) + w.unread;
      BlankFrom(a, s);
      assert s[1..] == w.unread;
      AdvanceKeepsText(w);
    } else {
      ShiftKeepsText(w, a);
      assert Before(a, w.b) == if d == 1 then Text(w.a) else "";
      assert w.written + "" == w.written;
      var v := Shift(w.(written := w.written + Before(a, w.b)));
      if v.Ok? {
        AdvanceKeepsText(v.value);
      }
    }
  }

  lemma TotalAtEnd(w: Window)
    requires w.a.EOF?
    ensures Total(w) == Ok(w.written)
  {
  }

  lemma StartKeepsTotal(w: Window, source: string)
    requires w.a == Ch('\n') && w.unread == Normalize(source) && w.written == ""
    ensures match Act(3, w)
            case Err(e) => Minify(source) == Err(e)
            case Ok(v) => AtHead(v) && Total(v) == Minify(source)
  {
    AdvanceKeepsText(w);
    PrependTwice("", "", Minify(source));
    assert Minify(source).Ok? ==> "" + Minify(source).value == Minify(source).value;
  }
}
