// The minifier of helpers/jsmin.c, with its globals theA, theB and theLookahead.
module JsMin {
  import opened Wrappers
  import opened JsSpec
  import opened JsWindow
  import JsRefinement

  class Minifier {
    const input: string
    var pos: nat
    var theA: Code
    var theB: Code
    var theLookahead: Code
    var output: string
    ghost var unread: string  // the normalised text that has not been consumed

    ghost function Held(): nat
      reads `theLookahead
    {
      if theLookahead.Ch? then 1 else 0
    }

    ghost predicate Valid()
      reads `pos, `theLookahead, `unread
    {
      && pos <= |input|
      && |unread| == Held() + |input| - pos
      && (theLookahead.Ch? ==> unread[0] == theLookahead.c && IsNormal(theLookahead.c))
      && (forall i :: Held() <= i < |unread| ==> unread[i] == NormalChar(input[pos + i - Held()]))
    }

    ghost function Now(): Window
      reads this
    {
      Window(theA, theB, unread, output)
    }

    constructor (source: string)
      ensures Valid() && input == source && pos == 0 && unread == Normalize(source) && output == ""
    {
      NormalizeIsPointwise(source);
      ghost var text := Normalize(source);
      assert forall i :: 0 <= i < |text| ==> text[i] == NormalChar(source[i]);
      input := source;
      pos := 0;
      theA, theB, theLookahead := EOF, EOF, EOF;
      output := "";
      unread := text;
    }

    method Get() returns (c: Code)
      requires Valid()
      modifies `pos, `theLookahead, `unread
      ensures Valid() && theLookahead == EOF
      ensures if old(unread) == "" then c == EOF && unread == ""
              else c == Ch(old(unread)[0]) && IsNormal(c.c) && unread == old(unread)[1..]
    {
      c := theLookahead;
      theLookahead := EOF;
      if c == EOF {
        if pos < |input| {
          c := Ch(input[pos]);
          pos := pos + 1;
        }
      }
      if unread != "" {
        unread := unread[1..];
      }
      if c == EOF || c.c >= ' ' || c == Ch('\n') {
        return c;
      }
      if c == Ch('\r') {
        return Ch('\n');
      }
      return Ch(' ');
    }

    method Peek() returns (c: Code)
      requires Valid()
      modifies `pos, `theLookahead, `unread
      ensures Valid() && unread == old(unread)
      ensures c == if unread == "" then EOF else Ch(unread[0])
    {
      theLookahead := Get();
      unread := Text(theLookahead) + unread;
      c := theLookahead;
    }

    method Next() returns (c: Code, error: Option<Error>)
      requires Valid()
      modifies `pos, `theLookahead, `unread
      ensures Valid()
      ensures match Fetch(old(unread))
              case Err(e) => error == Some(e)
              case Ok((b, u)) => error == None && c == b && unread == u
    {
      error := None;
      c := Get();
      if c == Ch('/') {
        var p := Peek();
        if p == Ch('/') {
          c := DropLine();
        } else if p == Ch('*') {
          var star := Get();
          error := DropBlock();
          c := Ch(' ');
        }
      }
    }

    // The loop over the rest of a line comment.
    method DropLine() returns (c: Code)
      requires Valid()
      modifies `pos, `theLookahead, `unread
      ensures Valid()
      ensures var t := SkipLine(old(unread));
              if t == "" then c == EOF && unread == "" else c == Ch('\n') && unread == t[1..]
    {
      c := Get();
      while c.Ch? && c.c > '\n'
        invariant Valid() && (c.Ch? ==> IsNormal(c.c))
        invariant c.EOF? ==> unread == ""
        invariant SkipLine(old(unread)) == if c.EOF? || c.c == '\n' then Text(c) + unread else SkipLine(unread)
        decreases |unread| + |Text(c)|
      {
        c := Get();
      }
    }

    // The loop over the rest of a block comment.
    method DropBlock() returns (error: Option<Error>)
      requires Valid()
      modifies `pos, `theLookahead, `unread
      ensures Valid()
      ensures match SkipBlock(old(unread))
              case None => error == Some(UnterminatedComment)
              case Some(t) => error == None && unread == t
    {
      error := None;
      while true
        invariant Valid()
        invariant SkipBlock(unread) == SkipBlock(old(unread))
        decreases |unread|
      {
        var c := Get();
        if c == Ch('*') {
          var p := Peek();
          if p == Ch('/') {
            var slash := Get();
            return None;
          }
        } else if c == EOF {
          return Some(UnterminatedComment);
        }
      }
    }

    method Put(c: Code)
      requires c.Ch?
      modifies `output
      ensures output == old(output) + [c.c]
    {
      output := output + [c.c];
    }

    // A backslash is copied at once, and the character after it is not looked at.
    method CopyEscape()
      requires Valid()
      modifies `pos, `theLookahead, `unread, `theA, `output
      ensures Valid()
      ensures if old(theA) != Ch('\\') then theA == old(theA) && output == old(output) && unread == old(unread)
              else if old(unread) == "" then theA == EOF
              else output == old(output) + ['\\'] && theA == Ch(old(unread)[0]) && unread == old(unread)[1..]
    {
      if theA == Ch('\\') {
        Put(theA);
        theA := Get();
      }
    }

    // Get the next character of a literal into theA; an escape is copied up to its last
    // character.
    method CopyPiece(q: Code) returns (closed: bool)
      requires Valid() && q.Ch?
      modifies `pos, `theLookahead, `unread, `theA, `output
      ensures Valid() && closed == (theA == q && output == old(output))
      ensures CopyTo(q.c, old(output), old(unread)) ==
              if closed then Some((output, unread)) else if theA == EOF then None
              else CopyTo(q.c, output + [theA.c], unread)
      ensures !closed && theA.Ch? ==> |unread| < |old(unread)|
    {
      theA := Get();
      closed := theA == q;
      if !closed {
        ghost var u := old(unread);
        assert |u| >= 2 ==> u[2..] == u[1..][1..];
        CopyEscape();
      }
    }

    // Copy a string up to its closing quote, which stays in theA.
    method CopyString() returns (error: Option<Error>)
      requires Valid() && theA == theB && theA.Ch?
      modifies `pos, `theLookahead, `unread, `theA, `output
      ensures match CopyTo(theB.c, old(output) + [theB.c], old(unread))
              case None => error == Some(UnterminatedString)
              case Some((o, u)) => error == None && Valid() && theA == theB && output == o && unread == u
    {
      while true
        invariant Valid() && theA.Ch?
        invariant CopyTo(theB.c, output + [theA.c], unread) ==
                  CopyTo(theB.c, old(output) + [theB.c], old(unread))
        decreases |unread|
      {
        Put(theA);
        var closed := CopyPiece(theB);
        if closed {
          return None;
        }
        if theA == EOF {
          return Some(UnterminatedString);
        }
      }
    }

    // Copy a regular expression up to its closing slash, which stays in theA.
    method CopyRegex() returns (error: Option<Error>)
      requires Valid()
      modifies `pos, `theLookahead, `unread, `theA, `output
      ensures match CopyTo('/', old(output), old(unread))
              case None => error == Some(UnterminatedRegex)
              case Some((o, u)) => error == None && Valid() && theA == Ch('/') && output == o && unread == u
    {
      while true
        invariant Valid()
        invariant CopyTo('/', output, unread) == CopyTo('/', old(output), old(unread))
        decreases |unread|
      {
        var closed := CopyPiece(Ch('/'));
        if closed {
          return None;
        }
        if theA == EOF {
          return Some(UnterminatedRegex);
        }
        Put(theA);
      }
    }

    // The part of actions 1 and 2 that copies B to A.
    method CopyBToA() returns (error: Option<Error>)
      requires Valid()
      modifies `pos, `theLookahead, `unread, `theA, `output
      ensures match Shift(old(Now()))
              case Err(e) => error == Some(e)
              case Ok(w) => error == None && Valid() && Now() == w
    {
      error := None;
      theA := theB;
      if theA == Ch('\'') || theA == Ch('\"') {
        error := CopyString();
      }
    }

    // Output A and B, copy the rest of a regular expression, and get the next B.
    method TakeRegex() returns (error: Option<Error>)
      requires Valid() && theA.Ch? && theB == Ch('/')
      modifies this
      ensures match WithRegex(old(Now()))
              case Err(e) => error == Some(e)
              case Ok(w) => error == None && Valid() && Now() == w
    {
      Put(theA);
      Put(theB);
      error := CopyRegex();
      if error == None {
        theB, error := Next();
      }
    }

    // The part common to all actions.
    method GetNextB() returns (error: Option<Error>)
      requires Valid()
      modifies this
      ensures match Advance(old(Now()))
              case Err(e) => error == Some(e)
              case Ok(w) => error == None && Valid() && Now() == w
    {
      theB, error := Next();
      if error == None && theB == Ch('/') {
        var opens := OpensRegex();
        if opens {
          error := TakeRegex();
        }
      }
    }

    // The test of A that decides whether a slash opens a regular expression.
    method OpensRegex() returns (opens: bool)
      ensures opens == (theA.Ch? && RegexMayFollow(theA.c))
    {
      opens :=
        theA == Ch('(') || theA == Ch(',') || theA == Ch('=') || theA == Ch(':') || theA == Ch('[') ||
        theA == Ch('!') || theA == Ch('&') || theA == Ch('|') || theA == Ch('?') || theA == Ch('{') ||
        theA == Ch('}') || theA == Ch(';') || theA == Ch('\n');
    }

    // Every action ends by fetching the character behind the window.  Action 2 moves the
    // window on before that, and action 1 writes what falls out of it.
    method Action(d: int) returns (error: Option<Error>)
      requires Valid() && 1 <= d <= 3 && (d == 1 ==> theA.Ch?)
      modifies this
      ensures match Act(d, old(Now()))
              case Err(e) => error == Some(e)
              case Ok(w) => error == None && Valid() && Now() == w
    {
      error := None;
      if d <= 1 {
        Put(theA);
      }
      if d <= 2 {
        error := CopyBToA();
      }
      if error == None {
        error := GetNextB();
      }
    }

    // The switch of the main loop.
    method Decide() returns (d: int)
      requires theA.Ch?
      ensures 1 <= d <= 3 && d == Choose(theA, theB)
    {
      d := 1;
      if theA == Ch(' ') {
        if !Alphanum(theB) {
          d := 2;
        }
      } else if theA == Ch('\n') {
        if theB == Ch('{') || theB == Ch('[') || theB == Ch('(') || theB == Ch('+') || theB == Ch('-') {
          d := 1;
        } else if theB == Ch(' ') {
          d := 3;
        } else if !Alphanum(theB) {
          d := 2;
        }
      } else if theB == Ch(' ') {
        if !Alphanum(theA) {
          d := 3;
        }
      } else if theB == Ch('\n') {
        if theA == Ch('}') || theA == Ch(']') || theA == Ch(')') || theA == Ch('+') || theA == Ch('-') ||
           theA == Ch('\"') || theA == Ch('\'')
        {
          d := 1;
        } else if !Alphanum(theA) {
          d := 3;
        }
      }
    }

    // One round of the main loop.
    method Round() returns (error: Option<Error>)
      requires Valid() && JsRefinement.AtHead(Now()) && theA.Ch?
      modifies this
      ensures match error
              case Some(e) => JsRefinement.Total(old(Now())) == Err(e)
              case None =>
                && Valid() && JsRefinement.AtHead(Now())
                && JsRefinement.Total(Now()) == JsRefinement.Total(old(Now()))
                && JsRefinement.Measure(Now()) < JsRefinement.Measure(old(Now()))
    {
      JsRefinement.RoundKeepsTotal(Now());
      var d := Decide();
      error := Action(d);
    }

    // Copy the input to the output, leaving out what JavaScript does not need.
    method Jsmin() returns (error: Option<Error>)
      requires Valid() && unread == Normalize(input) && output == ""
      modifies this
      ensures match Minify(input)
              case Err(e) => error == Some(e)
              case Ok(o) => error == None && output == o
    {
      theA := Ch('\n');
      JsRefinement.StartKeepsTotal(Now(), input);
      error := Action(3);
      while error == None && theA != EOF
        invariant error == None ==>
                    Valid() && JsRefinement.AtHead(Now()) && JsRefinement.Total(Now()) == Minify(input)
        invariant error.Some? ==> Minify(input) == Err(error.value)
        decreases if error == None then 1 + JsRefinement.Measure(Now()) else 0
      {
        error := Round();
      }
      if error == None {
        JsRefinement.TotalAtEnd(Now());
      }
    }
  }
}
