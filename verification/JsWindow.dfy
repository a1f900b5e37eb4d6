// One step of the minifier as a function: a window of two characters A and B slides
// over the unread text, driven by the three actions of helpers/jsmin.c.
module JsWindow {
  import opened Wrappers
  import opened JsSpec

  // The value of a C int that holds a character or EOF.
  datatype Code = EOF | Ch(c: char)

  predicate Quote(c: Code) {
    c.Ch? && IsQuote(c.c)
  }

  predicate Alphanum(c: Code) {
    c.Ch? && IsAlphanum(c.c)
  }

  function Text(c: Code): string {
    if c.EOF? then "" else [c.c]
  }

  // ----- What one step of the window does ------------------------------------

  // Copy s to the end of out up to the next unescaped q: the new out, and what
  // follows that q.
  function CopyTo(q: char, out: string, s: string): (r: Option<(string, string)>)
    ensures r.Some? ==> |r.value.1| < |s|
    decreases |s|
  {
    if s == "" then None
    else if s[0] == q then Some((out, s[1..]))
    else if s[0] != '\\' then CopyTo(q, out + [s[0]], s[1..])
    else if |s| == 1 then None
    else CopyTo(q, out + [s[0]] + [s[1]], s[2..])
  }

  // The next character outside comments, and what follows it.
  function Fetch(s: string): (r: Result<(Code, string)>)
    ensures r.Ok? ==> |r.value.1| <= |s|
    ensures r.Ok? && r.value.0.Ch? ==> |r.value.1| < |s|
    ensures r.Ok? && r.value.0.EOF? ==> r.value.1 == ""
  {
    if s == "" then Ok((EOF, ""))
    else if IsLineComment(s) then
      var t := SkipLine(s[2..]);
      if t == "" then Ok((EOF, "")) else Ok((Ch('\n'), t[1..]))
    else if IsBlockComment(s) then
      var t := SkipBlock(s[2..]);
      if t.None? then Err(UnterminatedComment) else Ok((Ch(' '), t.value))
    else Ok((Ch(s[0]), s[1..]))
  }

  // The window, the unread text, and what has been written since some point.
  datatype Window = Window(a: Code, b: Code, unread: string, written: string)

  // Copy B to A; a string is copied up to its closing quote.
  function Shift(w: Window): Result<Window> {
    if Quote(w.b) then
      var r := CopyTo(w.b.c, w.written + [w.b.c], w.unread);
      if r.None? then Err(UnterminatedString)
      else Ok(w.(a := w.b, written := r.value.0, unread := r.value.1))
    else Ok(w.(a := w.b))
  }

  predicate StartsRegex(a: Code, b: Code) {
    b == Ch('/') && a.Ch? && RegexMayFollow(a.c)
  }

  // Get the next B; a regular expression is copied up to its closing slash.
  function Advance(w: Window): Result<Window> {
    match Fetch(w.unread)
    case Err(e) => Err(e)
    case Ok((b, u)) =>
      if !StartsRegex(w.a, b) then Ok(w.(b := b, unread := u))
      else WithRegex(w.(b := b, unread := u))
  }

  // Write A and the slash in B, copy the rest of the regular expression, and get the
  // next B.
  function WithRegex(w: Window): Result<Window>
    requires w.a.Ch?
  {
    var r := CopyTo('/', w.written + [w.a.c] + ['/'], w.unread);
    if r.None? then Err(UnterminatedRegex)
    else
      match Fetch(r.value.1)
      case Err(e) => Err(e)
      case Ok((b, u)) => Ok(Window(Ch('/'), b, u, r.value.0))
  }

  function Act(d: int, w: Window): Result<Window> {
    var w1 := if d <= 1 then w.(written := w.written + Text(w.a)) else w;
    if d > 2 then Advance(w1)
    else match Shift(w1) case Err(e) => Err(e) case Ok(w2) => Advance(w2)
  }

  // Which action the main loop takes.
  function Choose(a: Code, b: Code): int {
    if a == Ch(' ') then if Alphanum(b) then 1 else 2
    else if a == Ch('\n') then
      if b.Ch? && OpensPhrase(b.c) then 1 else if b == Ch(' ') then 3 else if Alphanum(b) then 1 else 2
    else if b == Ch(' ') then if Alphanum(a) then 1 else 3
    else if b == Ch('\n') then if a.Ch? && KeepsLine(a.c) then 1 else 3
    else 1
  }
}
