// What minification keeps, what it removes, and when doing it twice changes nothing.
module JsTheorems {
  import opened Wrappers
  import opened JsSpec

  // ----- Source and output are woven from the same tokens ---------------------

  function Tokens(items: seq<Item>): (r: seq<Tok>)
    ensures |r| == |items|
    ensures forall i :: 0 <= i < |items| ==> r[i] == items[i].tok
  {
    seq(|items|, i requires 0 <= i < |items| => items[i].tok)
  }

  // The tokens in order, with gaps[i] before the i-th and the last gap at the end.
  function Weave(gaps: seq<string>, toks: seq<Tok>): string
    requires |gaps| == |toks| + 1
    decreases |toks|
  {
    if toks == [] then gaps[0] else gaps[0] + toks[0].Text() + Weave(gaps[1..], toks[1..])
  }

  // What SkipLine and SkipBlock skip.
  function LineText(s: string): string {
    if s == "" || s[0] == '\n' then "" else [s[0]] + LineText(s[1..])
  }

  function BlockText(s: string): string
    requires SkipBlock(s).Some?
  {
    if s[0] == '*' && s[1] == '/' then ['*', '/'] else [s[0]] + BlockText(s[1..])
  }

  // The gaps of the source text, and what is written in their place.
  function Spans(p: char, g: Gap, s: string): (r: seq<string>)
    requires Lex(p, g, s).Ok?
    ensures |r| == |Lex(p, g, s).value| + 1
    decreases |s|
  {
    if s == "" then [""]
    else if s[0] == ' ' then Glue([' '], Spans(p, Widen(g), s[1..]))
    else if s[0] == '\n' then Glue(['\n'], Spans(p, LineGap, s[1..]))
    else if IsLineComment(s) then
      Glue(['/', '/'] + LineText(s[2..]), Spans(p, g, SkipLine(s[2..])))
    else if IsBlockComment(s) then
      Glue(['/', '*'] + BlockText(s[2..]), Spans(p, Widen(g), SkipBlock(s[2..]).value))
    else
      var (t, rest) := LexToken(Context(p, g), s).value;
      [""] + Spans(t.Last(), NoGap, rest)
  }

  function Glue(x: string, gaps: seq<string>): (r: seq<string>)
    requires gaps != []
    ensures |r| == |gaps|
  {
    [x + gaps[0]] + gaps[1..]
  }

  function Separators(p: char, items: seq<Item>): (r: seq<string>)
    ensures |r| == |items| + 1
    decreases |items|
  {
    if items == [] then [""]
    else [Separator(p, items[0].gap, items[0].tok)] + Separators(items[0].tok.Last(), items[1..])
  }

  // The kind of gap after passing text, if that consists of blanks and comments.
  function PassGap(g: Gap, text: string): Option<Gap>
    decreases |text|
  {
    if text == "" then Some(g)
    else if text[0] == ' ' then PassGap(Widen(g), text[1..])
    else if text[0] == '\n' then PassGap(LineGap, text[1..])
    else if IsLineComment(text) then PassGap(g, SkipLine(text[2..]))
    else if IsBlockComment(text) then
      match SkipBlock(text[2..]) case None => None case Some(rest) => PassGap(Widen(g), rest)
    else None
  }

  lemma {:induction false} LineTextAgain(s: string, tail: string)
    requires if SkipLine(s) == "" then tail == "" else tail != "" && tail[0] == '\n'
    ensures s == LineText(s) + SkipLine(s) && SkipLine(LineText(s) + tail) == tail
  {
    if s == "" || s[0] == '\n' {
      assert "" + tail == tail;
    } else {
      LineTextAgain(s[1..], tail);
      TailOf(s[0], LineText(s[1..]), tail);
    }
  }

  lemma TailOf(c: char, s: string, tail: string)
    ensures ([c] + s + tail)[1..] == s + tail && ([c] + s + tail)[0] == c
  {
  }

  lemma {:induction false} BlockTextAgain(s: string, tail: string)
    requires SkipBlock(s).Some?
    ensures s == BlockText(s) + SkipBlock(s).value && SkipBlock(BlockText(s) + tail) == Some(tail)
  {
    if s[0] == '*' && s[1] == '/' {
      assert (BlockText(s) + tail)[2..] == tail;
    } else {
      BlockTextAgain(s[1..], tail);
      BlockTextStarts(s[1..]);
      assert BlockText(s) == [s[0]] + BlockText(s[1..]);
      TailOf(s[0], BlockText(s[1..]), tail);
    }
  }

  lemma BlockTextStarts(s: string)
    requires SkipBlock(s).Some?
    ensures BlockText(s) != "" && BlockText(s)[0] == s[0]
  {
  }

  lemma WeaveGlue(x: string, gaps: seq<string>, toks: seq<Tok>)
    requires |gaps| == |toks| + 1
    ensures Weave(Glue(x, gaps), toks) == x + Weave(gaps, toks)
  {
    if toks != [] {
      var rest := Weave(gaps[1..], toks[1..]);
      assert x + gaps[0] + toks[0].Text() + rest == x + (gaps[0] + toks[0].Text() + rest);
    }
  }

  // gaps are the gaps before the tokens of items, and one more, when the first
  // continues a gap g.
  predicate GapsOf(g: Gap, gaps: seq<string>, items: seq<Item>) {
    && |gaps| == |items| + 1
    && PassGap(g, gaps[0]).Some? && PassGap(NoGap, gaps[|items|]).Some?
    && (items != [] ==> PassGap(g, gaps[0]) == Some(items[0].gap))
    && (forall i :: 0 < i < |items| ==> PassGap(NoGap, gaps[i]) == Some(items[i].gap))
    && (forall i :: 0 <= i < |items| && items[i].gap.NoGap? ==> gaps[i] == "")
    && (items != [] && items[0].gap.NoGap? ==> g.NoGap?)
  }

  lemma GapsOfGlue(g0: Gap, g: Gap, x: string, gaps: seq<string>, items: seq<Item>)
    requires GapsOf(g, gaps, items)
    requires PassGap(g0, x + gaps[0]) == PassGap(g, gaps[0]) && PassGap(NoGap, x + gaps[0]).Some?
    requires items != [] && items[0].gap.NoGap? ==> x == ""
    requires g.NoGap? ==> g0.NoGap?
    ensures GapsOf(g0, Glue(x, gaps), items)
  {
  }

  lemma {:induction false} PassGapFromAny(g1: Gap, g2: Gap, text: string)
    ensures PassGap(g1, text).Some? == PassGap(g2, text).Some?
    decreases |text|
  {
    if text == "" {
    } else if text[0] == ' ' {
      PassGapFromAny(Widen(g1), Widen(g2), text[1..]);
    } else if IsLineComment(text) {
      PassGapFromAny(g1, g2, SkipLine(text[2..]));
    } else if IsBlockComment(text) && SkipBlock(text[2..]).Some? {
      PassGapFromAny(Widen(g1), Widen(g2), SkipBlock(text[2..]).value);
    }
  }

  // A comment in front of any text that may follow it is read as that comment again.
  lemma LineCommentAgain(s: string, t: string)
    requires IsLineComment(s)
    requires if SkipLine(s[2..]) == "" then t == "" else t != "" && t[0] == '\n'
    ensures var x := ['/', '/'] + LineText(s[2..]);
            s == x + SkipLine(s[2..]) && IsLineComment(x + t) && SkipLine((x + t)[2..]) == t
  {
    LineTextAgain(s[2..], t);
    assert s == ['/', '/'] + s[2..];
    assert (['/', '/'] + LineText(s[2..]) + t)[2..] == LineText(s[2..]) + t;
  }

  lemma BlockCommentAgain(s: string, t: string)
    requires IsBlockComment(s) && SkipBlock(s[2..]).Some?
    ensures var x := ['/', '*'] + BlockText(s[2..]);
            s == x + SkipBlock(s[2..]).value && IsBlockComment(x + t) && SkipBlock((x + t)[2..]) == Some(t)
  {
    BlockTextAgain(s[2..], t);
    assert s == ['/', '*'] + s[2..];
    assert (['/', '*'] + BlockText(s[2..]) + t)[2..] == BlockText(s[2..]) + t;
  }

  lemma LexTokenSplits(a: char, s: string)
    requires s != "" && !IsBlank(s[0]) && !IsLineComment(s) && !IsBlockComment(s) && LexToken(a, s).Ok?
    ensures var (t, rest) := LexToken(a, s).value; s == t.Text() + rest
  {
    var (t, rest) := LexToken(a, s).value;
    if !t.Plain? {
      BodyIsWhole(s[0], s[1..]);
      assert s == [s[0]] + s[1..];
    }
  }

  ghost predicate Lossless(p: char, g: Gap, s: string)
    requires Lex(p, g, s).Ok?
  {
    var items, gaps := Lex(p, g, s).value, Spans(p, g, s);
    && s == Weave(gaps, Tokens(items))
    && GapsOf(g, gaps, items)
    && (s == "" ==> gaps[0] == "")
    && (s != "" && s[0] == '\n' ==> gaps[0] != "" && gaps[0][0] == '\n')
  }

  // Cutting the source into tokens and gaps loses nothing, and every gap consists of
  // blanks and comments of the kind that was noted.
  lemma {:induction false} LexLosesNothing(p: char, g: Gap, s: string)
    requires Lex(p, g, s).Ok?
    ensures Lossless(p, g, s)
    decreases |s|
  {
    if s == "" {
    } else if s[0] == ' ' {
      LexLosesNothing(p, Widen(g), s[1..]);
      BlankLossless(p, g, s);
    } else if s[0] == '\n' {
      LexLosesNothing(p, LineGap, s[1..]);
      BlankLossless(p, g, s);
    } else if IsLineComment(s) {
      LexLosesNothing(p, g, SkipLine(s[2..]));
      LineLossless(p, g, s);
    } else if IsBlockComment(s) {
      LexLosesNothing(p, Widen(g), SkipBlock(s[2..]).value);
      BlockLossless(p, g, s);
    } else {
      var (t, rest) := LexToken(Context(p, g), s).value;
      LexLosesNothing(t.Last(), NoGap, rest);
      TokenLossless(p, g, s);
    }
  }

  lemma BlankLossless(p: char, g: Gap, s: string)
    requires s != "" && IsBlank(s[0]) && Lex(p, g, s).Ok?
    requires Lossless(p, if s[0] == ' ' then Widen(g) else LineGap, s[1..])
    ensures Lossless(p, g, s)
  {
    var g1 := if s[0] == ' ' then Widen(g) else LineGap;
    var x := [s[0]];
    assert (x + Spans(p, g1, s[1..])[0])[1..] == Spans(p, g1, s[1..])[0];
    Glued(p, g, g1, s, x, s[1..]);
  }

  lemma LineLossless(p: char, g: Gap, s: string)
    requires IsLineComment(s) && Lex(p, g, s).Ok? && Lossless(p, g, SkipLine(s[2..]))
    ensures Lossless(p, g, s)
  {
    var rest := SkipLine(s[2..]);
    SkipLineStops(s[2..]);
    LineCommentAgain(s, Spans(p, g, rest)[0]);
    Glued(p, g, g, s, ['/', '/'] + LineText(s[2..]), rest);
  }

  lemma BlockLossless(p: char, g: Gap, s: string)
    requires IsBlockComment(s) && Lex(p, g, s).Ok? && Lossless(p, Widen(g), SkipBlock(s[2..]).value)
    ensures Lossless(p, g, s)
  {
    var rest := SkipBlock(s[2..]).value;
    BlockCommentAgain(s, Spans(p, Widen(g), rest)[0]);
    Glued(p, g, Widen(g), s, ['/', '*'] + BlockText(s[2..]), rest);
  }

  lemma TokenLossless(p: char, g: Gap, s: string)
    requires s != "" && !IsBlank(s[0]) && !IsLineComment(s) && !IsBlockComment(s) && Lex(p, g, s).Ok?
    requires var (t, rest) := LexToken(Context(p, g), s).value; Lossless(t.Last(), NoGap, rest)
    ensures Lossless(p, g, s)
  {
    var (t, rest) := LexToken(Context(p, g), s).value;
    LexTokenSplits(Context(p, g), s);
    var tail := Lex(t.Last(), NoGap, rest).value;
    ConsGaps(g, t, Spans(t.Last(), NoGap, rest), tail);
    ConsWeave(Item(g, t), Spans(t.Last(), NoGap, rest), tail);
  }

  lemma ConsGaps(g: Gap, t: Tok, gaps: seq<string>, items: seq<Item>)
    requires GapsOf(NoGap, gaps, items)
    ensures GapsOf(g, [""] + gaps, [Item(g, t)] + items)
  {
    var gaps1, items1 := [""] + gaps, [Item(g, t)] + items;
    assert gaps1[|items1|] == gaps[|items|];
    forall i | 0 < i < |items1|
      ensures PassGap(NoGap, gaps1[i]) == Some(items1[i].gap) && (items1[i].gap.NoGap? ==> gaps1[i] == "")
    {
      assert gaps1[i] == gaps[i - 1] && items1[i] == items[i - 1];
    }
  }

  lemma ConsWeave(item: Item, gaps: seq<string>, items: seq<Item>)
    requires |gaps| == |items| + 1
    ensures Weave([""] + gaps, Tokens([item] + items)) == item.tok.Text() + Weave(gaps, Tokens(items))
  {
    assert ([""] + gaps)[1..] == gaps && Tokens([item] + items)[1..] == Tokens(items);
    assert "" + item.tok.Text() == item.tok.Text();
  }

  lemma Glued(p: char, g0: Gap, g: Gap, s: string, x: string, rest: string)
    requires |rest| < |s| && s == x + rest && x != "" && Lex(p, g0, s).Ok?
    requires Lex(p, g, rest) == Lex(p, g0, s) && Lossless(p, g, rest)
    requires Spans(p, g0, s) == Glue(x, Spans(p, g, rest))
    requires PassGap(g0, x + Spans(p, g, rest)[0]) == PassGap(g, Spans(p, g, rest)[0])
    requires g != g0 ==> g.SpaceGap? || g.LineGap?
    requires g == g0 ==> g.LineGap? || g.SpaceGap? || rest == "" || rest[0] == '\n'
    ensures Lossless(p, g0, s)
  {
    var items, gaps := Lex(p, g, rest).value, Spans(p, g, rest);
    WeaveGlue(x, gaps, Tokens(items));
    PassGapFromAny(NoGap, g0, x + gaps[0]);
    GapsOfGlue(g0, g, x, gaps, items);
  }

  lemma {:induction false} RenderIsWeave(p: char, items: seq<Item>)
    ensures Render(p, items) == Weave(Separators(p, items), Tokens(items))
    decreases |items|
  {
    if items != [] {
      RenderIsWeave(items[0].tok.Last(), items[1..]);
      assert Tokens(items)[1..] == Tokens(items[1..]);
      assert Separators(p, items)[1..] == Separators(items[0].tok.Last(), items[1..]);
    }
  }

  lemma {:induction false} SeparatorsAt(p: char, items: seq<Item>, i: nat)
    requires i <= |items|
    ensures Separators(p, items)[i] ==
            if i == |items| then ""
            else Separator(if i == 0 then p else items[i - 1].tok.Last(), items[i].gap, items[i].tok)
    decreases |items|
  {
    if items != [] && i > 0 {
      SeparatorsAt(items[0].tok.Last(), items[1..], i - 1);
    }
  }

  // ----- The characters that matter ---------------------------------------------------

  // The digits, letters and signs of names and numbers, by their ASCII codes, and every
  // character above code 126.
  predicate IsWordChar(c: char) {
    var n := c as int;
    48 <= n <= 57 || 65 <= n <= 90 || 97 <= n <= 122 || n == 95 || n == 36 || n == 92 || n > 126
  }

  predicate IsOpener(c: char) {
    c == '{' || c == '[' || c == '(' || c == '+' || c == '-'
  }

  predicate IsCloser(c: char) {
    c == '}' || c == ']' || c == ')' || c == '+' || c == '-'
  }

  // A line feed stays behind a token that ends in c, and in front of the token t.
  predicate LineStaysBehind(c: char) {
    IsWordChar(c) || IsCloser(c) || c == '\'' || c == '\"'
  }

  predicate LineStaysBefore(t: Tok) {
    IsWordChar(t.First()) || IsOpener(t.First()) || t.Regex?
  }

  lemma WordCharIs(c: char)
    ensures IsWordChar(c) <==> IsAlphanum(c)
    ensures LineStaysBehind(c) <==> KeepsLine(c)
  {
  }

  lemma LineStaysIs(t: Tok)
    ensures LineStaysBefore(t) <==> KeepsLineBefore(t)
  {
    WordCharIs(t.First());
  }

  // What is left of the gap text between two tokens.
  ghost predicate Shrinks(gap: string, before: Tok, after: Tok, sep: string) {
    && (sep == "" || sep == " " || sep == "\n")
    && (sep == " " <==> PassGap(NoGap, gap) == Some(SpaceGap) && IsWordChar(before.Last()) && IsWordChar(after.First()))
    && (sep == "\n" <==>
        PassGap(NoGap, gap) == Some(LineGap) && LineStaysBehind(before.Last()) && LineStaysBefore(after))
  }

  // seps are what is left of the gaps between the tokens of items.
  ghost predicate AllShrink(gaps: seq<string>, items: seq<Item>, seps: seq<string>) {
    && |gaps| == |seps| == |items| + 1
    && (forall i :: 0 < i < |items| ==> Shrinks(gaps[i], items[i - 1].tok, items[i].tok, seps[i]))
    && (items != [] ==> seps[0] == if LineStaysBefore(items[0].tok) then "\n" else "")
    && seps[|items|] == ""
  }

  lemma SeparatorsShrink(gaps: seq<string>, items: seq<Item>)
    requires GapsOf(LineGap, gaps, items)
    ensures AllShrink(gaps, items, Separators('\n', items))
  {
    SeparatorsAt('\n', items, 0);
    SeparatorsAt('\n', items, |items|);
    if items != [] {
      LineStaysIs(items[0].tok);
    }
    forall i | 0 < i < |items|
      ensures Shrinks(gaps[i], items[i - 1].tok, items[i].tok, Separators('\n', items)[i])
    {
      SeparatorsAt('\n', items, i);
      WordCharIs(items[i - 1].tok.Last());
      WordCharIs(items[i].tok.First());
      LineStaysIs(items[i].tok);
    }
  }

  // The tokens of a source with their gaps, the text of the gaps, and what is written in
  // their place.
  function ItemsOf(source: string): seq<Item>
    requires Minify(source).Ok?
  {
    Lex('\n', LineGap, Normalize(source)).value
  }

  function GapsIn(source: string): seq<string>
    requires Minify(source).Ok?
  {
    Spans('\n', LineGap, Normalize(source))
  }

  function SeparatorsFor(source: string): seq<string>
    requires Minify(source).Ok?
  {
    Separators('\n', ItemsOf(source))
  }

  // The output consists of the tokens of the source, whole and in order; only the
  // gaps between them shrink.
  lemma MinifyKeepsTokens(source: string)
    requires Minify(source).Ok?
    ensures var items, gaps, seps := ItemsOf(source), GapsIn(source), SeparatorsFor(source);
      && Normalize(source) == Weave(gaps, Tokens(items))
      && Minify(source).value == Weave(seps, Tokens(items))
      && GapsOf(LineGap, gaps, items)
      && AllShrink(gaps, items, seps)
  {
    LexLosesNothing('\n', LineGap, Normalize(source));
    RenderIsWeave('\n', ItemsOf(source));
    SeparatorsShrink(GapsIn(source), ItemsOf(source));
  }

  lemma GapBetweenWords(gaps: seq<string>, items: seq<Item>, seps: seq<string>, i: int)
    requires GapsOf(LineGap, gaps, items) && AllShrink(gaps, items, seps) && 0 < i < |items|
    requires IsWordChar(items[i - 1].tok.Last()) && IsWordChar(items[i].tok.First())
    ensures seps[i] == if gaps[i] == "" then "" else if PassGap(NoGap, gaps[i]) == Some(LineGap) then "\n" else " "
  {
    assert Shrinks(gaps[i], items[i - 1].tok, items[i].tok, seps[i]);
    assert PassGap(NoGap, gaps[i]) == Some(items[i].gap);
  }

  // Two words that the source keeps apart stay apart, by exactly one blank: a line
  // feed if there was one outside block comments.  Two words never merge.
  lemma WordsStayApart(source: string, i: int)
    requires Minify(source).Ok? && 0 < i < |ItemsOf(source)|
    requires IsWordChar(ItemsOf(source)[i - 1].tok.Last()) && IsWordChar(ItemsOf(source)[i].tok.First())
    ensures |GapsIn(source)| == |SeparatorsFor(source)| == |ItemsOf(source)| + 1
    ensures var gap := GapsIn(source)[i];
            SeparatorsFor(source)[i] ==
              if gap == "" then "" else if PassGap(NoGap, gap) == Some(LineGap) then "\n" else " "
  {
    MinifyKeepsTokens(source);
    GapBetweenWords(GapsIn(source), ItemsOf(source), SeparatorsFor(source), i);
  }

  // ----- Blanks in the output --------------------------------------------------

  // Which characters of the output belong to tokens.
  function Marks(p: char, items: seq<Item>): seq<bool>
    decreases |items|
  {
    if items == [] then []
    else
      var t := items[0].tok;
      Repeat(false, |Separator(p, items[0].gap, t)|) + Repeat(true, |t.Text()|) + Marks(t.Last(), items[1..])
  }

  function Repeat(b: bool, n: nat): (r: seq<bool>)
    ensures |r| == n && forall i :: 0 <= i < n ==> r[i] == b
  {
    seq(n, _ => b)
  }

  // Every character outside tokens is a single blank in front of a token; before it
  // comes a token or nothing.
  ghost predicate Tight(out: string, marks: seq<bool>) {
    && |out| == |marks|
    && (forall k :: 0 <= k < |out| && !marks[k] ==>
          && IsBlank(out[k]) && k + 1 < |out| && marks[k + 1] && !IsBlank(out[k + 1])
          && (k > 0 ==> marks[k - 1] && !IsBlank(out[k - 1])))
  }

  lemma {:induction false} RenderIsTight(p: char, items: seq<Item>)
    ensures Tight(Render(p, items), Marks(p, items))
    ensures items != [] ==> !IsBlank(Render(p, items)[|Render(p, items)| - 1])
    decreases |items|
  {
    if items != [] {
      var t := items[0].tok;
      RenderIsTight(t.Last(), items[1..]);
      TokenEnds(t);
      var sep, out, marks := Separator(p, items[0].gap, t), Render(t.Last(), items[1..]), Marks(t.Last(), items[1..]);
      SeparatedTight(sep, t.Text(), out, marks);
      assert Render(p, items) == sep + t.Text() + out;
    }
  }

  // Outside its tokens the output never has two blanks in a row, and it never ends in a
  // blank.
  lemma OutputIsTight(source: string)
    requires Minify(source).Ok?
    ensures var out := Minify(source).value;
            Tight(out, Marks('\n', ItemsOf(source))) && (out != "" ==> !IsBlank(out[|out| - 1]))
  {
    RenderIsTight('\n', ItemsOf(source));
  }

  lemma SeparatedTight(sep: string, text: string, out: string, marks: seq<bool>)
    requires sep == "" || sep == " " || sep == "\n"
    requires text != "" && !IsBlank(text[0]) && !IsBlank(text[|text| - 1]) && Tight(out, marks)
    ensures Tight(sep + text + out, Repeat(false, |sep|) + Repeat(true, |text|) + marks)
  {
    TextTight(text, out, marks);
    if sep == "" {
      assert sep + text + out == text + out;
      assert Repeat(false, |sep|) + Repeat(true, |text|) + marks == Repeat(true, |text|) + marks;
    } else {
      BlankTight(sep[0], text + out, Repeat(true, |text|) + marks);
      assert sep + text + out == [sep[0]] + (text + out);
      assert Repeat(false, |sep|) + Repeat(true, |text|) + marks == [false] + (Repeat(true, |text|) + marks);
    }
  }

  lemma TokenEnds(t: Tok)
    ensures t.Text()[0] == t.First() && t.Text()[|t.Text()| - 1] == t.Last()
    ensures !IsBlank(t.First()) && !IsBlank(t.Last())
  {
  }

  lemma TextTight(text: string, out: string, marks: seq<bool>)
    requires text != "" && !IsBlank(text[|text| - 1]) && Tight(out, marks)
    ensures Tight(text + out, Repeat(true, |text|) + marks)
  {
    var o, m, n := text + out, Repeat(true, |text|) + marks, |text|;
    forall k | 0 <= k < |o| && !m[k]
      ensures IsBlank(o[k]) && k + 1 < |o| && m[k + 1] && !IsBlank(o[k + 1]) && m[k - 1] && !IsBlank(o[k - 1])
    {
      var j := k - n;
      assert m[k] == marks[j] && o[k] == out[j];
      assert m[k + 1] == marks[j + 1] && o[k + 1] == out[j + 1];
      if j == 0 {
        assert o[k - 1] == text[n - 1];
      } else {
        assert m[k - 1] == marks[j - 1] && o[k - 1] == out[j - 1];
      }
    }
  }

  lemma BlankTight(c: char, out: string, marks: seq<bool>)
    requires IsBlank(c) && out != "" && Tight(out, marks) && marks[0] && !IsBlank(out[0])
    ensures Tight([c] + out, [false] + marks)
  {
    var o, m := [c] + out, [false] + marks;
    forall k | 1 <= k < |o| && !m[k]
      ensures IsBlank(o[k]) && k + 1 < |o| && m[k + 1] && !IsBlank(o[k + 1]) && m[k - 1] && !IsBlank(o[k - 1])
    {
      assert !marks[k - 1];
    }
  }
}
