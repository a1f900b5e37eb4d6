// Two reports that count plays by different algorithms over the rows of the
// reconciliation log (lib/export_soundex.cpp and lib/export_spincount.cpp).
module PlayCounts {

  // A row: its cart number, and the artist, title and so on that go with it.
  datatype Row = Row(cart: nat, details: string)

  datatype Line = Line(cart: nat, details: string, plays: nat)

  function Last(rows: seq<Row>): Row
    requires rows != []
  {
    rows[|rows| - 1]
  }

  function Front(rows: seq<Row>): seq<Row>
    requires rows != []
  {
    rows[..|rows| - 1]
  }

  // The number of rows of a cart, the details of the first of them, and the number of
  // rows of any cart but 0.
  function Plays(rows: seq<Row>, cart: nat): nat {
    if rows == [] then 0 else Plays(Front(rows), cart) + if Last(rows).cart == cart then 1 else 0
  }

  function FirstDetails(rows: seq<Row>, cart: nat): string {
    if rows == [] then ""
    else if Plays(Front(rows), cart) > 0 then FirstDetails(Front(rows), cart)
    else if Last(rows).cart == cart then Last(rows).details
    else ""
  }

  function Listed(rows: seq<Row>): nat {
    if rows == [] then 0 else Listed(Front(rows)) + if Last(rows).cart != 0 then 1 else 0
  }

  function LineOf(rows: seq<Row>, cart: nat): Line {
    Line(cart, FirstDetails(rows, cart), Plays(rows, cart))
  }

  function Total(lines: seq<Line>): nat {
    if lines == [] then 0 else Total(lines[..|lines| - 1]) + lines[|lines| - 1].plays
  }

  function CartsOf(lines: seq<Line>): set<nat> {
    set i | 0 <= i < |lines| :: lines[i].cart
  }

  predicate Ordered(rows: seq<Row>) {
    forall i, j :: 0 <= i < j < |rows| ==> rows[i].cart <= rows[j].cart
  }

  // The lines, in order, are those of the carts from 1 up to a bound that have plays.
  ghost predicate Reports(rows: seq<Row>, lines: seq<Line>, bound: nat) {
    && (forall i, j :: 0 <= i < j < |lines| ==> lines[i].cart < lines[j].cart)
    && (forall i :: 0 <= i < |lines| ==> lines[i] == LineOf(rows, lines[i].cart))
    && (forall c: nat :: c in CartsOf(lines) <==> 0 < c < bound && Plays(rows, c) > 0)
  }

  ghost predicate RolledUp(rows: seq<Row>, lines: seq<Line>) {
    && (forall i, j :: 0 <= i < j < |lines| ==> lines[i].cart < lines[j].cart)
    && (forall i :: 0 <= i < |lines| ==> lines[i] == LineOf(rows, lines[i].cart))
    && (forall c: nat :: c in CartsOf(lines) <==> c != 0 && Plays(rows, c) > 0)
    && Total(lines) == Listed(rows)
  }

  ghost predicate Spun(rows: seq<Row>, carts: map<nat, nat>) {
    forall c: nat :: if Plays(rows, c) > 0 then c in carts && carts[c] == Plays(rows, c) else c !in carts
  }

  lemma AnotherRow(rows: seq<Row>, i: nat, cart: nat)
    requires i < |rows|
    ensures Plays(rows[..i + 1], cart) == Plays(rows[..i], cart) + if rows[i].cart == cart then 1 else 0
    ensures rows[i].cart != cart || Plays(rows[..i], cart) > 0 ==>
        FirstDetails(rows[..i + 1], cart) == FirstDetails(rows[..i], cart)
    ensures rows[i].cart == cart && Plays(rows[..i], cart) == 0 ==> FirstDetails(rows[..i + 1], cart) == rows[i].details
    ensures Listed(rows[..i + 1]) == Listed(rows[..i]) + if rows[i].cart != 0 then 1 else 0
  {
    assert Front(rows[..i + 1]) == rows[..i];
    NoDetails(rows[..i], cart);
  }

  lemma {:induction false} NoDetails(rows: seq<Row>, cart: nat)
    ensures Plays(rows, cart) == 0 ==> FirstDetails(rows, cart) == ""
  {
    if rows != [] {
      NoDetails(Front(rows), cart);
    }
  }

  lemma {:induction false} NoPlays(rows: seq<Row>, cart: nat)
    requires forall i :: 0 <= i < |rows| ==> rows[i].cart != cart
    ensures Plays(rows, cart) == 0
  {
    if rows != [] {
      NoPlays(Front(rows), cart);
    }
  }

  // The rows of a cart by their numbers.
  function RowsOf(rows: seq<Row>, cart: nat): set<nat> {
    set i: nat | i < |rows| && rows[i].cart == cart
  }

  // The plays of a cart are its rows.
  lemma {:induction false} PlaysAreRows(rows: seq<Row>, cart: nat)
    ensures Plays(rows, cart) == |RowsOf(rows, cart)|
  {
    if rows != [] {
      var before, n := RowsOf(Front(rows), cart), |rows| - 1;
      PlaysAreRows(Front(rows), cart);
      assert RowsOf(rows, cart) == if rows[n].cart == cart then before + {n} else before;
    }
  }

  // Its details are those of the first of them.
  lemma {:induction false} DetailsAreFirst(rows: seq<Row>, cart: nat, i: nat)
    requires i < |rows| && rows[i].cart == cart && forall m :: 0 <= m < i ==> rows[m].cart != cart
    ensures FirstDetails(rows, cart) == rows[i].details
  {
    if i == |rows| - 1 {
      NoPlays(Front(rows), cart);
    } else {
      DetailsAreFirst(Front(rows), cart, i);
      PlaysAreRows(Front(rows), cart);
      assert i in RowsOf(Front(rows), cart);
    }
  }

  // One more row, of a cart that is not below the bound.
  lemma ReportsMore(rows: seq<Row>, i: nat, lines: seq<Line>, bound: nat)
    requires i < |rows| && Reports(rows[..i], lines, bound) && rows[i].cart >= bound
    ensures Reports(rows[..i + 1], lines, bound)
  {
    forall c: nat | c < bound ensures Plays(rows[..i + 1], c) == Plays(rows[..i], c) {
      AnotherRow(rows, i, c);
    }
    forall m | 0 <= m < |lines| ensures lines[m] == LineOf(rows[..i + 1], lines[m].cart) {
      assert lines[m].cart in CartsOf(lines);
      AnotherRow(rows, i, lines[m].cart);
    }
  }

  // The run of the largest cart ends and its line is added.
  lemma ReportsLine(rows: seq<Row>, lines: seq<Line>, cart: nat, bound: nat)
    requires Reports(rows, lines, cart) && 0 < cart < bound && Plays(rows, cart) > 0
    requires forall k :: 0 <= k < |rows| ==> rows[k].cart <= cart
    ensures Reports(rows, lines + [LineOf(rows, cart)], bound)
    ensures Total(lines + [LineOf(rows, cart)]) == Total(lines) + Plays(rows, cart)
  {
    var all := lines + [LineOf(rows, cart)];
    assert all[..|lines|] == lines;
    MoreCarts(lines, LineOf(rows, cart));
    forall i | 0 <= i < |lines| ensures lines[i].cart < cart {
      assert lines[i].cart in CartsOf(lines);
    }
    forall c: nat | c > cart ensures Plays(rows, c) == 0 {
      NoPlays(rows, c);
    }
  }

  lemma MoreCarts(lines: seq<Line>, line: Line)
    ensures CartsOf(lines + [line]) == CartsOf(lines) + {line.cart}
  {
    var all := lines + [line];
    assert all[|lines|] == line;
    forall c | c in CartsOf(lines) ensures c in CartsOf(all) {
      var i :| 0 <= i < |lines| && lines[i].cart == c;
      assert all[i] == lines[i];
    }
  }

  // Without rows in between, the report is also one up to a wider bound.
  lemma ReportsUpTo(rows: seq<Row>, lines: seq<Line>, bound: nat, wider: nat)
    requires Reports(rows, lines, bound) && bound <= wider
    requires forall k :: 0 <= k < |rows| ==> rows[k].cart < bound || rows[k].cart == 0
    ensures Reports(rows, lines, wider)
  {
    forall c: nat | c >= bound && c > 0 ensures Plays(rows, c) == 0 {
      NoPlays(rows, c);
    }
  }

  // What the loop knows after i rows: the lines of the runs that have ended, and the
  // cart, details and plays of the run that goes on.
  ghost predicate Running(rows: seq<Row>, i: nat, lines: seq<Line>, run: Line)
    requires i <= |rows|
  {
    && Reports(rows[..i], lines, run.cart)
    && (forall k :: 0 <= k < i ==> rows[k].cart <= run.cart)
    && (if i == 0 then run.cart == 0 else run.cart == rows[i - 1].cart)
    && (run.cart > 0 ==> run == LineOf(rows[..i], run.cart) && run.plays > 0)
    && Total(lines) + (if run.cart > 0 then run.plays else 0) == Listed(rows[..i])
  }

  lemma SameRun(rows: seq<Row>, i: nat, lines: seq<Line>, run: Line)
    requires i < |rows| && Running(rows, i, lines, run) && rows[i].cart == run.cart
    ensures Running(rows, i + 1, lines, run.(plays := run.plays + 1))
  {
    AnotherRow(rows, i, run.cart);
    ReportsMore(rows, i, lines, run.cart);
  }

  lemma NewRun(rows: seq<Row>, i: nat, lines: seq<Line>, run: Line)
    requires i < |rows| && Ordered(rows) && Running(rows, i, lines, run) && rows[i].cart != run.cart
    ensures Running(rows, i + 1, if run.cart != 0 then lines + [run] else lines, Line(rows[i].cart, rows[i].details, 1))
  {
    var cart := rows[i].cart;
    assert i > 0 ==> rows[i - 1].cart <= cart;
    var all := if run.cart != 0 then lines + [run] else lines;
    if run.cart != 0 {
      ReportsLine(rows[..i], lines, run.cart, cart);
    } else {
      ReportsUpTo(rows[..i], lines, 0, cart);
    }
    ReportsMore(rows, i, all, cart);
    NoPlays(rows[..i], cart);
    AnotherRow(rows, i, cart);
  }

  lemma LastRun(rows: seq<Row>, lines: seq<Line>, run: Line)
    requires Running(rows, |rows|, lines, run)
    ensures RolledUp(rows, if run.cart != 0 then lines + [run] else lines)
  {
    assert rows[..|rows|] == rows;
    if run.cart != 0 {
      ReportsLine(rows, lines, run.cart, run.cart + 1);
      ReportsAll(rows, lines + [run], run.cart + 1);
    } else {
      ReportsAll(rows, lines, run.cart);
    }
  }

  lemma ReportsAll(rows: seq<Row>, lines: seq<Line>, bound: nat)
    requires Reports(rows, lines, bound) && Total(lines) == Listed(rows)
    requires forall k :: 0 <= k < |rows| ==> rows[k].cart < bound || rows[k].cart == 0
    ensures RolledUp(rows, lines)
  {
    forall c: nat | c >= bound && c > 0 ensures Plays(rows, c) == 0 {
      NoPlays(rows, c);
    }
  }

  // ExportSoundEx: rows ordered by cart number, grouped into runs.
  method RollUp(rows: seq<Row>) returns (lines: seq<Line>)
    requires Ordered(rows)
    ensures RolledUp(rows, lines)
  {
    lines := [];
    var cartnum, details, plays := 0, "", 0;
    for i := 0 to |rows|
      invariant Running(rows, i, lines, Line(cartnum, details, plays))
    {
      if rows[i].cart == cartnum {
        SameRun(rows, i, lines, Line(cartnum, details, plays));
        plays := plays + 1;
      } else {
        NewRun(rows, i, lines, Line(cartnum, details, plays));
        if cartnum != 0 {
          lines := lines + [Line(cartnum, details, plays)];
        }
        plays := 1;
        details := rows[i].details;
      }
      cartnum := rows[i].cart;
    }
    LastRun(rows, lines, Line(cartnum, details, plays));
    if cartnum != 0 {
      lines := lines + [Line(cartnum, details, plays)];
    }
  }

  // ExportSpinCount: rows in any order, counted in a map.
  method SpinCount(rows: seq<Row>) returns (carts: map<nat, nat>)
    ensures Spun(rows, carts)
  {
    carts := map[];
    for i := 0 to |rows|
      invariant Spun(rows[..i], carts)
    {
      var cart := rows[i].cart;
      forall c: nat ensures Plays(rows[..i + 1], c) == Plays(rows[..i], c) + if cart == c then 1 else 0 {
        AnotherRow(rows, i, c);
      }
      carts := carts[cart := (if cart in carts then carts[cart] else 0) + 1];
    }
    assert rows[..|rows|] == rows;
  }

  // ----- The two counts agree ----------------------------------------------------------

  lemma {:induction false} PlaysOfConcat(a: seq<Row>, b: seq<Row>, cart: nat)
    ensures Plays(a + b, cart) == Plays(a, cart) + Plays(b, cart)
  {
    if b == [] {
      assert a + b == a;
    } else {
      assert Front(a + b) == a + Front(b) && Last(a + b) == Last(b);
      PlaysOfConcat(a, Front(b), cart);
    }
  }

  function Without(rows: seq<Row>, j: nat): seq<Row>
    requires j < |rows|
  {
    rows[..j] + rows[j + 1..]
  }

  lemma WithoutBag(rows: seq<Row>, j: nat)
    requires j < |rows|
    ensures multiset(Without(rows, j)) == multiset(rows) - multiset{rows[j]}
  {
    assert rows == rows[..j] + ([rows[j]] + rows[j + 1..]);
  }

  lemma WithoutPlays(rows: seq<Row>, j: nat, cart: nat)
    requires j < |rows|
    ensures Plays(rows, cart) == Plays(Without(rows, j), cart) + if rows[j].cart == cart then 1 else 0
  {
    var tail := [rows[j]] + rows[j + 1..];
    assert rows == rows[..j] + tail;
    PlaysOfConcat(rows[..j], tail, cart);
    PlaysOfConcat([rows[j]], rows[j + 1..], cart);
    PlaysOfConcat(rows[..j], rows[j + 1..], cart);
    assert Front([rows[j]]) == [];
  }

  lemma Find(rows: seq<Row>, x: Row) returns (j: nat)
    requires x in multiset(rows)
    ensures j < |rows| && rows[j] == x
  {
    j :| 0 <= j < |rows| && rows[j] == x;
  }

  lemma FrontBag(rows: seq<Row>)
    requires rows != []
    ensures Last(rows) in multiset(rows) && multiset(Front(rows)) == multiset(rows) - multiset{Last(rows)}
  {
    assert rows == Front(rows) + [Last(rows)];
  }

  lemma LastElsewhere(rows: seq<Row>, others: seq<Row>) returns (j: nat)
    requires rows != [] && multiset(rows) == multiset(others)
    ensures j < |others| && others[j] == Last(rows) && multiset(Without(others, j)) == multiset(Front(rows))
  {
    FrontBag(rows);
    j := Find(others, Last(rows));
    WithoutBag(others, j);
  }

  // Counting does not depend on the order of the rows.
  lemma {:induction false} PlaysOfPermutation(rows: seq<Row>, others: seq<Row>, cart: nat)
    requires multiset(rows) == multiset(others)
    ensures Plays(rows, cart) == Plays(others, cart)
    decreases |rows|
  {
    if rows == [] {
      assert |multiset(others)| == 0;
    } else {
      var j := LastElsewhere(rows, others);
      PlaysOfPermutation(Front(rows), Without(others, j), cart);
      WithoutPlays(others, j, cart);
    }
  }

  // On the same rows in any order, the grouping report lists each cart but 0 once, with
  // the count that the map gives, and no others; its counts add up to the rows listed.
  lemma CountsAgree(rows: seq<Row>, lines: seq<Line>, others: seq<Row>, carts: map<nat, nat>)
    requires RolledUp(rows, lines) && Spun(others, carts) && multiset(rows) == multiset(others)
    ensures forall i, j :: 0 <= i < j < |lines| ==> lines[i].cart != lines[j].cart
    ensures forall i :: 0 <= i < |lines| ==> lines[i].cart in carts && carts[lines[i].cart] == lines[i].plays
    ensures CartsOf(lines) == carts.Keys - {0}
    ensures Total(lines) == Listed(others)
  {
    forall c: nat ensures Plays(rows, c) == Plays(others, c) {
      PlaysOfPermutation(rows, others, c);
    }
    forall i | 0 <= i < |lines| ensures lines[i].cart in carts && carts[lines[i].cart] == lines[i].plays {
      assert lines[i].cart in CartsOf(lines);
    }
    ListedByPlays(rows);
    ListedByPlays(others);
    assert |rows| == |multiset(rows)| == |multiset(others)| == |others|;
  }

  lemma {:induction false} ListedByPlays(rows: seq<Row>)
    ensures Listed(rows) + Plays(rows, 0) == |rows|
  {
    if rows != [] {
      ListedByPlays(Front(rows));
    }
  }
}
