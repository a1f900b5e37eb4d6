// The command stream does not depend on how the bytes are split into packets
// (readyReadData in cae/cae_server.cpp).
module CaeFraming {
  import opened PlaySessions
  import opened CaeModel
  import opened CaeRuns

  // ----- Packet boundaries -------------------------------------------------------------

  lemma {:induction false} FeedSplits(c: Config, st: State, id: Int32, a: string, b: string, disk: Disk)
    ensures Feed(c, st, id, a + b, disk) == Feed(c, Feed(c, st, id, a, disk), id, b, disk)
    decreases |a|
  {
    if a == "" {
      assert a + b == b;
    } else if Reading(st, id) {
      assert (a + b)[1..] == a[1..] + b;
      ClosingStops(c, st, id, a[0], disk);
      FeedSplits(c, TakeByte(c, st, id, a[0], disk).0, id, a[1..], b, disk);
    }
  }

  // The data of one connection, in any packets, is dispatched like the joined data.
  function Joined(packets: seq<string>): string {
    if packets == [] then "" else packets[0] + Joined(packets[1..])
  }

  ghost function FeedAll(c: Config, st: State, id: Int32, packets: seq<string>, disk: Disk): State
    decreases |packets|
  {
    if packets == [] then st else FeedAll(c, Feed(c, st, id, packets[0], disk), id, packets[1..], disk)
  }

  lemma {:induction false} PacketsDoNotMatter(c: Config, st: State, id: Int32, packets: seq<string>, disk: Disk)
    ensures FeedAll(c, st, id, packets, disk) == Feed(c, st, id, Joined(packets), disk)
    decreases |packets|
  {
    if packets != [] {
      FeedSplits(c, st, id, packets[0], Joined(packets[1..]), disk);
      PacketsDoNotMatter(c, Feed(c, st, id, packets[0], disk), id, packets[1..], disk);
    }
  }

  // ----- What is dispatched ------------------------------------------------------------------

  predicate LineBreak(ch: char) {
    ch == '\n' || ch == '\r'
  }

  function Strip(data: string): string {
    if data == "" then ""
    else (if LineBreak(data[0]) then "" else [data[0]]) + Strip(data[1..])
  }

  // The pieces of the text that end with '!', when the first starts with piece.
  function Pieces(piece: string, text: string): seq<string>
    decreases |text|
  {
    if text == "" then []
    else if text[0] == '!' then [piece] + Pieces("", text[1..])
    else Pieces(piece + [text[0]], text[1..])
  }

  // The token lists of the pieces that are not blank.
  function Commands(pieces: seq<string>): seq<seq<string>> {
    if pieces == [] then []
    else (if Tokens(pieces[0]) == [] then [] else [Tokens(pieces[0])]) + Commands(pieces[1..])
  }

  predicate Blank(s: string) {
    forall i :: 0 <= i < |s| ==> s[i] == ' '
  }

  lemma {:induction false} BlankHasNoTokens(b: string, s: string)
    requires Blank(b)
    ensures Tokens(b + s) == Tokens(s)
    decreases |b|
  {
    if b == "" {
      assert b + s == s;
    } else {
      assert (b + s)[1..] == b[1..] + s;
      BlankHasNoTokens(b[1..], s);
    }
  }

  lemma {:induction false} OnlyBlankHasNoTokens(s: string, token: string)
    requires TokensFrom(s, token) == []
    ensures Blank(s) && token == ""
    decreases |s|
  {
    if s != "" {
      OnlyBlankHasNoTokens(s[1..], if s[0] == ' ' then "" else token + [s[0]]);
    }
  }

  // The right password, and what closes a connection that is authenticated or not: DC, a
  // wrong password, and anything else before the right one.
  predicate Admits(c: Config, t: seq<string>) {
    |t| == 2 && t[0] == "PW" && t[1] == c.password
  }

  predicate Closes(c: Config, authenticated: bool, t: seq<string>) {
    t != [] && (t[0] == "DC" || (t[0] == "PW" && !Admits(c, t)) || (t[0] != "PW" && !authenticated))
  }

  // The number of commands before the first that closes the connection.
  function Closing(c: Config, authenticated: bool, commands: seq<seq<string>>): (n: nat)
    ensures n <= |commands|
    decreases |commands|
  {
    if commands == [] || Closes(c, authenticated, commands[0]) then 0
    else 1 + Closing(c, authenticated || Admits(c, commands[0]), commands[1..])
  }

  // The commands dispatched between st and next are the first ones, up to and including
  // the one that closes the connection, or up to the one at which the daemon faults.
  predicate Dispatched(c: Config, st: State, next: State, id: Int32, commands: seq<seq<string>>)
    requires id in st.connections
  {
    var n, closing := |next.log| - |st.log|, Closing(c, st.connections[id].authenticated, commands);
    && 0 <= n <= |commands|
    && (forall i :: 0 <= i < |st.log| ==> next.log[i] == st.log[i])
    && (forall i :: |st.log| <= i < |next.log| ==> next.log[i] == (id, commands[i - |st.log|]))
    && (if next.fault then 0 < n <= closing else n == if closing < |commands| then closing + 1 else closing)
    && (Reading(next, id) <==> !next.fault && closing == |commands|)
  }

  lemma DispatchLogs(c: Config, st: State, id: Int32, t: seq<string>, disk: Disk)
    requires Reading(st, id) && t != []
    ensures var (next, closing) := Dispatch(c, st, id, t, disk);
      && next.log == st.log + [(id, t)] && closing == Closes(c, st.connections[id].authenticated, t)
      && (closing ==> !next.fault && !Reading(next, id))
      && (!closing ==> id in next.connections)
      && (!closing ==>
          next.connections[id] == Connection(st.connections[id].authenticated || Admits(c, t), true, ""))
  {
    PerformLogs(c, Received(st, id, t), id, t, disk);
  }

  lemma PerformLogs(c: Config, st: State, id: Int32, t: seq<string>, disk: Disk)
    requires Reading(st, id) && t != []
    ensures var (next, closing), conn := Perform(c, st, id, t, disk), st.connections[id];
      && next.log == st.log && closing == Closes(c, conn.authenticated, t)
      && (closing ==> !next.fault && !Reading(next, id))
      && (!closing ==> id in next.connections)
      && (!closing ==>
          next.connections[id] == conn.(authenticated := conn.authenticated || Admits(c, t)))
  {
    if t[0] == "PW" {
      PasswordLogs(c, st, id, t);
    } else {
      OtherLogs(c, st, id, t, disk);
    }
  }

  lemma OtherLogs(c: Config, st: State, id: Int32, t: seq<string>, disk: Disk)
    requires Reading(st, id) && t != [] && t[0] != "PW"
    ensures var (next, closing) := Perform(c, st, id, t, disk);
      && next.log == st.log && closing == (t[0] == "DC" || !st.connections[id].authenticated)
      && (closing ==> !next.fault && !Reading(next, id))
      && (!closing ==> next.connections == st.connections)
  {
  }

  lemma PasswordLogs(c: Config, st: State, id: Int32, t: seq<string>)
    requires Reading(st, id) && t != [] && t[0] == "PW"
    ensures var (next, closing) := AfterPassword(c, st, id, t);
      && next.log == st.log && closing == !Admits(c, t) && !next.fault
      && (closing ==> id !in next.connections)
      && (!closing ==> next.connections == st.connections[id := st.connections[id].(authenticated := true)])
  {
  }

  // Any other byte is left out or accumulated.
  lemma FeedOne(c: Config, st: State, id: Int32, data: string, disk: Disk)
    requires Reading(st, id) && data != "" && data[0] != '!'
    ensures Feed(c, st, id, data, disk) ==
            Feed(c, if LineBreak(data[0]) then st else Accumulate(st, id, st.connections[id].accum + [data[0]]), id,
                 data[1..], disk)
  {
  }

  // The accumulated text is the current piece after blanks from skipped commands.
  lemma {:induction false} FeedDispatches(c: Config, st: State, id: Int32, b: string, piece: string, data: string,
      disk: Disk)
    requires Reading(st, id) && st.connections[id].accum == b + piece && Blank(b)
    ensures Dispatched(c, st, Feed(c, st, id, data, disk), id, Commands(Pieces(piece, Strip(data))))
    decreases |data|
  {
    if data != "" {
      if data[0] == '!' {
        BangDispatches(c, st, id, b, piece, data, disk);
      } else {
        FeedOne(c, st, id, data, disk);
        if LineBreak(data[0]) {
          assert "" + Strip(data[1..]) == Strip(data[1..]);
          FeedDispatches(c, st, id, b, piece, data[1..], disk);
        } else {
          PlainDispatches(c, st, id, b, piece, data, disk);
        }
      }
    }
  }

  lemma {:induction false} PlainDispatches(c: Config, st: State, id: Int32, b: string, piece: string, data: string,
      disk: Disk)
    requires Reading(st, id) && st.connections[id].accum == b + piece && Blank(b)
    requires data != "" && data[0] != '!' && !LineBreak(data[0])
    ensures Dispatched(c, st, Feed(c, Accumulate(st, id, b + piece + [data[0]]), id, data[1..], disk), id,
                       Commands(Pieces(piece, Strip(data))))
    decreases |data|, 0
  {
    PlainPieces(piece, data);
    assert b + piece + [data[0]] == b + (piece + [data[0]]);
    var st1 := Accumulate(st, id, b + piece + [data[0]]);
    FeedDispatches(c, st1, id, b, piece + [data[0]], data[1..], disk);
    DispatchedBefore(c, st, st1, Feed(c, st1, id, data[1..], disk), id,
                     Commands(Pieces(piece + [data[0]], Strip(data[1..]))));
  }

  lemma PlainPieces(piece: string, data: string)
    requires data != "" && data[0] != '!' && !LineBreak(data[0])
    ensures Pieces(piece, Strip(data)) == Pieces(piece + [data[0]], Strip(data[1..]))
  {
    assert Strip(data)[1..] == Strip(data[1..]);
  }

  // Text that is accumulated dispatches nothing.
  lemma DispatchedBefore(c: Config, st: State, st1: State, next: State, id: Int32, commands: seq<seq<string>>)
    requires id in st.connections && id in st1.connections && st1.log == st.log
    requires st1.connections[id].authenticated == st.connections[id].authenticated
    requires Dispatched(c, st1, next, id, commands)
    ensures Dispatched(c, st, next, id, commands)
  {
  }

  lemma BangPieces(piece: string, data: string)
    requires data != "" && data[0] == '!'
    ensures Commands(Pieces(piece, Strip(data))) ==
            (if Tokens(piece) == [] then [] else [Tokens(piece)]) + Commands(Pieces("", Strip(data[1..])))
  {
    assert Strip(data) == ['!'] + Strip(data[1..]);
    assert Strip(data)[1..] == Strip(data[1..]);
    assert ([piece] + Pieces("", Strip(data[1..])))[1..] == Pieces("", Strip(data[1..]));
  }

  // The next command closes the connection or faults, or the rest is dispatched after it.
  lemma DispatchedLast(c: Config, st: State, next: State, id: Int32, t: seq<string>, rest: seq<seq<string>>)
    requires Reading(st, id) && next.log == st.log + [(id, t)] && !Reading(next, id)
    requires next.fault != Closes(c, st.connections[id].authenticated, t)
    ensures Dispatched(c, st, next, id, [t] + rest)
  {
    assert ([t] + rest)[1..] == rest;
  }

  lemma DispatchedMore(c: Config, st: State, st1: State, next: State, id: Int32, t: seq<string>,
      rest: seq<seq<string>>)
    requires Reading(st, id) && Reading(st1, id) && st1.log == st.log + [(id, t)] && Dispatched(c, st1, next, id, rest)
    requires !Closes(c, st.connections[id].authenticated, t)
    requires st1.connections[id].authenticated == (st.connections[id].authenticated || Admits(c, t))
    ensures Dispatched(c, st, next, id, [t] + rest)
  {
    assert ([t] + rest)[1..] == rest;
  }

  lemma {:induction false} BangDispatches(c: Config, st: State, id: Int32, b: string, piece: string, data: string,
      disk: Disk)
    requires Reading(st, id) && st.connections[id].accum == b + piece && Blank(b)
    requires data != "" && data[0] == '!'
    ensures Dispatched(c, st, Feed(c, st, id, data, disk), id, Commands(Pieces(piece, Strip(data))))
    decreases |data|, 0
  {
    var t, rest := Tokens(piece), Commands(Pieces("", Strip(data[1..])));
    BlankHasNoTokens(b, piece);
    BangPieces(piece, data);
    if t == [] {
      OnlyBlankHasNoTokens(piece, "");
      assert b + piece + "" == b + piece && [] + rest == rest;
      FeedDispatches(c, st, id, b + piece, "", data[1..], disk);
    } else {
      DispatchLogs(c, st, id, t, disk);
      var st1 := Dispatch(c, st, id, t, disk).0;
      if Reading(st1, id) {
        assert "" + "" == "";
        FeedDispatches(c, st1, id, "", "", data[1..], disk);
        DispatchedMore(c, st, st1, Feed(c, st1, id, data[1..], disk), id, t, rest);
      } else {
        DispatchedLast(c, st, st1, id, t, rest);
      }
    }
  }

  // For a connection with nothing accumulated, the commands dispatched are the pieces
  // of the data without line breaks that end with '!' and are not blank, up to the
  // first that closes the connection, or to the one at which the daemon faults.
  lemma CommandsArePieces(c: Config, st: State, id: Int32, data: string, disk: Disk)
    requires Reading(st, id) && st.connections[id].accum == ""
    ensures Dispatched(c, st, Feed(c, st, id, data, disk), id, Commands(Pieces("", Strip(data))))
  {
    FeedDispatches(c, st, id, "", "", data, disk);
  }
}
