// What each command line does, from its bytes to the state of the daemon: the verb, the
// arguments in their order, and everything that changes.
module CaeCommands {
  import opened Wrappers
  import opened Arithmetic
  import opened RingBuffer
  import opened AlsaStream
  import opened AlsaCapture
  import opened AlsaDelivery
  import opened PlaySessions
  import opened CaeModel
  import opened CaeInvariant
  import opened CaeRuns

  // ----- Command lines ------------------------------------------------------------------

  predicate IsWord(s: string) {
    s != "" && forall i :: 0 <= i < |s| ==> s[i] != ' ' && s[i] != '!' && s[i] != '\n' && s[i] != '\r'
  }

  predicate AreWords(words: seq<string>) {
    forall i :: 0 <= i < |words| ==> IsWord(words[i])
  }

  // The words with a blank between each two.
  function Sentence(words: seq<string>): string {
    if words == [] then "" else if |words| == 1 then words[0] else words[0] + " " + Sentence(words[1..])
  }

  lemma {:induction false} WordTokens(w: string, token: string, rest: string)
    requires forall i :: 0 <= i < |w| ==> w[i] != ' '
    requires token + w != "" && (rest == "" || rest[0] == ' ')
    ensures TokensFrom(w + rest, token) == [token + w] + if rest == "" then [] else TokensFrom(rest[1..], "")
    decreases |w|
  {
    if w == "" {
      assert w + rest == rest && token + w == token;
    } else {
      assert (w + rest)[1..] == w[1..] + rest && token + [w[0]] + w[1..] == token + w;
      WordTokens(w[1..], token + [w[0]], rest);
    }
  }

  lemma {:induction false} SentenceTokens(words: seq<string>)
    requires AreWords(words)
    ensures Tokens(Sentence(words)) == words
  {
    if |words| == 1 {
      assert words[0] + "" == words[0] && "" + words[0] == words[0];
      WordTokens(words[0], "", "");
    } else if |words| > 1 {
      var rest := " " + Sentence(words[1..]);
      assert words[0] + rest == Sentence(words) && "" + words[0] == words[0] && rest[1..] == Sentence(words[1..]);
      assert IsWord(words[0]);
      WordTokens(words[0], "", rest);
      SentenceTokens(words[1..]);
    }
  }

  predicate IsQuiet(s: string) {
    forall i :: 0 <= i < |s| ==> s[i] != '!' && s[i] != '\n' && s[i] != '\r'
  }

  lemma {:induction false} SentenceIsQuiet(words: seq<string>)
    requires AreWords(words)
    ensures IsQuiet(Sentence(words))
  {
    if |words| > 1 {
      SentenceIsQuiet(words[1..]);
    }
  }

  // Text without a '!' is accumulated.
  lemma {:induction false} FeedQuiet(c: Config, st: State, id: Int32, s: string, rest: string, disk: Disk)
    requires Reading(st, id) && IsQuiet(s)
    ensures Feed(c, st, id, s + rest, disk) ==
            Feed(c, Accumulate(st, id, st.connections[id].accum + s), id, rest, disk)
    decreases |s|
  {
    var accum := st.connections[id].accum;
    if s == "" {
      assert s + rest == rest && accum + s == accum;
      assert st.connections[id := st.connections[id].(accum := accum)] == st.connections;
    } else {
      assert (s + rest)[1..] == s[1..] + rest && accum + [s[0]] + s[1..] == accum + s;
      var st1 := Accumulate(st, id, accum + [s[0]]);
      FeedQuiet(c, st1, id, s[1..], rest, disk);
      assert st1.connections[id := st1.connections[id].(accum := accum + s)] ==
             st.connections[id := st.connections[id].(accum := accum + s)];
    }
  }

  // A client that is authenticated and has nothing accumulated.
  ghost predicate Listens(c: Config, st: State, id: Int32) {
    && Inv(c, st) && !st.fault && Live(st.connections, id)
    && st.connections[id].open && st.connections[id].accum == ""
  }

  function Logged(st: State, id: Int32, words: seq<string>): State {
    st.(log := st.log + [(id, words)])
  }

  predicate IsPrivileged(words: seq<string>) {
    words != [] && words[0] != "DC" && words[0] != "PW"
  }

  predicate IsVerb(v: string) {
    |v| == 2 && 'A' <= v[0] <= 'Z' && 'A' <= v[1] <= 'Z' && v != "DC" && v != "PW"
  }

  lemma VerbAndWords(v: string, args: seq<string>)
    requires IsVerb(v) && AreWords(args)
    ensures AreWords([v] + args) && IsPrivileged([v] + args)
  {
  }

  // A privileged command line is executed with its words.
  lemma LineRuns(c: Config, st: State, id: Int32, words: seq<string>, disk: Disk)
    requires Listens(c, st, id) && AreWords(words) && IsPrivileged(words)
    ensures Feed(c, st, id, Sentence(words) + "!", disk) == Execute(c, Logged(st, id, words), id, words, disk)
    ensures Inv(c, Logged(st, id, words))
  {
    LineArrives(c, st, id, words, disk);
    BangRuns(c, st, id, words, disk);
  }

  lemma LineArrives(c: Config, st: State, id: Int32, words: seq<string>, disk: Disk)
    requires Reading(st, id) && st.connections[id].accum == "" && AreWords(words)
    ensures Tokens(Sentence(words)) == words
    ensures Feed(c, st, id, Sentence(words) + "!", disk) ==
            Feed(c, Accumulate(st, id, Sentence(words)), id, "!", disk)
  {
    SentenceTokens(words);
    SentenceIsQuiet(words);
    FeedQuiet(c, st, id, Sentence(words), "!", disk);
    assert "" + Sentence(words) == Sentence(words);
  }

  lemma BangRuns(c: Config, st: State, id: Int32, words: seq<string>, disk: Disk)
    requires Listens(c, st, id) && IsPrivileged(words) && Tokens(Sentence(words)) == words
    ensures Feed(c, Accumulate(st, id, Sentence(words)), id, "!", disk) ==
            Execute(c, Logged(st, id, words), id, words, disk)
  {
    var st1 := Accumulate(st, id, Sentence(words));
    ReceivedIsLogged(st, id, words);
    assert "!"[1..] == "";
    assert TakeByte(c, st1, id, '!', disk) == Dispatch(c, st1, id, words, disk);
  }

  lemma ReceivedIsLogged(st: State, id: Int32, words: seq<string>)
    requires id in st.connections && st.connections[id].accum == ""
    ensures Received(Accumulate(st, id, Sentence(words)), id, words) == Logged(st, id, words)
  {
    var st1 := Accumulate(st, id, Sentence(words));
    assert st1.connections[id := st1.connections[id].(accum := "")] == st.connections;
  }

  // ----- Answers and handles ---------------------------------------------------------------

  function Answer(st: State, id: Int32, r: Reply): State {
    st.(sent := st.sent + [Message(id, r)])
  }

  // The descriptor in the high half of 64 bits and the serial number in the low half.
  function HandleOf(id: Int32, serial: UInt32): UInt64
    requires id > 0
  {
    id * 4294967296 + serial
  }

  lemma HandleIs(id: Int32, serial: UInt32)
    requires id > 0
    ensures HandleOf(id, serial) == MakeHandle(id, serial)
  {
    HandleOfPair(id, serial);
  }

  // Which operation a command is.
  lemma ExecuteIs(c: Config, st: State, id: Int32, t: seq<string>, disk: Disk)
    requires t != []
    ensures Parse(c, t).LP? ==> Execute(c, st, id, t, disk) == LoadPlayback(c, st, id, Parse(c, t), disk)
    ensures Parse(c, t).UP? ==> Execute(c, st, id, t, disk) == UnloadPlayback(c, st, id, Parse(c, t))
    ensures Parse(c, t).PP? ==> Execute(c, st, id, t, disk) == PlayPosition(c, st, id, Parse(c, t))
    ensures Parse(c, t).PY? ==> Execute(c, st, id, t, disk) == StartPlayback(c, st, id, Parse(c, t))
    ensures Parse(c, t).SP? ==> Execute(c, st, id, t, disk) == StopPlayback(c, st, id, Parse(c, t))
    ensures Parse(c, t).LR? ==> Execute(c, st, id, t, disk) == LoadRecording(c, st, id, Parse(c, t), disk)
    ensures Parse(c, t).UR? ==> Execute(c, st, id, t, disk) == UnloadRecording(c, st, id, Parse(c, t))
    ensures Parse(c, t).RD? ==> Execute(c, st, id, t, disk) == StartRecording(c, st, id, Parse(c, t))
    ensures Parse(c, t).SR? ==> Execute(c, st, id, t, disk) == HaltRecording(c, st, id, Parse(c, t))
    ensures Parse(c, t).IV? ==> Execute(c, st, id, t, disk) == SetInputVolume(c, st, id, Parse(c, t))
    ensures Parse(c, t).FV? ==> Execute(c, st, id, t, disk) == FadeOutputVolume(c, st, id, Parse(c, t))
    ensures Parse(c, t).Unknown? ==> Execute(c, st, id, t, disk) == Send(st, id, Refused(t))
  {
  }

  // The answer to a line that is no command.
  lemma UnknownRuns(c: Config, st: State, id: Int32, words: seq<string>, disk: Disk)
    requires Listens(c, st, id) && AreWords(words) && IsPrivileged(words) && Parse(c, words).Unknown?
    ensures Feed(c, st, id, Sentence(words) + "!", disk) == Answer(Logged(st, id, words), id, Refused(words))
  {
    LineRuns(c, st, id, words, disk);
    ExecuteIs(c, Logged(st, id, words), id, words, disk);
  }

  lemma FoundSession(c: Config, st: State, id: Int32, serial: UInt32)
    requires Inv(c, st) && Live(st.connections, id) && HandleOf(id, serial) in st.sessions
    ensures HandleOf(id, serial) == MakeHandle(id, serial)
    ensures var s := st.sessions[HandleOf(id, serial)];
            s.sock == id && s.serial == serial && IsSlot(c, Place(s)) && SlotAt(st, Place(s)).ring.Some?
  {
    HandleIs(id, serial);
    SessionFound(c, st, id, serial);
  }

  // ----- SP: stop playing ---------------------------------------------------------------

  // A playing stream stops with an empty ring and without a timer.
  function Halted(s: Slot): Slot {
    if s.ring.None? then s else s.(playing := false, ring := Some([]), timer := false)
  }

  // Without a session the command is refused twice.
  ghost predicate Stops(c: Config, st: State, next: State, id: Int32, cmd: Command)
    requires id > 0 && cmd.SP?
  {
    var h, no := HandleOf(id, cmd.serial), Echo(cmd, false);
    if h !in st.sessions then next == Answer(Answer(st, id, no), id, no)
    else
      var k := Key(st.sessions[h].card, st.sessions[h].stream);
      if !SlotAt(st, k).playing then next == Answer(st, id, no)
      else next == Answer(st.(slots := st.slots[k := Halted(SlotAt(st, k))]), id, Echo(cmd, true))
  }

  lemma StopCommand(c: Config, st: State, id: Int32, a: string, disk: Disk)
    requires Listens(c, st, id) && IsWord(a)
    ensures var words := ["SP", a];
            var next, st1 := Feed(c, st, id, Sentence(words) + "!", disk), Logged(st, id, words);
      if c.toUInt(a).None?
      then next == Answer(st1, id, Refused(words))
      else Stops(c, st1, next, id, SP(c.toUInt(a).value))
  {
    VerbAndWords("SP", [a]);
    assert ["SP"] + [a] == ["SP", a];
    StopParses(c, a);
    StopLine(c, st, id, ["SP", a], disk);
  }

  lemma StopParses(c: Config, a: string)
    ensures Parse(c, ["SP", a]) ==
      if c.toUInt(a).None?
      then Unknown else SP(c.toUInt(a).value)
  {
  }

  lemma StopLine(c: Config, st: State, id: Int32, words: seq<string>, disk: Disk)
    requires Listens(c, st, id) && AreWords(words) && IsPrivileged(words)
    requires Parse(c, words).SP? || Parse(c, words).Unknown?
    ensures var next, st1, cmd := Feed(c, st, id, Sentence(words) + "!", disk), Logged(st, id, words), Parse(c, words);
      if cmd.Unknown? then next == Answer(st1, id, Refused(words)) else Stops(c, st1, next, id, cmd)
  {
    var cmd := Parse(c, words);
    if cmd.Unknown? {
      UnknownRuns(c, st, id, words, disk);
    } else {
      StopRuns(c, st, id, words, disk);
      StopEffect(c, Logged(st, id, words), id, cmd);
    }
  }

  lemma StopRuns(c: Config, st: State, id: Int32, words: seq<string>, disk: Disk)
    requires Listens(c, st, id) && AreWords(words) && IsPrivileged(words) && Parse(c, words).SP?
    ensures Inv(c, Logged(st, id, words))
    ensures Feed(c, st, id, Sentence(words) + "!", disk) ==
            StopPlayback(c, Logged(st, id, words), id, Parse(c, words))
  {
    LineRuns(c, st, id, words, disk);
    ExecuteIs(c, Logged(st, id, words), id, words, disk);
  }

  lemma StopEffect(c: Config, st: State, id: Int32, cmd: Command)
    requires Inv(c, st) && Live(st.connections, id) && cmd.SP?
    ensures Stops(c, st, StopPlayback(c, st, id, cmd), id, cmd)
  {
    HandleIs(id, cmd.serial);
    if HandleOf(id, cmd.serial) in st.sessions {
      StopFound(c, st, id, cmd);
    }
  }

  lemma StopFound(c: Config, st: State, id: Int32, cmd: Command)
    requires Inv(c, st) && Live(st.connections, id) && cmd.SP? && HandleOf(id, cmd.serial) in st.sessions
    ensures Stops(c, st, StopPlayback(c, st, id, cmd), id, cmd)
  {
    FoundSession(c, st, id, cmd.serial);
    var k := Place(st.sessions[HandleOf(id, cmd.serial)]);
    assert StopPlayback(c, st, id, cmd) == StopOrRefuse(st, id, k, cmd);
    if SlotAt(st, k).playing {
      AnnouncedTo(c, st, HandleOf(id, cmd.serial), k, Halted(SlotAt(st, k)), false);
    }
  }

  // A change of a slot and its announcement to the owner.
  lemma AnnouncedTo(c: Config, st: State, h: UInt64, k: Key, slot: Slot, playing: bool)
    requires Inv(c, st) && h in st.sessions && Place(st.sessions[h]) == k
    requires slot.ring.Some? && SlotAt(st, k).ring.Some?
    ensures var s := st.sessions[h];
            StatePlayUpdate(WithSlot(st, k, slot), k, playing) ==
            Answer(st.(slots := st.slots[k := slot]), s.sock,
                   Echo(if playing then PY(s.serial, s.length, s.speed, 0) else SP(s.serial), true))
  {
    SlotChangeKeeps(c, st, k, slot);
    PlayUpdateReachesOwner(c, WithSlot(st, k, slot), k, playing);
  }

  // ----- PY: play -----------------------------------------------------------------------

  // A length that an int reads as positive starts the timer.
  function Started(s: Slot, length: UInt32): Slot {
    if s.ring.None? then s else s.(playing := true, timer := s.timer || 0 < length < 2147483648)
  }

  // Length and speed are stored; only the speed 100000 plays.
  ghost predicate StartsPlaying(c: Config, st: State, next: State, id: Int32, cmd: Command)
    requires id > 0 && cmd.PY?
  {
    var h, no := HandleOf(id, cmd.serial), Echo(cmd, false);
    if h !in st.sessions then next == Answer(st, id, no)
    else
      var k := Key(st.sessions[h].card, st.sessions[h].stream);
      var st1 := st.(sessions := st.sessions[h := st.sessions[h].(length := cmd.length, speed := cmd.speed)]);
      if SlotAt(st, k).playing || cmd.speed != 100000 then next == Answer(st1, id, no)
      else next == Answer(st1.(slots := st.slots[k := Started(SlotAt(st, k), cmd.length)]), id,
                          Echo(PY(cmd.serial, cmd.length, cmd.speed, 0), true))
  }

  lemma PlayCommand(c: Config, st: State, id: Int32, a: string, b: string, d: string, e: string, disk: Disk)
    requires Listens(c, st, id) && IsWord(a) && IsWord(b) && IsWord(d) && IsWord(e)
    ensures var words := ["PY", a, b, d, e];
            var next, st1 := Feed(c, st, id, Sentence(words) + "!", disk), Logged(st, id, words);
      if c.toUInt(a).None? || c.toUInt(b).None? || c.toUInt(d).None? || c.toUInt(e).None?
      then next == Answer(st1, id, Refused(words))
      else StartsPlaying(c, st1, next, id,
                         PY(c.toUInt(a).value, c.toUInt(b).value, c.toUInt(d).value, c.toUInt(e).value))
  {
    VerbAndWords("PY", [a, b, d, e]);
    assert ["PY"] + [a, b, d, e] == ["PY", a, b, d, e];
    PlayParses(c, a, b, d, e);
    PlayLine(c, st, id, ["PY", a, b, d, e], disk);
  }

  lemma PlayParses(c: Config, a: string, b: string, d: string, e: string)
    ensures Parse(c, ["PY", a, b, d, e]) ==
      if c.toUInt(a).None? || c.toUInt(b).None? || c.toUInt(d).None? || c.toUInt(e).None?
      then Unknown else PY(c.toUInt(a).value, c.toUInt(b).value, c.toUInt(d).value, c.toUInt(e).value)
  {
  }

  lemma PlayLine(c: Config, st: State, id: Int32, words: seq<string>, disk: Disk)
    requires Listens(c, st, id) && AreWords(words) && IsPrivileged(words)
    requires Parse(c, words).PY? || Parse(c, words).Unknown?
    ensures var next, st1, cmd := Feed(c, st, id, Sentence(words) + "!", disk), Logged(st, id, words), Parse(c, words);
      if cmd.Unknown? then next == Answer(st1, id, Refused(words)) else StartsPlaying(c, st1, next, id, cmd)
  {
    var cmd := Parse(c, words);
    if cmd.Unknown? {
      UnknownRuns(c, st, id, words, disk);
    } else {
      PlayRuns(c, st, id, words, disk);
      PlayEffect(c, Logged(st, id, words), id, cmd);
    }
  }

  lemma PlayRuns(c: Config, st: State, id: Int32, words: seq<string>, disk: Disk)
    requires Listens(c, st, id) && AreWords(words) && IsPrivileged(words) && Parse(c, words).PY?
    ensures Inv(c, Logged(st, id, words))
    ensures Feed(c, st, id, Sentence(words) + "!", disk) ==
            StartPlayback(c, Logged(st, id, words), id, Parse(c, words))
  {
    LineRuns(c, st, id, words, disk);
    ExecuteIs(c, Logged(st, id, words), id, words, disk);
  }

  lemma PlayEffect(c: Config, st: State, id: Int32, cmd: Command)
    requires Inv(c, st) && Live(st.connections, id) && cmd.PY?
    ensures StartsPlaying(c, st, StartPlayback(c, st, id, cmd), id, cmd)
  {
    HandleIs(id, cmd.serial);
    if HandleOf(id, cmd.serial) in st.sessions {
      PlayFound(c, st, id, cmd);
    }
  }

  lemma PlayFound(c: Config, st: State, id: Int32, cmd: Command)
    requires Inv(c, st) && Live(st.connections, id) && cmd.PY? && HandleOf(id, cmd.serial) in st.sessions
    ensures StartsPlaying(c, st, StartPlayback(c, st, id, cmd), id, cmd)
  {
    FoundSession(c, st, id, cmd.serial);
    var h := HandleOf(id, cmd.serial);
    var s := st.sessions[h].(length := cmd.length, speed := cmd.speed);
    var st1, k := WithSession(st, h, s), Place(s);
    assert StartPlayback(c, st, id, cmd) == PlayStored(st1, id, k, cmd);
    StoredKeeps(c, st, h, s);
    StoredEffect(c, st1, id, h, k, cmd);
  }

  lemma StoredKeeps(c: Config, st: State, h: UInt64, s: Session)
    requires Inv(c, st) && h in st.sessions && s == st.sessions[h].(length := s.length, speed := s.speed)
    ensures Inv(c, WithSession(st, h, s))
  {
    UpdatedSessions(c, st.connections, st.sessions, st.slots, h, s);
    SamePlaces(st.sessions, h, s);
  }

  lemma StoredEffect(c: Config, st: State, id: Int32, h: UInt64, k: Key, cmd: Command)
    requires Inv(c, st) && id in st.connections && cmd.PY? && h in st.sessions && SlotAt(st, k).ring.Some?
    requires st.sessions[h] == Session(id, cmd.serial, k.card, st.sessions[h].port, k.index, cmd.length, cmd.speed)
    ensures PlayStored(st, id, k, cmd) ==
            if SlotAt(st, k).playing || cmd.speed != 100000 then Answer(st, id, Echo(cmd, false))
            else Answer(st.(slots := st.slots[k := Started(SlotAt(st, k), cmd.length)]), id,
                        Echo(PY(cmd.serial, cmd.length, cmd.speed, 0), true))
  {
    if !SlotAt(st, k).playing && cmd.speed == 100000 {
      var slot := Started(SlotAt(st, k), cmd.length);
      assert PlayStored(st, id, k, cmd) == StatePlayUpdate(WithSlot(st, k, slot), k, true);
      AnnouncedTo(c, st, h, k, slot, true);
    }
  }

  // ----- UP: unload ---------------------------------------------------------------------

  function Cleared(s: Slot): Slot {
    s.(ring := None, wave := None, playing := false)
  }

  // The session goes, and its stream loses ring and wave.
  ghost predicate Unloads(c: Config, st: State, next: State, id: Int32, cmd: Command)
    requires id > 0 && cmd.UP?
  {
    var h := HandleOf(id, cmd.serial);
    if h !in st.sessions then next == Answer(st, id, Echo(cmd, false))
    else
      var k := Key(st.sessions[h].card, st.sessions[h].stream);
      next == Answer(st.(sessions := st.sessions - {h}, slots := st.slots[k := Cleared(SlotAt(st, k))]), id,
                     Echo(cmd, true))
  }

  lemma UnloadCommand(c: Config, st: State, id: Int32, a: string, disk: Disk)
    requires Listens(c, st, id) && IsWord(a)
    ensures var words := ["UP", a];
            var next, st1 := Feed(c, st, id, Sentence(words) + "!", disk), Logged(st, id, words);
      if c.toUInt(a).None?
      then next == Answer(st1, id, Refused(words))
      else Unloads(c, st1, next, id, UP(c.toUInt(a).value))
  {
    VerbAndWords("UP", [a]);
    assert ["UP"] + [a] == ["UP", a];
    UnloadParses(c, a);
    UnloadLine(c, st, id, ["UP", a], disk);
  }

  lemma UnloadParses(c: Config, a: string)
    ensures Parse(c, ["UP", a]) ==
      if c.toUInt(a).None?
      then Unknown else UP(c.toUInt(a).value)
  {
  }

  lemma UnloadLine(c: Config, st: State, id: Int32, words: seq<string>, disk: Disk)
    requires Listens(c, st, id) && AreWords(words) && IsPrivileged(words)
    requires Parse(c, words).UP? || Parse(c, words).Unknown?
    ensures var next, st1, cmd := Feed(c, st, id, Sentence(words) + "!", disk), Logged(st, id, words), Parse(c, words);
      if cmd.Unknown? then next == Answer(st1, id, Refused(words)) else Unloads(c, st1, next, id, cmd)
  {
    var cmd := Parse(c, words);
    if cmd.Unknown? {
      UnknownRuns(c, st, id, words, disk);
    } else {
      UnloadRuns(c, st, id, words, disk);
      UnloadEffect(c, Logged(st, id, words), id, cmd);
    }
  }

  lemma UnloadRuns(c: Config, st: State, id: Int32, words: seq<string>, disk: Disk)
    requires Listens(c, st, id) && AreWords(words) && IsPrivileged(words) && Parse(c, words).UP?
    ensures Inv(c, Logged(st, id, words))
    ensures Feed(c, st, id, Sentence(words) + "!", disk) ==
            UnloadPlayback(c, Logged(st, id, words), id, Parse(c, words))
  {
    LineRuns(c, st, id, words, disk);
    ExecuteIs(c, Logged(st, id, words), id, words, disk);
  }

  lemma UnloadEffect(c: Config, st: State, id: Int32, cmd: Command)
    requires Inv(c, st) && Live(st.connections, id) && cmd.UP?
    ensures Unloads(c, st, UnloadPlayback(c, st, id, cmd), id, cmd)
  {
    HandleIs(id, cmd.serial);
    if HandleOf(id, cmd.serial) in st.sessions {
      FoundSession(c, st, id, cmd.serial);
    }
  }

  // ----- FV and IV: volumes -------------------------------------------------------------

  // A fade without a length divides by it, unless the mixer is left alone.
  ghost predicate FadesVolume(c: Config, st: State, next: State, id: Int32, cmd: Command)
    requires id > 0 && cmd.FV?
  {
    if HandleOf(id, cmd.serial) !in st.sessions then next == Answer(st, id, Echo(cmd, false))
    else if cmd.length == 0 && !c.testing then next == st.(fault := true)
    else next == Answer(st, id, Echo(cmd, true))
  }

  lemma FadeCommand(c: Config, st: State, id: Int32, a: string, b: string, d: string, disk: Disk)
    requires Listens(c, st, id) && IsWord(a) && IsWord(b) && IsWord(d)
    ensures var words := ["FV", a, b, d];
            var next, st1 := Feed(c, st, id, Sentence(words) + "!", disk), Logged(st, id, words);
      if c.toUInt(a).None? || c.toInt(b).None? || c.toUInt(d).None?
      then next == Answer(st1, id, Refused(words))
      else FadesVolume(c, st1, next, id, FV(c.toUInt(a).value, c.toInt(b).value, c.toUInt(d).value))
  {
    VerbAndWords("FV", [a, b, d]);
    assert ["FV"] + [a, b, d] == ["FV", a, b, d];
    FadeParses(c, a, b, d);
    FadeLine(c, st, id, ["FV", a, b, d], disk);
  }

  lemma FadeParses(c: Config, a: string, b: string, d: string)
    ensures Parse(c, ["FV", a, b, d]) ==
      if c.toUInt(a).None? || c.toInt(b).None? || c.toUInt(d).None?
      then Unknown else FV(c.toUInt(a).value, c.toInt(b).value, c.toUInt(d).value)
  {
  }

  lemma FadeLine(c: Config, st: State, id: Int32, words: seq<string>, disk: Disk)
    requires Listens(c, st, id) && AreWords(words) && IsPrivileged(words)
    requires Parse(c, words).FV? || Parse(c, words).Unknown?
    ensures var next, st1, cmd := Feed(c, st, id, Sentence(words) + "!", disk), Logged(st, id, words), Parse(c, words);
      if cmd.Unknown? then next == Answer(st1, id, Refused(words)) else FadesVolume(c, st1, next, id, cmd)
  {
    var cmd := Parse(c, words);
    if cmd.Unknown? {
      UnknownRuns(c, st, id, words, disk);
    } else {
      FadeRuns(c, st, id, words, disk);
      FadeEffect(c, Logged(st, id, words), id, cmd);
    }
  }

  lemma FadeRuns(c: Config, st: State, id: Int32, words: seq<string>, disk: Disk)
    requires Listens(c, st, id) && AreWords(words) && IsPrivileged(words) && Parse(c, words).FV?
    ensures Inv(c, Logged(st, id, words))
    ensures Feed(c, st, id, Sentence(words) + "!", disk) ==
            FadeOutputVolume(c, Logged(st, id, words), id, Parse(c, words))
  {
    LineRuns(c, st, id, words, disk);
    ExecuteIs(c, Logged(st, id, words), id, words, disk);
  }

  lemma FadeEffect(c: Config, st: State, id: Int32, cmd: Command)
    requires Inv(c, st) && Live(st.connections, id) && cmd.FV?
    ensures FadesVolume(c, st, FadeOutputVolume(c, st, id, cmd), id, cmd)
  {
    HandleIs(id, cmd.serial);
    if HandleOf(id, cmd.serial) in st.sessions {
      FoundSession(c, st, id, cmd.serial);
    }
  }

  ghost predicate SetsVolume(c: Config, st: State, next: State, id: Int32, cmd: Command)
    requires cmd.IV?
  {
    if cmd.card >= |c.formats| then next == Answer(st, id, Echo(cmd, false))
    else if cmd.stream >= c.ports then next == st.(fault := true)
    else next == Answer(st, id, Echo(cmd, true))
  }

  lemma VolumeCommand(c: Config, st: State, id: Int32, a: string, b: string, d: string, disk: Disk)
    requires Listens(c, st, id) && IsWord(a) && IsWord(b) && IsWord(d)
    ensures var words := ["IV", a, b, d];
            var next, st1 := Feed(c, st, id, Sentence(words) + "!", disk), Logged(st, id, words);
      if c.toUInt(a).None? || c.toUInt(b).None? || c.toInt(d).None? ||
          c.toUInt(a).value >= c.maxCards || c.toUInt(b).value >= c.streams
      then next == Answer(st1, id, Refused(words))
      else SetsVolume(c, st1, next, id, IV(c.toUInt(a).value, c.toUInt(b).value, c.toInt(d).value))
  {
    VerbAndWords("IV", [a, b, d]);
    assert ["IV"] + [a, b, d] == ["IV", a, b, d];
    VolumeParses(c, a, b, d);
    VolumeLine(c, st, id, ["IV", a, b, d], disk);
  }

  lemma VolumeParses(c: Config, a: string, b: string, d: string)
    ensures Parse(c, ["IV", a, b, d]) ==
      if c.toUInt(a).None? || c.toUInt(b).None? || c.toInt(d).None? ||
          c.toUInt(a).value >= c.maxCards || c.toUInt(b).value >= c.streams
      then Unknown else IV(c.toUInt(a).value, c.toUInt(b).value, c.toInt(d).value)
  {
  }

  lemma VolumeLine(c: Config, st: State, id: Int32, words: seq<string>, disk: Disk)
    requires Listens(c, st, id) && AreWords(words) && IsPrivileged(words)
    requires Parse(c, words).IV? || Parse(c, words).Unknown?
    ensures var next, st1, cmd := Feed(c, st, id, Sentence(words) + "!", disk), Logged(st, id, words), Parse(c, words);
      if cmd.Unknown? then next == Answer(st1, id, Refused(words)) else SetsVolume(c, st1, next, id, cmd)
  {
    var cmd := Parse(c, words);
    if cmd.Unknown? {
      UnknownRuns(c, st, id, words, disk);
    } else {
      VolumeRuns(c, st, id, words, disk);
      VolumeEffect(c, Logged(st, id, words), id, cmd);
    }
  }

  lemma VolumeRuns(c: Config, st: State, id: Int32, words: seq<string>, disk: Disk)
    requires Listens(c, st, id) && AreWords(words) && IsPrivileged(words) && Parse(c, words).IV?
    ensures Inv(c, Logged(st, id, words))
    ensures Feed(c, st, id, Sentence(words) + "!", disk) ==
            SetInputVolume(c, Logged(st, id, words), id, Parse(c, words))
  {
    LineRuns(c, st, id, words, disk);
    ExecuteIs(c, Logged(st, id, words), id, words, disk);
  }

  lemma VolumeEffect(c: Config, st: State, id: Int32, cmd: Command)
    requires id in st.connections && cmd.IV?
    ensures SetsVolume(c, st, SetInputVolume(c, st, id, cmd), id, cmd)
  {
  }

  // ----- LP: load -----------------------------------------------------------------------

  // The bytes read into an empty ring: the whole blocks that 262142 bytes are worth at the
  // rate of the card, or what there is.
  predicate ReadsAhead(f: Format, w: Wave, start: nat, n: nat) {
    && n * f.rate <= 262142 * w.rate
    && (start + n < |w.data| ==> n % (2 * w.channels) == 0 && 262142 * w.rate < (n + 2 * w.channels) * f.rate)
  }

  // A stream that has been loaded with a wave and holds what has been read of it, as far
  // as that fits the ring.
  predicate HasLoaded(f: Format, t: Slot, w: Wave) {
    && t.wave == Some(w) && t.cursor <= |w.data| && ReadsAhead(f, w, 0, t.cursor)
    && t.ring == Some(if t.cursor <= 262143 then w.data[0..t.cursor] else w.data[0..262143])
    && !t.playing && !t.stopping && t.offset == 0 && t.pos == 0 && (t.eof ==> t.cursor == |w.data|)
  }

  predicate FirstFree(c: Config, st: State, card: nat, j: nat) {
    && j < c.streams && SlotAt(st, Key(card, j)).ring.None?
    && forall i :: 0 <= i < j ==> SlotAt(st, Key(card, i)).ring.Some?
  }

  predicate NoneFree(c: Config, st: State, card: nat) {
    forall i :: 0 <= i < c.streams ==> SlotAt(st, Key(card, i)).ring.Some?
  }

  // The first free stream of a served card is loaded and gets a session.
  ghost predicate Loads(c: Config, st: State, next: State, id: Int32, cmd: Command, disk: Disk, j: nat, t: Slot)
    requires id > 0 && cmd.LP?
  {
    var h := HandleOf(id, cmd.serial);
    if cmd.card >= |c.formats| || c.formats[cmd.card].exiting || NoneFree(c, st, cmd.card) ||
        cmd.name !in disk.waves
    then next == Answer(st, id, Echo(cmd, false))
    else if FaultsAtLoad(c.formats[cmd.card], disk.waves[cmd.name])
    then FirstFree(c, st, cmd.card, j) && next == st.(fault := true)
    else
      && FirstFree(c, st, cmd.card, j) && HasLoaded(c.formats[cmd.card], t, disk.waves[cmd.name])
      && next == Answer(st.(sessions := st.sessions[h := Session(id, cmd.serial, cmd.card, cmd.port, j, 0, 100000)],
                            slots := st.slots[Key(cmd.card, j) := t],
                            reloads := st.reloads + if h in st.sessions then 1 else 0), id, Echo(cmd, true))
  }

  lemma LoadCommand(c: Config, st: State, id: Int32, a: string, b: string, d: string, name: string, disk: Disk)
    returns (j: nat, t: Slot)
    requires Listens(c, st, id) && IsWord(a) && IsWord(b) && IsWord(d) && IsWord(name)
    ensures var words := ["LP", a, b, d, name];
            var next, st1 := Feed(c, st, id, Sentence(words) + "!", disk), Logged(st, id, words);
      if c.toUInt(a).None? || c.toUInt(b).None? || c.toUInt(d).None? ||
          c.toUInt(b).value >= c.maxCards || c.toUInt(d).value >= c.ports
      then next == Answer(st1, id, Refused(words))
      else Loads(c, st1, next, id, LP(c.toUInt(a).value, c.toUInt(b).value, c.toUInt(d).value, name), disk, j, t)
  {
    VerbAndWords("LP", [a, b, d, name]);
    assert ["LP"] + [a, b, d, name] == ["LP", a, b, d, name];
    LoadParses(c, a, b, d, name);
    j, t := LoadLine(c, st, id, ["LP", a, b, d, name], disk);
  }

  lemma LoadParses(c: Config, a: string, b: string, d: string, name: string)
    ensures Parse(c, ["LP", a, b, d, name]) ==
      if c.toUInt(a).None? || c.toUInt(b).None? || c.toUInt(d).None? ||
          c.toUInt(b).value >= c.maxCards || c.toUInt(d).value >= c.ports
      then Unknown else LP(c.toUInt(a).value, c.toUInt(b).value, c.toUInt(d).value, name)
  {
  }

  lemma LoadLine(c: Config, st: State, id: Int32, words: seq<string>, disk: Disk)
    returns (j: nat, t: Slot)
    requires Listens(c, st, id) && AreWords(words) && IsPrivileged(words)
    requires Parse(c, words).LP? || Parse(c, words).Unknown?
    ensures var next, st1, cmd := Feed(c, st, id, Sentence(words) + "!", disk), Logged(st, id, words), Parse(c, words);
      if cmd.Unknown? then next == Answer(st1, id, Refused(words)) else Loads(c, st1, next, id, cmd, disk, j, t)
  {
    var cmd := Parse(c, words);
    j, t := 0, IDLE;
    if cmd.Unknown? {
      UnknownRuns(c, st, id, words, disk);
    } else {
      LoadRuns(c, st, id, words, disk);
      j, t := LoadEffect(c, Logged(st, id, words), id, cmd, disk);
    }
  }

  lemma LoadRuns(c: Config, st: State, id: Int32, words: seq<string>, disk: Disk)
    requires Listens(c, st, id) && AreWords(words) && IsPrivileged(words) && Parse(c, words).LP?
    ensures Inv(c, Logged(st, id, words))
    ensures Feed(c, st, id, Sentence(words) + "!", disk) ==
            LoadPlayback(c, Logged(st, id, words), id, Parse(c, words), disk)
  {
    LineRuns(c, st, id, words, disk);
    ExecuteIs(c, Logged(st, id, words), id, words, disk);
  }

  lemma LoadEffect(c: Config, st: State, id: Int32, cmd: Command, disk: Disk) returns (j: nat, t: Slot)
    requires id > 0 && id in st.connections && cmd.LP?
    ensures Loads(c, st, LoadPlayback(c, st, id, cmd, disk), id, cmd, disk, j, t)
  {
    FreeStreamIsFirst(c, st.slots, cmd.card, 0);
    j, t := FreeStream(c, st.slots, cmd.card, 0), IDLE;
    if FindsStream(c, st, cmd, disk) && !LoadFaults(c, st, cmd, disk) {
      t := LoadPlaybackLoads(c, st, id, cmd, disk);
      LoadedHas(c.formats[cmd.card], SlotAt(st, Key(cmd.card, j)), disk.waves[cmd.name]);
      HandleIs(id, cmd.serial);
      NewSessionFields(id, cmd.serial, cmd.card, cmd.port, j);
    }
  }

  lemma LoadedHas(f: Format, s: Slot, w: Wave)
    requires s.ring.None?
    ensures Consistent(Step(f, s, Load(w)).stream) && HasLoaded(f, Step(f, s, Load(w)).stream, w)
  {
    FirstFill(f, Stream(Some([]), Some(w), 0, s.playing, false, false, 0, 0, s.timer));
  }

  // What a fill of an empty ring takes from the file.
  lemma FirstFill(f: Format, s: Stream)
    requires Consistent(s) && s.ring == Some([])
    ensures var t, data, a := Fill(f, s), s.wave.value.data, s.cursor;
      && a <= t.cursor <= |data| && t == s.(ring := t.ring, cursor := t.cursor, eof := t.eof, timer := t.timer)
      && t.ring == Some(if t.cursor - a <= 262143 then data[a..t.cursor] else data[a..a + 262143])
      && (t.eof ==> s.eof || t.cursor == |data|) && ReadsAhead(f, s.wave.value, a, t.cursor - a)
  {
    var wanted := Wanted(f, s.wave.value, CAPACITY - 1);
    WantedIs(f, s.wave.value, CAPACITY - 1);
    AtMost(Min(wanted, |s.wave.value.data| - s.cursor), wanted, f.rate);
    FillIs(f, s, wanted, Min(wanted, |s.wave.value.data| - s.cursor));
    StoredInEmpty(s.wave.value.data, s.cursor, Fill(f, s).cursor);
  }

  lemma StoredInEmpty(data: seq<Byte>, a: nat, b: nat)
    requires a <= b <= |data|
    ensures Stored([], CAPACITY, data[a..b]) == if b - a <= 262143 then data[a..b] else data[a..a + 262143]
  {
  }

  // ----- PP: seek -----------------------------------------------------------------------

  // The frame of a time in milliseconds, whose byte goes through 32 bits.
  function FrameAt(w: Wave, ms: UInt32): nat {
    w.rate * (2 * w.channels) * ms / 1000 % 4294967296 / (2 * w.channels)
  }

  lemma FrameIs(w: Wave, ms: UInt32)
    ensures FrameAt(w, ms) == SeekFrame(w, ms)
    ensures FrameAt(w, ms) * (2 * w.channels) <= |w.data| <==> SeekFrame(w, ms) <= Blocks(w, |w.data|)
  {
    BlocksAreAligned(w, w.rate);
    BlocksAreAligned(w, Low(BlockBytes(w, w.rate) * ms / 1000));
    BlocksInData(w, SeekFrame(w, ms));
  }

  lemma BlocksInData(w: Wave, n: nat)
    ensures n * (2 * w.channels) <= |w.data| <==> n <= Blocks(w, |w.data|)
  {
  }

  // A stream that has gone to a frame and holds what has been read from there.
  predicate HasSought(f: Format, s: Slot, t: Slot, frame: nat) {
    && s.ring.Some? && s.wave.Some?
    && var w, start := s.wave.value, frame * (2 * s.wave.value.channels);
    && start <= t.cursor <= |w.data| && ReadsAhead(f, w, start, t.cursor - start)
    && t == s.(ring := t.ring, cursor := t.cursor, eof := t.eof, offset := frame, pos := 0, timer := t.timer)
    && t.ring == Some(if t.cursor - start <= 262143 then w.data[start..t.cursor] else w.data[start..start + 262143])
    && (t.eof ==> t.cursor == |w.data|) && (s.playing ==> t.timer)
  }

  // A seek past the end is refused but keeps its frame, and one on a card that is shutting
  // down does nothing.
  ghost predicate Seeks(c: Config, st: State, next: State, id: Int32, cmd: Command, t: Slot)
    requires id > 0 && cmd.PP?
  {
    var h, no := HandleOf(id, cmd.serial), Echo(cmd, false);
    if h !in st.sessions then next == Answer(st, id, no)
    else
      var k := Key(st.sessions[h].card, st.sessions[h].stream);
      var s := SlotAt(st, k);
      && s.wave.Some? && k.card < |c.formats|
      && var frame, align := FrameAt(s.wave.value, cmd.ms), 2 * s.wave.value.channels;
      if c.formats[k.card].exiting then next == Answer(st.(slots := st.slots[k := s]), id, no)
      else if frame * align > |s.wave.value.data|
      then next == Answer(st.(slots := st.slots[k := s.(offset := frame)]), id, no)
      else if next.fault then next == st.(fault := true)
      else
        && HasSought(c.formats[k.card], s, t, frame)
        && next == Answer(st.(slots := st.slots[k := t]), id, Echo(cmd, true))
  }

  lemma PositionCommand(c: Config, st: State, id: Int32, a: string, b: string, disk: Disk)
    returns (t: Slot)
    requires Listens(c, st, id) && IsWord(a) && IsWord(b)
    ensures var words := ["PP", a, b];
            var next, st1 := Feed(c, st, id, Sentence(words) + "!", disk), Logged(st, id, words);
      if c.toUInt(a).None? || c.toUInt(b).None?
      then next == Answer(st1, id, Refused(words))
      else Seeks(c, st1, next, id, PP(c.toUInt(a).value, c.toUInt(b).value), t)
  {
    VerbAndWords("PP", [a, b]);
    assert ["PP"] + [a, b] == ["PP", a, b];
    PositionParses(c, a, b);
    t := PositionLine(c, st, id, ["PP", a, b], disk);
  }

  lemma PositionParses(c: Config, a: string, b: string)
    ensures Parse(c, ["PP", a, b]) ==
      if c.toUInt(a).None? || c.toUInt(b).None?
      then Unknown else PP(c.toUInt(a).value, c.toUInt(b).value)
  {
  }

  lemma PositionLine(c: Config, st: State, id: Int32, words: seq<string>, disk: Disk)
    returns (t: Slot)
    requires Listens(c, st, id) && AreWords(words) && IsPrivileged(words)
    requires Parse(c, words).PP? || Parse(c, words).Unknown?
    ensures var next, st1, cmd := Feed(c, st, id, Sentence(words) + "!", disk), Logged(st, id, words), Parse(c, words);
      if cmd.Unknown? then next == Answer(st1, id, Refused(words)) else Seeks(c, st1, next, id, cmd, t)
  {
    var cmd := Parse(c, words);
    t := IDLE;
    if cmd.Unknown? {
      UnknownRuns(c, st, id, words, disk);
    } else {
      PositionRuns(c, st, id, words, disk);
      t := PositionEffect(c, Logged(st, id, words), id, cmd);
    }
  }

  lemma PositionRuns(c: Config, st: State, id: Int32, words: seq<string>, disk: Disk)
    requires Listens(c, st, id) && AreWords(words) && IsPrivileged(words) && Parse(c, words).PP?
    ensures Inv(c, Logged(st, id, words))
    ensures Feed(c, st, id, Sentence(words) + "!", disk) ==
            PlayPosition(c, Logged(st, id, words), id, Parse(c, words))
  {
    LineRuns(c, st, id, words, disk);
    ExecuteIs(c, Logged(st, id, words), id, words, disk);
  }

  lemma PositionEffect(c: Config, st: State, id: Int32, cmd: Command) returns (t: Slot)
    requires Inv(c, st) && !st.fault && Live(st.connections, id) && cmd.PP?
    ensures Seeks(c, st, PlayPosition(c, st, id, cmd), id, cmd, t)
  {
    HandleIs(id, cmd.serial);
    t := IDLE;
    if HandleOf(id, cmd.serial) in st.sessions {
      FoundSession(c, st, id, cmd.serial);
      t := SeekFound(c, st, id, cmd, Place(st.sessions[HandleOf(id, cmd.serial)]));
    }
  }

  lemma SeekFound(c: Config, st: State, id: Int32, cmd: Command, k: Key) returns (t: Slot)
    requires !st.fault && id > 0 && id in st.connections && cmd.PP? && HandleOf(id, cmd.serial) in st.sessions
    requires HandleOf(id, cmd.serial) == MakeHandle(id, cmd.serial)
    requires k == Place(st.sessions[HandleOf(id, cmd.serial)]) && IsSlot(c, k) && SlotAt(st, k).ring.Some?
    ensures Seeks(c, st, PlayPosition(c, st, id, cmd), id, cmd, t)
  {
    var f, s := c.formats[k.card], SlotAt(st, k);
    FrameIs(s.wave.value, cmd.ms);
    t := SoughtHas(f, s, cmd.ms);
    assert PlayPosition(c, st, id, cmd) == SeekOrFault(f, st, id, k, cmd);
  }

  lemma SoughtHas(f: Format, s: Slot, ms: UInt32) returns (t: Slot)
    requires s.ring.Some?
    ensures t == Step(f, s, Seek(ms)).stream
    ensures CanSeek(f, s, ms) ==> HasSought(f, s, t, SeekFrame(s.wave.value, ms))
  {
    t := Step(f, s, Seek(ms)).stream;
    if CanSeek(f, s, ms) {
      var w, frame := s.wave.value, SeekFrame(s.wave.value, ms);
      BlocksAreAligned(w, frame);
      FirstFill(f, s.(offset := frame, pos := 0, cursor := BlockBytes(w, frame), eof := false, ring := Some([])));
    }
  }

  // ----- LR: load a recording -----------------------------------------------------------

  function Opened(p: RecordPort, channels: nat): RecordPort
    requires 1 <= channels <= 2
  {
    p.(ring := Some([]), channels := channels, written := [], ready := true)
  }

  // A port that nobody owns is opened for the client, if the recording is 16-bit PCM with
  // one or two channels and a rate, under a name that can be written.
  ghost predicate Records(c: Config, st: State, next: State, id: Int32, cmd: Command, disk: Disk)
    requires cmd.LR?
  {
    var k := Key(cmd.card, cmd.port);
    if cmd.card >= |c.formats| || LockAt(st, k).owner != -1 || cmd.coding != 0 || cmd.channels == 0 ||
        cmd.channels > 2 || cmd.rate == 0 || cmd.name !in disk.writable
    then next == Answer(st, id, Echo(cmd, false))
    else
      next == Answer(st.(locks := st.locks[k := LockAt(st, k).(owner := id)],
                         ports := st.ports[k := Opened(PortAt(st, k), cmd.channels)]), id, Echo(cmd, true))
  }

  lemma LoadRecordingCommand(c: Config, st: State, id: Int32, args: seq<string>, disk: Disk)
    requires Listens(c, st, id) && |args| == 7 && AreWords(args)
    ensures var words := ["LR"] + args;
            var next, st1 := Feed(c, st, id, Sentence(words) + "!", disk), Logged(st, id, words);
      if c.toUInt(args[0]).None? || c.toUInt(args[1]).None? || c.toUInt(args[2]).None? ||
          c.toUInt(args[3]).None? || c.toUInt(args[4]).None? || c.toUInt(args[5]).None? ||
          c.toUInt(args[0]).value >= c.maxCards || c.toUInt(args[1]).value >= c.ports ||
          c.toUInt(args[2]).value > 4 || c.toUInt(args[3]).value > 2
      then next == Answer(st1, id, Refused(words))
      else Records(c, st1, next, id, LR(c.toUInt(args[0]).value, c.toUInt(args[1]).value, c.toUInt(args[2]).value,
              c.toUInt(args[3]).value, c.toUInt(args[4]).value, c.toUInt(args[5]).value, args[6]), disk)
  {
    VerbAndWords("LR", args);
    LoadRecordingParses(c, args);
    LoadRecordingLine(c, st, id, ["LR"] + args, disk);
  }

  lemma LoadRecordingParses(c: Config, args: seq<string>)
    requires |args| == 7
    ensures Parse(c, ["LR"] + args) ==
      if c.toUInt(args[0]).None? || c.toUInt(args[1]).None? || c.toUInt(args[2]).None? ||
          c.toUInt(args[3]).None? || c.toUInt(args[4]).None? || c.toUInt(args[5]).None? ||
          c.toUInt(args[0]).value >= c.maxCards || c.toUInt(args[1]).value >= c.ports ||
          c.toUInt(args[2]).value > 4 || c.toUInt(args[3]).value > 2
      then Unknown else LR(c.toUInt(args[0]).value, c.toUInt(args[1]).value, c.toUInt(args[2]).value,
              c.toUInt(args[3]).value, c.toUInt(args[4]).value, c.toUInt(args[5]).value, args[6])
  {
  }

  lemma LoadRecordingLine(c: Config, st: State, id: Int32, words: seq<string>, disk: Disk)
    requires Listens(c, st, id) && AreWords(words) && IsPrivileged(words)
    requires Parse(c, words).LR? || Parse(c, words).Unknown?
    ensures var next, st1, cmd := Feed(c, st, id, Sentence(words) + "!", disk), Logged(st, id, words), Parse(c, words);
      if cmd.Unknown? then next == Answer(st1, id, Refused(words)) else Records(c, st1, next, id, cmd, disk)
  {
    var cmd := Parse(c, words);
    if cmd.Unknown? {
      UnknownRuns(c, st, id, words, disk);
    } else {
      LoadRecordingRuns(c, st, id, words, disk);
      LoadRecordingEffect(c, Logged(st, id, words), id, cmd, disk);
    }
  }

  lemma LoadRecordingRuns(c: Config, st: State, id: Int32, words: seq<string>, disk: Disk)
    requires Listens(c, st, id) && AreWords(words) && IsPrivileged(words) && Parse(c, words).LR?
    ensures Inv(c, Logged(st, id, words))
    ensures Feed(c, st, id, Sentence(words) + "!", disk) ==
            LoadRecording(c, Logged(st, id, words), id, Parse(c, words), disk)
  {
    LineRuns(c, st, id, words, disk);
    ExecuteIs(c, Logged(st, id, words), id, words, disk);
  }

  lemma LoadRecordingEffect(c: Config, st: State, id: Int32, cmd: Command, disk: Disk)
    requires id in st.connections && cmd.LR?
    ensures Records(c, st, LoadRecording(c, st, id, cmd, disk), id, cmd, disk)
  {
  }

  // ----- UR: unload a recording ---------------------------------------------------------

  // The rest of the ring goes to the file, and the port is free.
  function Saved(p: RecordPort): RecordPort {
    if p.ring.None? then p
    else p.(ring := None, written := p.written + p.ring.value, recording := false, ready := false, samples := 0)
  }

  // The owner is told the whole milliseconds of the frames; a port that nobody owns is a
  // fault.
  ghost predicate Saves(c: Config, st: State, next: State, id: Int32, cmd: Command, frames: nat, ms: nat)
    requires cmd.UR?
  {
    var k := Key(cmd.card, cmd.stream);
    var lock, p := LockAt(st, k), PortAt(st, k);
    if cmd.card >= |c.formats| || (lock.owner != -1 && lock.owner != id) then next == Answer(st, id, Echo(cmd, false))
    else if lock.owner == -1 then next == st.(fault := true)
    else
      && p.ring.Some?
      && next == Answer(st.(locks := st.locks[k := lock.(owner := -1)], ports := st.ports[k := Saved(p)]), id,
                        Length(cmd.card, cmd.stream, ms))
      && ms * c.rate <= 1000 * frames < (ms + 1) * c.rate && frames >= p.samples
      && (frames - p.samples) * (2 * p.channels) <= |p.ring.value| < (frames - p.samples + 1) * (2 * p.channels)
  }

  lemma UnloadRecordingCommand(c: Config, st: State, id: Int32, a: string, b: string, disk: Disk)
    returns (frames: nat, ms: nat)
    requires Listens(c, st, id) && IsWord(a) && IsWord(b)
    ensures var words := ["UR", a, b];
            var next, st1 := Feed(c, st, id, Sentence(words) + "!", disk), Logged(st, id, words);
      if c.toUInt(a).None? || c.toUInt(b).None? ||
          c.toUInt(a).value >= c.maxCards || c.toUInt(b).value >= c.streams
      then next == Answer(st1, id, Refused(words))
      else Saves(c, st1, next, id, UR(c.toUInt(a).value, c.toUInt(b).value), frames, ms)
  {
    VerbAndWords("UR", [a, b]);
    assert ["UR"] + [a, b] == ["UR", a, b];
    UnloadRecordingParses(c, a, b);
    frames, ms := UnloadRecordingLine(c, st, id, ["UR", a, b], disk);
  }

  lemma UnloadRecordingParses(c: Config, a: string, b: string)
    ensures Parse(c, ["UR", a, b]) ==
      if c.toUInt(a).None? || c.toUInt(b).None? ||
          c.toUInt(a).value >= c.maxCards || c.toUInt(b).value >= c.streams
      then Unknown else UR(c.toUInt(a).value, c.toUInt(b).value)
  {
  }

  lemma UnloadRecordingLine(c: Config, st: State, id: Int32, words: seq<string>, disk: Disk)
    returns (frames: nat, ms: nat)
    requires Listens(c, st, id) && AreWords(words) && IsPrivileged(words)
    requires Parse(c, words).UR? || Parse(c, words).Unknown?
    ensures var next, st1, cmd := Feed(c, st, id, Sentence(words) + "!", disk), Logged(st, id, words), Parse(c, words);
      if cmd.Unknown? then next == Answer(st1, id, Refused(words)) else Saves(c, st1, next, id, cmd, frames, ms)
  {
    var cmd := Parse(c, words);
    frames, ms := 0, 0;
    if cmd.Unknown? {
      UnknownRuns(c, st, id, words, disk);
    } else {
      UnloadRecordingRuns(c, st, id, words, disk);
      frames, ms := UnloadRecordingEffect(c, Logged(st, id, words), id, cmd);
    }
  }

  lemma UnloadRecordingRuns(c: Config, st: State, id: Int32, words: seq<string>, disk: Disk)
    requires Listens(c, st, id) && AreWords(words) && IsPrivileged(words) && Parse(c, words).UR?
    ensures Inv(c, Logged(st, id, words))
    ensures Feed(c, st, id, Sentence(words) + "!", disk) ==
            UnloadRecording(c, Logged(st, id, words), id, Parse(c, words))
  {
    LineRuns(c, st, id, words, disk);
    ExecuteIs(c, Logged(st, id, words), id, words, disk);
  }

  lemma UnloadRecordingEffect(c: Config, st: State, id: Int32, cmd: Command) returns (frames: nat, ms: nat)
    requires Inv(c, st) && Live(st.connections, id) && cmd.UR?
    ensures Saves(c, st, UnloadRecording(c, st, id, cmd), id, cmd, frames, ms)
  {
    var k := Key(cmd.card, cmd.stream);
    PortFound(c, st, k);
    frames, ms := 0, 0;
    if cmd.card < |c.formats| && LockAt(st, k).owner == id {
      frames, ms := SavesOwned(c, st, id, cmd, k);
    }
  }

  lemma SavesOwned(c: Config, st: State, id: Int32, cmd: Command, k: Key) returns (frames: nat, ms: nat)
    requires id in st.connections && cmd.UR? && k == Key(cmd.card, cmd.stream) && IsPort(c, k)
    requires LockAt(st, k).owner == id != -1 && PortAt(st, k).ring.Some?
    ensures Saves(c, st, UnloadRecording(c, st, id, cmd), id, cmd, frames, ms)
  {
    frames := FramesSaved(PortAt(st, k));
    ms := Milliseconds(c, frames);
    Division(frames * 1000, c.rate);
  }

  lemma FramesSaved(p: RecordPort) returns (frames: nat)
    requires p.ring.Some?
    ensures frames == RecordedLength(p) && frames >= p.samples && AfterUnloadRecord(p) == Saved(p)
    ensures (frames - p.samples) * (2 * p.channels) <= |p.ring.value| < (frames - p.samples + 1) * (2 * p.channels)
  {
    frames := RecordedLength(p);
  }

  // ----- RD and SR: start and stop a recording ------------------------------------------

  // An int keeps the low bits of an unsigned, with a sign.
  function AsInt(x: UInt32): Int32 {
    if x < 2147483648 then x else x - 4294967296
  }

  function Recording(p: RecordPort, length: UInt32): RecordPort {
    if p.ring.None? then p else p.(recording := true, timer := p.timer || 0 < length < 2147483648)
  }

  // Length and threshold are stored; only the owner starts the recording, and is told so.
  ghost predicate Starts(c: Config, st: State, next: State, id: Int32, cmd: Command)
    requires cmd.RD?
  {
    var k, no := Key(cmd.card, cmd.stream), Echo(cmd, false);
    var lock := LockAt(st, k);
    var st1 := st.(locks := st.locks[k := lock.(length := AsInt(cmd.length), threshold := cmd.threshold)]);
    if cmd.card >= |c.formats| then next == Answer(st, id, no)
    else if lock.owner != id then next == Answer(st1, id, no)
    else next == Answer(st1.(ports := st.ports[k := Recording(PortAt(st, k), cmd.length)]), id,
                        RS(cmd.card, cmd.stream))
  }

  lemma RecordCommand(c: Config, st: State, id: Int32, a: string, b: string, d: string, e: string, disk: Disk)
    requires Listens(c, st, id) && IsWord(a) && IsWord(b) && IsWord(d) && IsWord(e)
    ensures var words := ["RD", a, b, d, e];
            var next, st1 := Feed(c, st, id, Sentence(words) + "!", disk), Logged(st, id, words);
      if c.toUInt(a).None? || c.toUInt(b).None? || c.toUInt(d).None? || c.toInt(e).None? ||
          c.toUInt(a).value >= c.maxCards || c.toUInt(b).value >= c.streams
      then next == Answer(st1, id, Refused(words))
      else Starts(c, st1, next, id, RD(c.toUInt(a).value, c.toUInt(b).value, c.toUInt(d).value, c.toInt(e).value))
  {
    VerbAndWords("RD", [a, b, d, e]);
    assert ["RD"] + [a, b, d, e] == ["RD", a, b, d, e];
    RecordParses(c, a, b, d, e);
    RecordLine(c, st, id, ["RD", a, b, d, e], disk);
  }

  lemma RecordParses(c: Config, a: string, b: string, d: string, e: string)
    ensures Parse(c, ["RD", a, b, d, e]) ==
      if c.toUInt(a).None? || c.toUInt(b).None? || c.toUInt(d).None? || c.toInt(e).None? ||
          c.toUInt(a).value >= c.maxCards || c.toUInt(b).value >= c.streams
      then Unknown else RD(c.toUInt(a).value, c.toUInt(b).value, c.toUInt(d).value, c.toInt(e).value)
  {
  }

  lemma RecordLine(c: Config, st: State, id: Int32, words: seq<string>, disk: Disk)
    requires Listens(c, st, id) && AreWords(words) && IsPrivileged(words)
    requires Parse(c, words).RD? || Parse(c, words).Unknown?
    ensures var next, st1, cmd := Feed(c, st, id, Sentence(words) + "!", disk), Logged(st, id, words), Parse(c, words);
      if cmd.Unknown? then next == Answer(st1, id, Refused(words)) else Starts(c, st1, next, id, cmd)
  {
    var cmd := Parse(c, words);
    if cmd.Unknown? {
      UnknownRuns(c, st, id, words, disk);
    } else {
      RecordRuns(c, st, id, words, disk);
      RecordEffect(c, Logged(st, id, words), id, cmd);
    }
  }

  lemma RecordRuns(c: Config, st: State, id: Int32, words: seq<string>, disk: Disk)
    requires Listens(c, st, id) && AreWords(words) && IsPrivileged(words) && Parse(c, words).RD?
    ensures Inv(c, Logged(st, id, words))
    ensures Feed(c, st, id, Sentence(words) + "!", disk) ==
            StartRecording(c, Logged(st, id, words), id, Parse(c, words))
  {
    LineRuns(c, st, id, words, disk);
    ExecuteIs(c, Logged(st, id, words), id, words, disk);
  }

  lemma RecordEffect(c: Config, st: State, id: Int32, cmd: Command)
    requires Inv(c, st) && Live(st.connections, id) && cmd.RD?
    ensures Starts(c, st, StartRecording(c, st, id, cmd), id, cmd)
  {
    PortFound(c, st, Key(cmd.card, cmd.stream));
    RecordedEffect(c, st, id, cmd);
  }

  lemma RecordedEffect(c: Config, st: State, id: Int32, cmd: Command)
    requires id in st.connections && id != -1 && cmd.RD?
    requires LockAt(st, Key(cmd.card, cmd.stream)).owner == id ==> PortAt(st, Key(cmd.card, cmd.stream)).ring.Some?
    ensures Starts(c, st, StartRecording(c, st, id, cmd), id, cmd)
  {
  }

  // A port that records stops, whoever asks, and its owner is told.
  ghost predicate Ends(c: Config, st: State, next: State, id: Int32, cmd: Command)
    requires cmd.SR?
  {
    var k := Key(cmd.card, cmd.stream);
    var p := PortAt(st, k);
    if cmd.card >= |c.formats| then next == Answer(st, id, Echo(cmd, false))
    else if cmd.stream >= c.ports then next == st.(fault := true)
    else if !p.recording then next == Answer(st, id, Echo(cmd, false))
    else next == Answer(st.(ports := st.ports[k := p.(recording := false)]), LockAt(st, k).owner, Echo(cmd, true))
  }

  lemma StopRecordingCommand(c: Config, st: State, id: Int32, a: string, b: string, disk: Disk)
    requires Listens(c, st, id) && IsWord(a) && IsWord(b)
    ensures var words := ["SR", a, b];
            var next, st1 := Feed(c, st, id, Sentence(words) + "!", disk), Logged(st, id, words);
      if c.toUInt(a).None? || c.toUInt(b).None? ||
          c.toUInt(a).value >= c.maxCards || c.toUInt(b).value >= c.streams
      then next == Answer(st1, id, Refused(words))
      else Ends(c, st1, next, id, SR(c.toUInt(a).value, c.toUInt(b).value))
  {
    VerbAndWords("SR", [a, b]);
    assert ["SR"] + [a, b] == ["SR", a, b];
    StopRecordingParses(c, a, b);
    StopRecordingLine(c, st, id, ["SR", a, b], disk);
  }

  lemma StopRecordingParses(c: Config, a: string, b: string)
    ensures Parse(c, ["SR", a, b]) ==
      if c.toUInt(a).None? || c.toUInt(b).None? ||
          c.toUInt(a).value >= c.maxCards || c.toUInt(b).value >= c.streams
      then Unknown else SR(c.toUInt(a).value, c.toUInt(b).value)
  {
  }

  lemma StopRecordingLine(c: Config, st: State, id: Int32, words: seq<string>, disk: Disk)
    requires Listens(c, st, id) && AreWords(words) && IsPrivileged(words)
    requires Parse(c, words).SR? || Parse(c, words).Unknown?
    ensures var next, st1, cmd := Feed(c, st, id, Sentence(words) + "!", disk), Logged(st, id, words), Parse(c, words);
      if cmd.Unknown? then next == Answer(st1, id, Refused(words)) else Ends(c, st1, next, id, cmd)
  {
    var cmd := Parse(c, words);
    if cmd.Unknown? {
      UnknownRuns(c, st, id, words, disk);
    } else {
      StopRecordingRuns(c, st, id, words, disk);
      StopRecordingEffect(c, Logged(st, id, words), id, cmd);
    }
  }

  lemma StopRecordingRuns(c: Config, st: State, id: Int32, words: seq<string>, disk: Disk)
    requires Listens(c, st, id) && AreWords(words) && IsPrivileged(words) && Parse(c, words).SR?
    ensures Inv(c, Logged(st, id, words))
    ensures Feed(c, st, id, Sentence(words) + "!", disk) ==
            HaltRecording(c, Logged(st, id, words), id, Parse(c, words))
  {
    LineRuns(c, st, id, words, disk);
    ExecuteIs(c, Logged(st, id, words), id, words, disk);
  }

  lemma StopRecordingEffect(c: Config, st: State, id: Int32, cmd: Command)
    requires Inv(c, st) && Live(st.connections, id) && cmd.SR?
    ensures Ends(c, st, HaltRecording(c, st, id, cmd), id, cmd)
  {
    PortFound(c, st, Key(cmd.card, cmd.stream));
  }

  // ----- Other lines ------------------------------------------------------------------------------

  // The number of words of the commands above.
  function WordsOf(verb: string): nat {
    if verb == "UP" || verb == "SP" then 2
    else if verb == "PP" || verb == "UR" || verb == "SR" then 3
    else if verb == "IV" || verb == "FV" then 4
    else if verb == "LP" || verb == "PY" || verb == "RD" then 5
    else if verb == "LR" then 8
    else 0
  }

  // The commands on clocks, meters and the mixer.
  predicate Elsewhere(verb: string) {
    verb in ["TS", "OV", "IL", "OL", "IM", "OM", "IX", "IT", "IS", "AL", "CS", "ME"]
  }

  // Any other verb, and any other number of words, is refused with the words that came.
  lemma OtherLinesAreRefused(c: Config, st: State, id: Int32, words: seq<string>, disk: Disk)
    requires Listens(c, st, id) && AreWords(words) && IsPrivileged(words)
    requires !Elsewhere(words[0]) && |words| != WordsOf(words[0])
    ensures Feed(c, st, id, Sentence(words) + "!", disk) == Answer(Logged(st, id, words), id, Refused(words))
  {
    ParsesAsUnknown(c, words);
    UnknownRuns(c, st, id, words, disk);
  }

  lemma ParsesAsUnknown(c: Config, words: seq<string>)
    requires words != [] && !Elsewhere(words[0]) && |words| != WordsOf(words[0])
    ensures Parse(c, words).Unknown?
  {
    MixerIsElsewhere(words[0]);
  }

  lemma MixerIsElsewhere(verb: string)
    ensures IsMixer(verb) ==> Elsewhere(verb)
  {
  }

  // The right password admits a client, and another drops it.
  lemma LoginCommand(c: Config, st: State, id: Int32, a: string, disk: Disk)
    requires Inv(c, st) && Reading(st, id) && st.connections[id].accum == "" && IsWord(a)
    ensures var words := ["PW", a];
            var next, st1 := Feed(c, st, id, Sentence(words) + "!", disk), Logged(st, id, words);
      if a == c.password
      then next == Answer(st1.(connections := st.connections[id := Connection(true, true, "")]), id, Reply.PW(true))
      else id !in next.connections && next.sent == st.sent + [Message(id, Reply.PW(false))]
  {
    var words := ["PW", a];
    LineArrives(c, st, id, words, disk);
    LoginRuns(c, st, id, words, disk);
    LoginEffect(c, Logged(st, id, words), id, a);
  }

  lemma LoginRuns(c: Config, st: State, id: Int32, words: seq<string>, disk: Disk)
    requires Reading(st, id) && st.connections[id].accum == "" && words != [] && words[0] == "PW"
    requires Tokens(Sentence(words)) == words
    requires var (next, closing) := AfterPassword(c, Logged(st, id, words), id, words); !closing ==> !next.fault
    ensures Feed(c, Accumulate(st, id, Sentence(words)), id, "!", disk) ==
            AfterPassword(c, Logged(st, id, words), id, words).0
  {
    var st1 := Accumulate(st, id, Sentence(words));
    ReceivedIsLogged(st, id, words);
    assert "!"[1..] == "";
    assert TakeByte(c, st1, id, '!', disk) == AfterPassword(c, Logged(st, id, words), id, words);
  }

  lemma LoginEffect(c: Config, st: State, id: Int32, a: string)
    requires id in st.connections && st.connections[id].open && st.connections[id].accum == ""
    ensures var (next, closing) := AfterPassword(c, st, id, ["PW", a]);
      && closing == (a != c.password)
      && if a == c.password
         then next == Answer(st.(connections := st.connections[id := Connection(true, true, "")]), id, Reply.PW(true))
         else id !in next.connections && next.sent == st.sent + [Message(id, Reply.PW(false))]
  {
  }
}
