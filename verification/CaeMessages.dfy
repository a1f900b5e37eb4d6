// What clients hear of their streams: over every run of the daemon, two messages that a
// stream plays are separated by one that it stopped or was loaded.
module CaeMessages {
  import opened AlsaStream
  import opened AlsaCapture
  import opened PlaySessions
  import opened CaeModel
  import opened CaeInvariant
  import opened CaeRuns

  // PY+, SP+ and LP+ to a client about a serial number.
  predicate About(m: Message, sock: Int32, serial: UInt32) {
    && m.to == sock && m.text.Echo? && m.text.ok
    && (m.text.command.PY? || m.text.command.SP? || m.text.command.LP?) && m.text.command.serial == serial
  }

  predicate SaysPlaying(m: Message, sock: Int32, serial: UInt32) {
    About(m, sock, serial) && m.text.command.PY?
  }

  // The last of them said that the stream plays.
  predicate PlaysLast(sent: seq<Message>, sock: Int32, serial: UInt32) {
    sent != [] &&
    var m := sent[|sent| - 1];
    if About(m, sock, serial) then m.text.command.PY? else PlaysLast(sent[..|sent| - 1], sock, serial)
  }

  lemma LastIs(sent: seq<Message>, m: Message, sock: Int32, serial: UInt32)
    ensures PlaysLast(sent + [m], sock, serial) ==
            if About(m, sock, serial) then m.text.command.PY? else PlaysLast(sent, sock, serial)
  {
    assert (sent + [m])[..|sent|] == sent;
  }

  // ----- What is kept ------------------------------------------------------------------

  // Every session's client has last heard whether its stream plays.
  ghost predicate Told(st: State) {
    forall h :: h in st.sessions ==>
      PlaysLast(st.sent, st.sessions[h].sock, st.sessions[h].serial) == SlotAt(st, Place(st.sessions[h])).playing
  }

  // No message says of a stream that it plays when that was said last.
  ghost predicate Alternating(sent: seq<Message>) {
    forall i, sock, serial :: 0 <= i < |sent| && SaysPlaying(sent[i], sock, serial) ==>
      !PlaysLast(sent[..i], sock, serial)
  }

  ghost predicate Heard(st: State) {
    Told(st) && Alternating(st.sent)
  }

  lemma AlternatesOn(sent: seq<Message>, m: Message)
    requires Alternating(sent)
    requires forall sock, serial :: SaysPlaying(m, sock, serial) ==> !PlaysLast(sent, sock, serial)
    ensures Alternating(sent + [m])
  {
    var more := sent + [m];
    forall i, sock, serial | 0 <= i < |more| && SaysPlaying(more[i], sock, serial)
      ensures !PlaysLast(more[..i], sock, serial)
    {
      assert more[..i] == sent[..i];
      if i == |sent| {
        assert sent[..i] == sent;
      }
    }
  }

  // ----- Steps -----------------------------------------------------------------------------

  // Other messages.
  predicate Plain(m: Message) {
    m.text.Echo? && m.text.ok ==> !m.text.command.PY? && !m.text.command.SP? && !m.text.command.LP?
  }

  // Sessions stay or go, and streams keep playing or not.
  ghost predicate Same(st: State, next: State) {
    forall h :: h in next.sessions ==>
      && h in st.sessions && next.sessions[h].sock == st.sessions[h].sock
      && next.sessions[h].serial == st.sessions[h].serial
      && SlotAt(next, Place(next.sessions[h])).playing == SlotAt(st, Place(st.sessions[h])).playing
  }

  lemma SameHeard(st: State, next: State)
    requires Heard(st) && Same(st, next) && next.sent == st.sent
    ensures Heard(next)
  {
  }

  // At most one other message is sent.
  ghost predicate SaysPlain(st: State, next: State) {
    next.sent == st.sent || exists m :: Plain(m) && next.sent == st.sent + [m]
  }

  lemma PlainHeard(st: State, next: State)
    requires Heard(st) && Same(st, next) && SaysPlain(st, next)
    ensures Heard(next)
  {
    if next.sent != st.sent {
      var m :| Plain(m) && next.sent == st.sent + [m];
      forall sock, serial ensures PlaysLast(next.sent, sock, serial) == PlaysLast(st.sent, sock, serial) {
        LastIs(st.sent, m, sock, serial);
      }
      AlternatesOn(st.sent, m);
    }
  }

  lemma SendSays(st: State, id: Int32, r: Reply)
    requires Plain(Message(id, r))
    ensures SaysPlain(st, Send(st, id, r))
  {
  }

  // ----- Announcements ------------------------------------------------------------------

  // The one message of an announcement to the session h, whose slot is changed.
  lemma AnnouncedHeard(c: Config, st: State, h: UInt64, slot: Slot, m: Message)
    requires Inv(c, st) && Heard(st) && h in st.sessions
    requires About(m, st.sessions[h].sock, st.sessions[h].serial) && slot.playing == m.text.command.PY?
    requires m.text.command.PY? ==> !SlotAt(st, Place(st.sessions[h])).playing
    ensures Heard(WithSlot(st, Place(st.sessions[h]), slot).(sent := st.sent + [m]))
  {
    var next := WithSlot(st, Place(st.sessions[h]), slot).(sent := st.sent + [m]);
    forall g | g in st.sessions
      ensures PlaysLast(next.sent, st.sessions[g].sock, st.sessions[g].serial) ==
              SlotAt(next, Place(st.sessions[g])).playing
    {
      LastIs(st.sent, m, st.sessions[g].sock, st.sessions[g].serial);
      if g != h {
        OtherSession(c, st, g, h);
      }
    }
    AlternatesOn(st.sent, m);
  }

  lemma OtherSession(c: Config, st: State, g: UInt64, h: UInt64)
    requires Inv(c, st) && g in st.sessions && h in st.sessions && g != h
    ensures st.sessions[g].sock != st.sessions[h].sock || st.sessions[g].serial != st.sessions[h].serial
    ensures Place(st.sessions[g]) != Place(st.sessions[h])
  {
  }

  // A slot that comes to play or not is announced.
  lemma UpdateHeard(c: Config, st: State, k: Key, slot: Slot)
    requires Inv(c, st) && Heard(st) && (slot.ring.Some? <==> SlotAt(st, k).ring.Some?)
    requires slot.playing ==> !SlotAt(st, k).playing
    ensures Heard(StatePlayUpdate(WithSlot(st, k, slot), k, slot.playing))
  {
    SlotChangeKeeps(c, st, k, slot);
    if h :| h in st.sessions && Place(st.sessions[h]) == k {
      OwnerHeard(c, st, WithSlot(st, k, slot), h, slot);
    } else {
      NobodyHears(c, st, k, slot);
    }
  }

  lemma NobodyHears(c: Config, st: State, k: Key, slot: Slot)
    requires Inv(c, WithSlot(st, k, slot)) && Heard(st)
    requires forall h :: h in st.sessions ==> Place(st.sessions[h]) != k
    ensures Heard(StatePlayUpdate(WithSlot(st, k, slot), k, slot.playing))
  {
    PlayUpdateReachesOwner(c, WithSlot(st, k, slot), k, slot.playing);
    SameHeard(st, WithSlot(st, k, slot));
  }

  lemma OwnerHeard(c: Config, st: State, st1: State, h: UInt64, slot: Slot)
    requires Inv(c, st) && Inv(c, st1) && Heard(st) && h in st.sessions
    requires st1 == WithSlot(st, Place(st.sessions[h]), slot)
    requires slot.playing ==> !SlotAt(st, Place(st.sessions[h])).playing
    ensures Heard(StatePlayUpdate(st1, Place(st.sessions[h]), slot.playing))
  {
    var s := st.sessions[h];
    PlayUpdateReachesOwner(c, st1, Place(s), slot.playing);
    AnnouncedHeard(c, st, h, slot, Message(s.sock,
        Echo(if slot.playing then PY(s.serial, s.length, s.speed, 0) else SP(s.serial), true)));
  }

  // ----- Play commands ---------------------------------------------------------------------

  lemma LoadHeard(c: Config, st: State, id: Int32, cmd: Command, k: Key, slot: Slot)
    requires Inv(c, st) && Heard(st) && Live(st.connections, id) && cmd.LP? && k.card == cmd.card
    requires SlotAt(st, k).ring.None? && !slot.playing
    ensures Heard(AfterLoad(st, id, cmd, k, slot))
  {
    var next, h := AfterLoad(st, id, cmd, k, slot), MakeHandle(id, cmd.serial);
    var m := Message(id, Echo(cmd, true));
    NewSessionFields(id, cmd.serial, cmd.card, cmd.port, k.index);
    forall g | g in next.sessions
      ensures PlaysLast(next.sent, next.sessions[g].sock, next.sessions[g].serial) ==
              SlotAt(next, Place(next.sessions[g])).playing
    {
      LastIs(st.sent, m, next.sessions[g].sock, next.sessions[g].serial);
      if g != h {
        assert MakeHandle(st.sessions[g].sock, st.sessions[g].serial) == g;
        assert Place(st.sessions[g]) != k;
      }
    }
    AlternatesOn(st.sent, m);
  }

  lemma LoadedIsIdle(f: Format, s: Slot, w: Wave)
    requires s.ring.None?
    ensures !Step(f, s, Load(w)).stream.playing
  {
  }

  lemma LoadPlaybackHeard(c: Config, st: State, id: Int32, cmd: Command, disk: Disk)
    requires Inv(c, st) && Heard(st) && Live(st.connections, id) && cmd.LP?
    ensures Heard(LoadPlayback(c, st, id, cmd, disk))
  {
    if FindsStream(c, st, cmd, disk) && !LoadFaults(c, st, cmd, disk) {
      var slot := LoadPlaybackLoads(c, st, id, cmd, disk);
      var k := Key(cmd.card, FreeStream(c, st.slots, cmd.card, 0));
      LoadedIsIdle(c.formats[cmd.card], SlotAt(st, k), disk.waves[cmd.name]);
      LoadHeard(c, st, id, cmd, k, slot);
    } else {
      SendSays(st, id, Echo(cmd, false));
      PlainHeard(st, LoadPlayback(c, st, id, cmd, disk));
    }
  }

  lemma UnloadPlaybackHeard(c: Config, st: State, id: Int32, cmd: Command)
    requires Inv(c, st) && Heard(st) && Live(st.connections, id) && cmd.UP?
    ensures Heard(UnloadPlayback(c, st, id, cmd))
  {
    var next, h := UnloadPlayback(c, st, id, cmd), MakeHandle(id, cmd.serial);
    UnloadSays(c, st, id, cmd);
    if h in st.sessions {
      SessionFound(c, st, id, cmd.serial);
      UnloadSame(c, st, id, cmd);
    }
    PlainHeard(st, next);
  }

  lemma UnloadSame(c: Config, st: State, id: Int32, cmd: Command)
    requires Inv(c, st) && cmd.UP? && MakeHandle(id, cmd.serial) in st.sessions
    requires var s := st.sessions[MakeHandle(id, cmd.serial)]; IsSlot(c, Place(s)) && SlotAt(st, Place(s)).ring.Some?
    ensures Same(st, UnloadPlayback(c, st, id, cmd))
  {
    var h := MakeHandle(id, cmd.serial);
    UnloadedSame(c, st, UnloadPlayback(c, st, id, cmd), h, AfterUnload(SlotAt(st, Place(st.sessions[h]))));
  }

  lemma UnloadSays(c: Config, st: State, id: Int32, cmd: Command)
    requires id in st.connections && cmd.UP?
    ensures SaysPlain(st, UnloadPlayback(c, st, id, cmd))
  {
    assert Plain(Message(id, Echo(cmd, true))) && Plain(Message(id, Echo(cmd, false)));
  }

  lemma UnloadedSame(c: Config, st: State, next: State, h: UInt64, slot: Slot)
    requires Apart(st.sessions) && h in st.sessions && next.sessions == st.sessions - {h}
    requires next.slots == st.slots[Place(st.sessions[h]) := slot]
    ensures Same(st, next)
  {
  }

  lemma PlayPositionHeard(c: Config, st: State, id: Int32, cmd: Command)
    requires Inv(c, st) && Heard(st) && Live(st.connections, id) && cmd.PP?
    ensures Heard(PlayPosition(c, st, id, cmd))
  {
    var h := MakeHandle(id, cmd.serial);
    if h in st.sessions {
      SessionFound(c, st, id, cmd.serial);
      SeekOrFaultHeard(c.formats[st.sessions[h].card], st, id, Place(st.sessions[h]), cmd);
    } else {
      SendSays(st, id, Echo(cmd, false));
      PlainHeard(st, Send(st, id, Echo(cmd, false)));
    }
  }

  lemma SeekOrFaultHeard(f: Format, st: State, id: Int32, k: Key, cmd: Command)
    requires Heard(st) && cmd.PP?
    ensures Heard(SeekOrFault(f, st, id, k, cmd))
  {
    var s := SlotAt(st, k);
    if s.ring.None? || StepFaults(f, s, Seek(cmd.ms)) {
      SameHeard(st, st.(fault := true));
    } else {
      SeekKeepsPlaying(f, s, cmd.ms);
      SoughtHeard(st, id, cmd, CanSeek(f, s, cmd.ms), k, Step(f, s, Seek(cmd.ms)).stream);
    }
  }

  lemma SoughtHeard(st: State, id: Int32, cmd: Command, ok: bool, k: Key, slot: Slot)
    requires Heard(st) && cmd.PP? && slot.playing == SlotAt(st, k).playing
    ensures Heard(Send(WithSlot(st, k, slot), id, Echo(cmd, ok)))
  {
    var st1 := WithSlot(st, k, slot);
    assert Same(st, st1);
    SameHeard(st, st1);
    SendSays(st1, id, Echo(cmd, ok));
    PlainHeard(st1, Send(st1, id, Echo(cmd, ok)));
  }

  lemma SeekKeepsPlaying(f: Format, s: Slot, ms: nat)
    ensures Consistent(Step(f, s, Seek(ms)).stream) && Step(f, s, Seek(ms)).stream.playing == s.playing
  {
  }

  lemma StartPlaybackHeard(c: Config, st: State, id: Int32, cmd: Command)
    requires Inv(c, st) && Heard(st) && Live(st.connections, id) && cmd.PY?
    ensures Heard(StartPlayback(c, st, id, cmd))
  {
    var h := MakeHandle(id, cmd.serial);
    if h in st.sessions {
      SessionFound(c, st, id, cmd.serial);
      PlayOrRefuseHeard(c, st, id, h, cmd);
    } else {
      SendSays(st, id, Echo(cmd, false));
      PlainHeard(st, Send(st, id, Echo(cmd, false)));
    }
  }

  lemma PlayOrRefuseHeard(c: Config, st: State, id: Int32, h: UInt64, cmd: Command)
    requires Inv(c, st) && Heard(st) && Live(st.connections, id) && cmd.PY? && h in st.sessions
    ensures Heard(PlayOrRefuse(st, id, h, Place(st.sessions[h]), cmd))
  {
    var s := st.sessions[h].(length := cmd.length, speed := cmd.speed);
    StoredInv(c, st, h, s);
    StoredHeard(st, h, s);
    PlayedHeard(c, WithSession(st, h, s), id, cmd, Place(s));
  }

  lemma StoredHeard(st: State, h: UInt64, s: Session)
    requires Heard(st) && h in st.sessions && s == st.sessions[h].(length := s.length, speed := s.speed)
    ensures Heard(WithSession(st, h, s))
  {
    SameHeard(st, WithSession(st, h, s));
  }

  lemma StoredInv(c: Config, st: State, h: UInt64, s: Session)
    requires Inv(c, st) && h in st.sessions && s == st.sessions[h].(length := s.length, speed := s.speed)
    ensures Inv(c, WithSession(st, h, s))
  {
    UpdatedSessions(c, st.connections, st.sessions, st.slots, h, s);
    SamePlaces(st.sessions, h, s);
  }

  lemma PlayedHeard(c: Config, st: State, id: Int32, cmd: Command, k: Key)
    requires Inv(c, st) && Heard(st) && Live(st.connections, id) && cmd.PY?
    ensures Heard(PlayStored(st, id, k, cmd))
  {
    if CanPlay(SlotAt(st, k), cmd.speed) {
      UpdateHeard(c, st, k, AfterPlay(SlotAt(st, k), Signed(cmd.length)));
    } else {
      SendSays(st, id, Echo(cmd, false));
      PlainHeard(st, Send(st, id, Echo(cmd, false)));
    }
  }

  lemma StopPlaybackHeard(c: Config, st: State, id: Int32, cmd: Command)
    requires Inv(c, st) && Heard(st) && Live(st.connections, id) && cmd.SP?
    ensures Heard(StopPlayback(c, st, id, cmd))
  {
    var h, st1 := MakeHandle(id, cmd.serial), Send(st, id, Echo(cmd, false));
    SendSays(st, id, Echo(cmd, false));
    PlainHeard(st, st1);
    if h in st.sessions {
      SessionFound(c, st, id, cmd.serial);
      var k := Place(st.sessions[h]);
      if CanStop(SlotAt(st, k)) {
        UpdateHeard(c, st, k, AfterStop(SlotAt(st, k)));
      }
    } else {
      SendSays(st1, id, Echo(cmd, false));
      PlainHeard(st1, Send(st1, id, Echo(cmd, false)));
    }
  }

  lemma PlayCommandHeard(c: Config, st: State, id: Int32, cmd: Command, disk: Disk)
    requires Inv(c, st) && Heard(st) && Live(st.connections, id) && IsPlay(cmd)
    ensures Heard(PlayCommand(c, st, id, cmd, disk))
  {
    if cmd.LP? {
      LoadPlaybackHeard(c, st, id, cmd, disk);
    } else if cmd.UP? {
      UnloadPlaybackHeard(c, st, id, cmd);
    } else if cmd.PP? {
      PlayPositionHeard(c, st, id, cmd);
    } else if cmd.PY? {
      StartPlaybackHeard(c, st, id, cmd);
    } else {
      StopPlaybackHeard(c, st, id, cmd);
    }
  }

  // ----- Other steps -----------------------------------------------------------------------

  lemma RecordCommandSays(c: Config, st: State, id: Int32, cmd: Command, disk: Disk)
    requires IsRecord(cmd)
    ensures SaysPlain(st, RecordCommand(c, st, id, cmd, disk))
  {
    if cmd.LR? {
      LoadRecordingSays(c, st, id, cmd, disk);
    } else if cmd.UR? {
      UnloadRecordingSays(c, st, id, cmd);
    } else if cmd.RD? {
      StartRecordingSays(c, st, id, cmd);
    } else {
      HaltRecordingSays(c, st, id, cmd);
    }
  }

  lemma LoadRecordingSays(c: Config, st: State, id: Int32, cmd: Command, disk: Disk)
    requires cmd.LR?
    ensures SaysPlain(st, LoadRecording(c, st, id, cmd, disk))
  {
    assert Plain(Message(id, Echo(cmd, false))) && Plain(Message(id, Echo(cmd, true)));
  }

  lemma UnloadRecordingSays(c: Config, st: State, id: Int32, cmd: Command)
    requires cmd.UR?
    ensures SaysPlain(st, UnloadRecording(c, st, id, cmd))
  {
    assert Plain(Message(id, Echo(cmd, false)));
    forall ms: nat ensures Plain(Message(id, Length(cmd.card, cmd.stream, ms))) {
    }
  }

  lemma StartRecordingSays(c: Config, st: State, id: Int32, cmd: Command)
    requires cmd.RD?
    ensures SaysPlain(st, StartRecording(c, st, id, cmd))
  {
    SendSays(st, id, Echo(cmd, false));
    var k := Key(cmd.card, cmd.stream);
    var lock := LockAt(st, k).(length := Signed(cmd.length), threshold := cmd.threshold);
    RecordOrRefuseSays(WithLock(st, k, lock), id, k, cmd);
  }

  lemma RecordOrRefuseSays(st: State, id: Int32, k: Key, cmd: Command)
    requires cmd.RD?
    ensures SaysPlain(st, RecordOrRefuse(st, id, k, cmd))
  {
    SendSays(st, id, Echo(cmd, false));
    if PortAt(st, k).ready {
      RecordUpdateSays(st, k, AfterRecord(PortAt(st, k), Signed(cmd.length)), true);
    }
  }

  lemma HaltRecordingSays(c: Config, st: State, id: Int32, cmd: Command)
    requires cmd.SR?
    ensures SaysPlain(st, HaltRecording(c, st, id, cmd))
  {
    SendSays(st, id, Echo(cmd, false));
    var k := Key(cmd.card, cmd.stream);
    RecordUpdateSays(st, k, PortAt(st, k).(recording := false), false);
  }

  lemma RecordUpdateSays(st: State, k: Key, p: RecordPort, started: bool)
    ensures SaysPlain(st, StateRecordUpdate(WithPort(st, k, p), k, started))
  {
    var owner := LockAt(st, k).owner;
    assert Plain(Message(owner, if started then RS(k.card, k.index) else Echo(SR(k.card, k.index), true)));
  }

  lemma ExecuteHeard(c: Config, st: State, id: Int32, t: seq<string>, disk: Disk)
    requires Inv(c, st) && Heard(st) && Live(st.connections, id) && t != []
    ensures Heard(Execute(c, st, id, t, disk))
  {
    var cmd := Parse(c, t);
    if IsPlay(cmd) {
      PlayCommandHeard(c, st, id, cmd, disk);
    } else if IsRecord(cmd) {
      RecordCommandSays(c, st, id, cmd, disk);
      PlainHeard(st, RecordCommand(c, st, id, cmd, disk));
    } else {
      OthersSay(c, st, id, t, disk);
      PlainHeard(st, Execute(c, st, id, t, disk));
    }
  }

  lemma OthersSay(c: Config, st: State, id: Int32, t: seq<string>, disk: Disk)
    requires t != [] && !IsPlay(Parse(c, t)) && !IsRecord(Parse(c, t))
    ensures var next := Execute(c, st, id, t, disk);
            SaysPlain(st, next) && next.sessions == st.sessions && next.slots == st.slots
  {
    var cmd := Parse(c, t);
    if cmd.IV? {
      InputSays(c, st, id, cmd);
    } else if cmd.FV? {
      FadeSays(c, st, id, cmd);
    } else {
      SendSays(st, id, Refused(t));
    }
  }

  lemma InputSays(c: Config, st: State, id: Int32, cmd: Command)
    requires cmd.IV?
    ensures SaysPlain(st, SetInputVolume(c, st, id, cmd))
  {
    SendSays(st, id, Echo(cmd, false));
    SendSays(st, id, Echo(cmd, true));
  }

  lemma FadeSays(c: Config, st: State, id: Int32, cmd: Command)
    requires cmd.FV?
    ensures SaysPlain(st, FadeOutputVolume(c, st, id, cmd))
  {
    SendSays(st, id, Echo(cmd, false));
    SendSays(st, id, Echo(cmd, true));
  }

  lemma CloseHeard(c: Config, st: State, id: Int32)
    requires Inv(c, st) && Heard(st)
    ensures Heard(CloseConnection(st, id))
  {
    var next := CloseConnection(st, id);
    forall h | h in next.sessions
      ensures SlotAt(next, Place(next.sessions[h])) == SlotAt(st, Place(st.sessions[h]))
    {
      OtherPlace(st.sessions, st.slots, id, h);
    }
    SameHeard(st, next);
  }

  lemma PasswordHeard(c: Config, st: State, id: Int32, t: seq<string>)
    requires Inv(c, st) && Heard(st) && id in st.connections
    ensures Heard(AfterPassword(c, st, id, t).0)
  {
    var ok := |t| == 2 && t[1] == c.password;
    var conn := st.connections[id].(authenticated := ok);
    var st1 := Authenticate(st, id, ok);
    assert Plain(Message(id, CaeModel.Reply.PW(ok)));
    PlainHeard(st, st1);
    if !ok {
      CloseHeard(c, st, id);
      CloseAnyway(st, id, conn, st1.sent);
      PlainHeard(CloseConnection(st, id), CloseConnection(st1, id));
    }
  }

  lemma PerformHeard(c: Config, st: State, id: Int32, t: seq<string>, disk: Disk)
    requires Inv(c, st) && Heard(st) && id > 0 && id in st.connections && t != []
    ensures Heard(Perform(c, st, id, t, disk).0)
  {
    if t[0] == "DC" {
      ConnectionHeard(st, id, st.connections[id].(open := false));
    } else if t[0] == "PW" {
      PasswordHeard(c, st, id, t);
    } else if !st.connections[id].authenticated {
      CloseHeard(c, st, id);
    } else {
      ExecuteHeard(c, st, id, t, disk);
    }
  }

  lemma ByteHeard(c: Config, st: State, id: Int32, ch: char, disk: Disk)
    requires Inv(c, st) && Heard(st) && id > 0 && id in st.connections
    ensures Heard(TakeByte(c, st, id, ch, disk).0)
  {
    if ch == '!' {
      CommandHeard(c, st, id, disk);
    } else if ch != '\n' && ch != '\r' {
      ConnectionHeard(st, id, st.connections[id].(accum := st.connections[id].accum + [ch]));
    }
  }

  lemma ConnectionHeard(st: State, id: Int32, conn: Connection)
    requires Heard(st)
    ensures Heard(st.(connections := st.connections[id := conn]))
  {
    SameHeard(st, st.(connections := st.connections[id := conn]));
  }

  lemma CommandHeard(c: Config, st: State, id: Int32, disk: Disk)
    requires Inv(c, st) && Heard(st) && id > 0 && id in st.connections
    ensures Heard(ProcessCommand(c, st, id, disk).0)
  {
    var t := Tokens(st.connections[id].accum);
    if t != [] {
      ReceivedHeard(c, st, id, t);
      PerformHeard(c, Received(st, id, t), id, t, disk);
    }
  }

  lemma ReceivedHeard(c: Config, st: State, id: Int32, t: seq<string>)
    requires Inv(c, st) && Heard(st) && id in st.connections
    ensures Inv(c, Received(st, id, t)) && Heard(Received(st, id, t))
  {
    ConnectionKept(c, st, id, st.connections[id].(accum := ""));
    SameHeard(st, Received(st, id, t));
  }

  lemma {:induction false} FeedHeard(c: Config, st: State, id: Int32, data: string, disk: Disk)
    requires Inv(c, st) && Heard(st) && id > 0
    ensures Heard(Feed(c, st, id, data, disk))
    decreases |data|
  {
    if data != "" && Reading(st, id) {
      ByteGood(c, st, id, data[0], disk);
      ByteHeard(c, st, id, data[0], disk);
      FeedHeard(c, TakeByte(c, st, id, data[0], disk).0, id, data[1..], disk);
    }
  }

  // ----- Driver events ---------------------------------------------------------------------

  lemma StepPlays(f: Format, s: Slot, e: Event)
    requires FromDriver(e)
    ensures var o := Step(f, s, e);
            if Stopped in o.notes then !o.stream.playing else o.stream.playing == s.playing
  {
  }

  lemma SlotStepHeard(c: Config, st: State, k: Key, e: Event)
    requires Inv(c, st) && Heard(st) && IsSlot(c, k) && FromDriver(e)
    ensures Heard(SlotStep(c, st, k, e))
  {
    if StepFaults(c.formats[k.card], SlotAt(st, k), e) {
      SameHeard(st, SlotStep(c, st, k, e));
    } else {
      var slot, stopped := SlotStepServes(c, st, k, e);
      StepPlays(c.formats[k.card], SlotAt(st, k), e);
      ServedHeard(c, st, SlotStep(c, st, k, e), k, slot, stopped);
    }
  }

  lemma ServedHeard(c: Config, st: State, next: State, k: Key, slot: Slot, stopped: bool)
    requires Inv(c, st) && Heard(st) && (slot.ring.Some? <==> SlotAt(st, k).ring.Some?)
    requires Served(c, st, next, k, slot, stopped)
    requires if stopped then !slot.playing else slot.playing == SlotAt(st, k).playing
    ensures Heard(next)
  {
    if stopped {
      UpdateHeard(c, st, k, slot);
    } else {
      SameHeard(st, next);
    }
  }

  lemma PortStepHeard(c: Config, st: State, k: Key, e: CaptureEvent)
    requires Heard(st)
    ensures Heard(PortStep(c, st, k, e))
  {
    RecordUpdateSays(st, k, CaptureStep(PortAt(st, k), e), false);
    PlainHeard(st, PortStep(c, st, k, e));
  }

  lemma NextHeard(c: Config, st: State, e: Happening)
    requires Inv(c, st) && Heard(st)
    ensures Heard(Next(c, st, e))
  {
    if !st.fault {
      match e {
        case Connect(id) => ConnectionHeard(st, id, Connection(false, true, ""));
        case Bytes(id, data, disk) => FeedHeard(c, st, id, data, disk);
        case Disconnect(id) => CloseHeard(c, st, id);
        case AtSlot(_, _) => DriverHeard(c, st, e);
        case AtPort(_, _) => DriverHeard(c, st, e);
      }
    }
  }

  lemma DriverHeard(c: Config, st: State, e: Happening)
    requires Inv(c, st) && Heard(st) && (e.AtSlot? || e.AtPort?)
    ensures Heard(Next(c, st, e))
  {
    if st.fault {
      return;
    }
    NextIsStep(c, st, e);
    if e.AtPort? {
      PortStepHeard(c, st, e.k, e.step);
    } else if IsSlot(c, e.k) && FromDriver(e.event) {
      SlotStepHeard(c, st, e.k, e.event);
    }
  }

  lemma {:induction false} TraceHeard(c: Config, st: State, events: seq<Happening>)
    requires Inv(c, st) && Heard(st)
    ensures Heard(Trace(c, st, events))
    decreases |events|
  {
    if events != [] {
      if !st.fault {
        NextGood(c, st, events[0]);
      }
      NextHeard(c, st, events[0]);
      TraceHeard(c, Next(c, st, events[0]), events[1..]);
    }
  }

  // ----- What clients hear -------------------------------------------------------------------

  // If nothing about the stream was sent after message i, that was the last.
  lemma {:induction false} LastSaid(sent: seq<Message>, i: nat, sock: Int32, serial: UInt32)
    requires i < |sent| && SaysPlaying(sent[i], sock, serial)
    requires forall n :: i < n < |sent| ==> !About(sent[n], sock, serial) || SaysPlaying(sent[n], sock, serial)
    ensures PlaysLast(sent, sock, serial)
    decreases |sent|
  {
    if i < |sent| - 1 && !About(sent[|sent| - 1], sock, serial) {
      LastSaid(sent[..|sent| - 1], i, sock, serial);
    }
  }

  // In every run, between two messages to a client that the stream of a serial number
  // plays there is one that it stopped or was loaded; and the client of every session
  // has last heard whether its stream plays.
  lemma PlayingIsSaidOnce(c: Config, events: seq<Happening>, i: nat, j: nat, sock: Int32, serial: UInt32)
    requires i < j < |Trace(c, INITIAL, events).sent|
    requires SaysPlaying(Trace(c, INITIAL, events).sent[i], sock, serial)
    requires SaysPlaying(Trace(c, INITIAL, events).sent[j], sock, serial)
    ensures var sent := Trace(c, INITIAL, events).sent;
            exists n :: i < n < j && About(sent[n], sock, serial) && !SaysPlaying(sent[n], sock, serial)
  {
    TraceHeard(c, INITIAL, events);
    var sent := Trace(c, INITIAL, events).sent;
    if forall n :: i < n < j ==> !About(sent[n], sock, serial) || SaysPlaying(sent[n], sock, serial) {
      LastSaid(sent[..j], i, sock, serial);
    }
  }

  lemma ClientsAreTold(c: Config, events: seq<Happening>, h: UInt64)
    requires h in Trace(c, INITIAL, events).sessions
    ensures var st := Trace(c, INITIAL, events);
            var s := st.sessions[h];
            PlaysLast(st.sent, s.sock, s.serial) == SlotAt(st, Place(s)).playing
  {
    TraceHeard(c, INITIAL, events);
  }
}
