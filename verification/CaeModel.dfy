// The Core Audio Engine daemon as a reactive system: what each command, driver event,
// connection and disconnection does to its state (cae/cae.cpp, cae/cae_server.cpp and
// cae/driver_alsa.cpp).  Cards 0 to |formats| - 1 are served by one ALSA driver, and
// the other card numbers have no driver.
module CaeModel {
  import opened Wrappers
  import opened AlsaStream
  import opened AlsaCapture
  import opened PlaySessions

  // A card number with a stream or port number.
  datatype Key = Key(card: nat, index: nat)

  type Slot = s: Stream | Consistent(s) witness IDLE
  type RecordPort = p: Port | PortConsistent(p) witness UNUSED

  // rate is the system sample rate; toUInt and toInt are the number parsers; testing
  // says that output streams are being tested, which leaves the mixer alone.
  datatype Setup = Setup(
    formats: seq<Format>,
    maxCards: nat,
    streams: nat,
    ports: nat,
    rate: nat,
    password: string,
    testing: bool,
    toUInt: string -> Option<UInt32>,
    toInt: string -> Option<Int32>)

  type Config = c: Setup | |c.formats| <= c.maxCards && c.ports <= c.streams && c.rate >= 1
    witness Setup([], 0, 0, 0, 1, "", false, _ => None, _ => None)

  // The audio store when a command runs: the waves that open, and the names under
  // which a recording can be created.
  datatype Disk = Disk(waves: map<string, Wave>, writable: set<string>)

  datatype Connection = Connection(authenticated: bool, open: bool, accum: string)

  const NOBODY: Int32 := -1

  datatype Lock = Lock(owner: Int32, length: Int32, threshold: Int32)

  const UNLOCKED := Lock(NOBODY, 0, -10000)

  datatype Command =
    | LP(serial: UInt32, card: nat, port: nat, name: string)
    | UP(serial: UInt32)
    | PP(serial: UInt32, ms: UInt32)
    | PY(serial: UInt32, length: UInt32, speed: UInt32, pitch: UInt32)
    | SP(serial: UInt32)
    | LR(card: nat, port: nat, coding: UInt32, channels: UInt32, rate: UInt32, bits: UInt32, name: string)
    | UR(card: nat, stream: nat)
    | RD(card: nat, stream: nat, length: UInt32, threshold: Int32)
    | SR(card: nat, stream: nat)
    | IV(card: nat, stream: nat, level: Int32)
    | FV(serial: UInt32, level: Int32, length: UInt32)
    | Mixer
    | Unknown

  // Replies echo the command with + or -; unloading a recording reports its length.
  datatype Reply =
    | Echo(command: Command, ok: bool)
    | Length(card: nat, stream: nat, ms: nat)
    | RS(card: nat, stream: nat)
    | PW(ok: bool)
    | Refused(tokens: seq<string>)

  datatype Message = Message(to: Int32, text: Reply)

  // Slots, locks and ports that are not mentioned have their initial values.
  // log, sent and reloads record the history: the commands dispatched, the messages
  // written and the loads onto a serial number that was in use.  fault says that the
  // daemon has used a null pointer, an index outside an array or the memory behind the
  // transfer buffer, or has divided by zero; what it does then is not modelled.
  datatype State = State(
    connections: map<Int32, Connection>,
    sessions: map<UInt64, Session>,
    slots: map<Key, Slot>,
    locks: map<Key, Lock>,
    ports: map<Key, RecordPort>,
    log: seq<(Int32, seq<string>)>,
    sent: seq<Message>,
    reloads: nat,
    fault: bool)

  const INITIAL := State(map[], map[], map[], map[], map[], [], [], 0, false)

  function SlotIn(slots: map<Key, Slot>, k: Key): Slot {
    if k in slots then slots[k] else IDLE
  }

  function PortIn(ports: map<Key, RecordPort>, k: Key): RecordPort {
    if k in ports then ports[k] else UNUSED
  }

  function LockIn(locks: map<Key, Lock>, k: Key): Lock {
    if k in locks then locks[k] else UNLOCKED
  }

  function SlotAt(st: State, k: Key): Slot {
    SlotIn(st.slots, k)
  }

  function PortAt(st: State, k: Key): RecordPort {
    PortIn(st.ports, k)
  }

  function LockAt(st: State, k: Key): Lock {
    LockIn(st.locks, k)
  }

  function Place(s: Session): Key {
    Key(s.card, s.stream)
  }

  function WithSlot(st: State, k: Key, s: Slot): State {
    st.(slots := st.slots[k := s])
  }

  function WithPort(st: State, k: Key, p: RecordPort): State {
    st.(ports := st.ports[k := p])
  }

  function WithLock(st: State, k: Key, lock: Lock): State {
    st.(locks := st.locks[k := lock])
  }

  function WithSession(st: State, h: UInt64, s: Session): State {
    st.(sessions := st.sessions[h := s])
  }

  function WithoutSession(st: State, h: UInt64): State {
    st.(sessions := st.sessions - {h})
  }

  // A load files its session, and counts if the serial number was in use.
  function Enlist(st: State, h: UInt64, s: Session): State {
    WithSession(st, h, s).(reloads := st.reloads + if h in st.sessions then 1 else 0)
  }

  // ----- Messages ------------------------------------------------------------------

  function Send(st: State, id: Int32, r: Reply): (next: State)
    ensures Quiet(st, next) && next == st.(sent := next.sent, fault := next.fault)
  {
    if id in st.connections then st.(sent := st.sent + [Message(id, r)]) else st.(fault := true)
  }

  // Commands and driver events neither dispatch commands nor touch the connections.
  predicate Quiet(st: State, next: State) {
    next.log == st.log && next.connections == st.connections
  }

  // GetPlayHandle: the session at a place, or 0 if there is none.
  ghost function GetPlayHandle(sessions: map<UInt64, Session>, k: Key): (h: UInt64)
    ensures (h in sessions && Place(sessions[h]) == k) ||
            (h == 0 && forall g :: g in sessions ==> Place(sessions[g]) != k)
  {
    if exists h :: h in sessions && Place(sessions[h]) == k
    then var h :| h in sessions && Place(sessions[h]) == k; h
    else 0
  }

  ghost function StatePlayUpdate(st: State, k: Key, playing: bool): (next: State)
    ensures Quiet(st, next) && next == st.(sent := next.sent, fault := next.fault)
  {
    var h := GetPlayHandle(st.sessions, k);
    if h !in st.sessions then st
    else
      var s := st.sessions[h];
      Send(st, SocketDescriptor(h),
           Echo(if playing then PY(SerialNumber(h), s.length, s.speed, 0) else SP(SerialNumber(h)), true))
  }

  function StateRecordUpdate(st: State, k: Key, started: bool): (next: State)
    ensures Quiet(st, next) && next == st.(sent := next.sent, fault := next.fault)
  {
    var owner := LockAt(st, k).owner;
    if owner == NOBODY then st
    else Send(st, owner, if started then RS(k.card, k.index) else Echo(SR(k.card, k.index), true))
  }

  // ----- Play commands ---------------------------------------------------------------

  // The first stream of a card from j on that has no ring.
  function FreeStream(c: Config, slots: map<Key, Slot>, card: nat, j: nat): nat
    decreases c.streams - j
  {
    if j >= c.streams || SlotIn(slots, Key(card, j)).ring.None? then j else FreeStream(c, slots, card, j + 1)
  }

  function LoadPlayback(c: Config, st: State, id: Int32, cmd: Command, disk: Disk): (next: State)
    requires cmd.LP?
    ensures Quiet(st, next) && next.locks == st.locks && next.ports == st.ports
  {
    if cmd.card >= |c.formats| then Send(st, id, Echo(cmd, false))
    else
      var f := c.formats[cmd.card];
      var j := FreeStream(c, st.slots, cmd.card, 0);
      if f.exiting || j >= c.streams || cmd.name !in disk.waves then Send(st, id, Echo(cmd, false))
      else if FaultsAtLoad(f, disk.waves[cmd.name]) then st.(fault := true)
      else
        var k := Key(cmd.card, j);
        AfterLoad(st, id, cmd, k, Step(f, SlotAt(st, k), Load(disk.waves[cmd.name])).stream)
  }

  function AfterLoad(st: State, id: Int32, cmd: Command, k: Key, s: Slot): (next: State)
    requires cmd.LP?
    ensures Quiet(st, next) && next.locks == st.locks && next.ports == st.ports
  {
    var h := MakeHandle(id, cmd.serial);
    Send(Enlist(WithSlot(st, k, s), h, NewSession(h, cmd.card, cmd.port, k.index)), id, Echo(cmd, true))
  }

  function UnloadPlayback(c: Config, st: State, id: Int32, cmd: Command): (next: State)
    requires cmd.UP?
    ensures Quiet(st, next) && next.locks == st.locks && next.ports == st.ports
  {
    var h := MakeHandle(id, cmd.serial);
    if h !in st.sessions || st.sessions[h].card >= |c.formats| then Send(st, id, Echo(cmd, false))
    else
      UnloadSession(st, id, h, Place(st.sessions[h]), cmd)
  }

  function UnloadSession(st: State, id: Int32, h: UInt64, k: Key, cmd: Command): (next: State)
    requires cmd.UP?
    ensures Quiet(st, next) && next.locks == st.locks && next.ports == st.ports && next.sessions == st.sessions - {h}
    ensures var s := SlotAt(st, k);
            next.slots == if s.ring.Some? then st.slots[k := AfterUnload(s)] else st.slots
  {
    var s := SlotAt(st, k);
    var done := if s.ring.Some? then WithSlot(st, k, AfterUnload(s)) else st;
    WithoutSession(Send(done, id, Echo(cmd, s.ring.Some?)), h)
  }

  function PlayPosition(c: Config, st: State, id: Int32, cmd: Command): (next: State)
    requires cmd.PP?
    ensures Quiet(st, next) && next.locks == st.locks && next.ports == st.ports
  {
    var h := MakeHandle(id, cmd.serial);
    if h !in st.sessions || st.sessions[h].card >= |c.formats| then Send(st, id, Echo(cmd, false))
    else
      SeekOrFault(c.formats[st.sessions[h].card], st, id, Place(st.sessions[h]), cmd)
  }

  function SeekOrFault(f: Format, st: State, id: Int32, k: Key, cmd: Command): (next: State)
    requires cmd.PP?
    ensures Quiet(st, next) && next.locks == st.locks && next.ports == st.ports
  {
    var s := SlotAt(st, k);
    if s.ring.None? || StepFaults(f, s, Seek(cmd.ms)) then st.(fault := true)
    else
      Send(WithSlot(st, k, Step(f, s, Seek(cmd.ms)).stream), id, Echo(cmd, CanSeek(f, s, cmd.ms)))
  }

  ghost function StartPlayback(c: Config, st: State, id: Int32, cmd: Command): (next: State)
    requires cmd.PY?
    ensures Quiet(st, next) && next.locks == st.locks && next.ports == st.ports
  {
    var h := MakeHandle(id, cmd.serial);
    if h !in st.sessions || st.sessions[h].card >= |c.formats| then Send(st, id, Echo(cmd, false))
    else
      PlayOrRefuse(st, id, h, Place(st.sessions[h]), cmd)
  }

  ghost function PlayOrRefuse(st: State, id: Int32, h: UInt64, k: Key, cmd: Command): (next: State)
    requires cmd.PY? && h in st.sessions
    ensures Quiet(st, next) && next.locks == st.locks && next.ports == st.ports
    ensures var s := SlotAt(st, k);
            next.slots == if CanPlay(s, cmd.speed) then st.slots[k := AfterPlay(s, Signed(cmd.length))] else st.slots
  {
    PlayStored(WithSession(st, h, st.sessions[h].(length := cmd.length, speed := cmd.speed)), id, k, cmd)
  }

  // Length and speed are stored before the driver is asked.
  ghost function PlayStored(st: State, id: Int32, k: Key, cmd: Command): (next: State)
    requires cmd.PY?
    ensures Quiet(st, next) && next.locks == st.locks && next.ports == st.ports && next.sessions == st.sessions
    ensures var s := SlotAt(st, k);
            next.slots == if CanPlay(s, cmd.speed) then st.slots[k := AfterPlay(s, Signed(cmd.length))] else st.slots
  {
    var s := SlotAt(st, k);
    if CanPlay(s, cmd.speed)
    then StatePlayUpdate(WithSlot(st, k, AfterPlay(s, Signed(cmd.length))), k, true)
    else Send(st, id, Echo(cmd, false))
  }

  // Stopping a session that does not exist is refused twice.
  ghost function StopPlayback(c: Config, st: State, id: Int32, cmd: Command): (next: State)
    requires cmd.SP?
    ensures Quiet(st, next) && next.locks == st.locks && next.ports == st.ports
  {
    var h := MakeHandle(id, cmd.serial);
    if h !in st.sessions || st.sessions[h].card >= |c.formats|
    then Send(Send(st, id, Echo(cmd, false)), id, Echo(cmd, false))
    else
      StopOrRefuse(st, id, Place(st.sessions[h]), cmd)
  }

  ghost function StopOrRefuse(st: State, id: Int32, k: Key, cmd: Command): (next: State)
    requires cmd.SP?
    ensures Quiet(st, next) && next.locks == st.locks && next.ports == st.ports
    ensures var s := SlotAt(st, k);
            next.slots == if CanStop(s) then st.slots[k := AfterStop(s)] else st.slots
  {
    var s := SlotAt(st, k);
    if CanStop(s)
    then StatePlayUpdate(WithSlot(st, k, AfterStop(s)), k, false)
    else Send(st, id, Echo(cmd, false))
  }

  // ----- Record commands ---------------------------------------------------------------

  // The driver accepts 16-bit PCM recordings of one or two channels.
  predicate CanRecord(cmd: Command, disk: Disk)
    requires cmd.LR?
  {
    cmd.coding == 0 && 1 <= cmd.channels <= 2 && cmd.rate > 0 && cmd.name in disk.writable
  }

  function LoadRecording(c: Config, st: State, id: Int32, cmd: Command, disk: Disk): (next: State)
    requires cmd.LR?
    ensures Quiet(st, next) && next.slots == st.slots && next.sessions == st.sessions
  {
    var k := Key(cmd.card, cmd.port);
    var lock := LockAt(st, k);
    if cmd.card >= |c.formats| || lock.owner != NOBODY || !CanRecord(cmd, disk) then Send(st, id, Echo(cmd, false))
    else
      Send(WithLock(WithPort(st, k, AfterLoadRecord(PortAt(st, k), cmd.channels)), k, lock.(owner := id)), id,
          Echo(cmd, true))
  }

  function Milliseconds(c: Config, frames: nat): nat {
    frames * 1000 / c.rate
  }

  function UnloadRecording(c: Config, st: State, id: Int32, cmd: Command): (next: State)
    requires cmd.UR?
    ensures Quiet(st, next) && next.slots == st.slots && next.sessions == st.sessions
  {
    var k := Key(cmd.card, cmd.stream);
    var owner := LockAt(st, k).owner;
    if cmd.card >= |c.formats| || (owner != NOBODY && owner != id) then Send(st, id, Echo(cmd, false))
    else UnloadOrFault(c, st, id, k)
  }

  function UnloadOrFault(c: Config, st: State, id: Int32, k: Key): (next: State)
    ensures Quiet(st, next) && next.slots == st.slots && next.sessions == st.sessions
  {
    var p := PortAt(st, k);
    if k.index >= c.ports || p.ring.None? then st.(fault := true)
    else
      Send(WithLock(WithPort(st, k, AfterUnloadRecord(p)), k, LockAt(st, k).(owner := NOBODY)), id,
           Length(k.card, k.index, Milliseconds(c, RecordedLength(p))))
  }

  // Length and threshold are stored before the owner is checked.
  function StartRecording(c: Config, st: State, id: Int32, cmd: Command): (next: State)
    requires cmd.RD?
    ensures Quiet(st, next) && next.slots == st.slots && next.sessions == st.sessions
  {
    var k := Key(cmd.card, cmd.stream);
    var lock := LockAt(st, k);
    if cmd.card >= |c.formats| then Send(st, id, Echo(cmd, false))
    else
      RecordOrRefuse(WithLock(st, k, lock.(length := Signed(cmd.length), threshold := cmd.threshold)), id, k, cmd)
  }

  function RecordOrRefuse(st: State, id: Int32, k: Key, cmd: Command): (next: State)
    requires cmd.RD?
    ensures Quiet(st, next) && next.locks == st.locks && next.slots == st.slots && next.sessions == st.sessions
    ensures var p := PortAt(st, k);
            next.ports == if LockAt(st, k).owner == id && p.ready
                          then st.ports[k := AfterRecord(p, Signed(cmd.length))] else st.ports
  {
    var p := PortAt(st, k);
    if LockAt(st, k).owner != id || !p.ready then Send(st, id, Echo(cmd, false))
    else StateRecordUpdate(WithPort(st, k, AfterRecord(p, Signed(cmd.length))), k, true)
  }

  function StopRecord(st: State, k: Key): (next: State)
    ensures Quiet(st, next) && next.locks == st.locks && next.slots == st.slots && next.sessions == st.sessions
    ensures next.ports == st.ports[k := PortAt(st, k).(recording := false)]
  {
    StateRecordUpdate(WithPort(st, k, PortAt(st, k).(recording := false)), k, false)
  }

  // The driver does not ask who stops a recording.
  function HaltRecording(c: Config, st: State, id: Int32, cmd: Command): (next: State)
    requires cmd.SR?
    ensures Quiet(st, next) && next.locks == st.locks && next.slots == st.slots && next.sessions == st.sessions
  {
    var k := Key(cmd.card, cmd.stream);
    if cmd.card >= |c.formats| then Send(st, id, Echo(cmd, false))
    else if cmd.stream >= c.ports then st.(fault := true)
    else if PortAt(st, k).recording then StopRecord(st, k)
    else Send(st, id, Echo(cmd, false))
  }

  // ----- Mixer commands --------------------------------------------------------------------

  // Volumes are not part of the state.  Those of inputs are kept by port.
  function SetInputVolume(c: Config, st: State, id: Int32, cmd: Command): (next: State)
    requires cmd.IV?
    ensures Quiet(st, next) && next == st.(sent := next.sent, fault := next.fault)
  {
    if cmd.card >= |c.formats| then Send(st, id, Echo(cmd, false))
    else if cmd.stream >= c.ports then st.(fault := true)
    else Send(st, id, Echo(cmd, true))
  }

  // The increment of a fade is a quotient by its length.
  function FadeOutputVolume(c: Config, st: State, id: Int32, cmd: Command): (next: State)
    requires cmd.FV?
    ensures Quiet(st, next) && next == st.(sent := next.sent, fault := next.fault)
  {
    var h := MakeHandle(id, cmd.serial);
    if h !in st.sessions || st.sessions[h].card >= |c.formats| then Send(st, id, Echo(cmd, false))
    else if !c.testing && cmd.length == 0 then st.(fault := true)
    else Send(st, id, Echo(cmd, true))
  }

  // ----- Connections ---------------------------------------------------------------------

  predicate Occupies(sessions: map<UInt64, Session>, sock: Int32, k: Key) {
    exists h :: h in sessions && sessions[h].sock == sock && Place(sessions[h]) == k
  }

  // What is left when everything that belongs to sock has been dropped.
  function KillSocket(st: State, sock: Int32): State {
    st.(sessions := Remaining(st.sessions, sock),
        slots := Vacated(st.slots, st.sessions, sock),
        locks := Released(st.locks, sock),
        ports := Abandoned(st.ports, st.locks, sock))
  }

  function Remaining(sessions: map<UInt64, Session>, sock: Int32): map<UInt64, Session> {
    map h | h in sessions && sessions[h].sock != sock :: sessions[h]
  }

  function Vacated(slots: map<Key, Slot>, sessions: map<UInt64, Session>, sock: Int32): map<Key, Slot> {
    map k | k in slots :: if Occupies(sessions, sock, k) then Dropped(slots[k]) else slots[k]
  }

  function Released(locks: map<Key, Lock>, sock: Int32): map<Key, Lock> {
    map k | k in locks :: if locks[k].owner == sock then UNLOCKED else locks[k]
  }

  function Abandoned(ports: map<Key, RecordPort>, locks: map<Key, Lock>, sock: Int32): map<Key, RecordPort> {
    map k | k in ports :: if k in locks && locks[k].owner == sock then Closed(ports[k]) else ports[k]
  }

  function Dropped(s: Slot): Slot {
    if s.ring.Some? then AfterUnload(s) else s
  }

  function Closed(p: RecordPort): RecordPort {
    if p.ring.Some? then AfterUnloadRecord(p) else p
  }

  function CloseConnection(st: State, id: Int32): State {
    var st1 := KillSocket(st, id);
    st1.(connections := st1.connections - {id})
  }

  // ----- Commands ----------------------------------------------------------------------------

  // Split at blanks, leaving out empty tokens.
  function Tokens(s: string): seq<string> {
    TokensFrom(s, "")
  }

  function TokensFrom(s: string, token: string): seq<string>
    decreases |s|
  {
    var done := if token == "" then [] else [token];
    if s == "" then done
    else if s[0] == ' ' then done + TokensFrom(s[1..], "")
    else TokensFrom(s[1..], token + [s[0]])
  }

  function Below(n: Option<UInt32>, bound: nat): bool {
    n.Some? && n.value < bound
  }

  // The verbs of the other mixer, meter, clock and status commands.
  predicate IsMixer(verb: string) {
    || verb == "TS" || verb == "OV" || verb == "IL" || verb == "OL" || verb == "IM" || verb == "OM"
    || verb == "IX" || verb == "IT" || verb == "IS" || verb == "AL" || verb == "CS" || verb == "ME"
  }

  function ParsePlay(c: Config, t: seq<string>): Command
    requires |t| == 5
  {
    var serial, length, speed, pitch := c.toUInt(t[1]), c.toUInt(t[2]), c.toUInt(t[3]), c.toUInt(t[4]);
    if serial.Some? && length.Some? && speed.Some? && pitch.Some?
    then PY(serial.value, length.value, speed.value, pitch.value) else Unknown
  }

  function ParseLoadRecording(c: Config, t: seq<string>): Command
    requires |t| == 8
  {
    var card, port, coding, channels := c.toUInt(t[1]), c.toUInt(t[2]), c.toUInt(t[3]), c.toUInt(t[4]);
    var rate, bits := c.toUInt(t[5]), c.toUInt(t[6]);
    if Below(card, c.maxCards) && Below(port, c.ports) && Below(coding, 5) && Below(channels, 3) && rate.Some? &&
        bits.Some?
    then LR(card.value, port.value, coding.value, channels.value, rate.value, bits.value, t[7]) else Unknown
  }

  function ParseRecord(c: Config, t: seq<string>): Command
    requires |t| == 5
  {
    var card, stream, length, threshold := c.toUInt(t[1]), c.toUInt(t[2]), c.toUInt(t[3]), c.toInt(t[4]);
    if Below(card, c.maxCards) && Below(stream, c.streams) && length.Some? && threshold.Some?
    then RD(card.value, stream.value, length.value, threshold.value) else Unknown
  }

  function ParseInputVolume(c: Config, t: seq<string>): Command
    requires |t| == 4
  {
    var card, stream, level := c.toUInt(t[1]), c.toUInt(t[2]), c.toInt(t[3]);
    if Below(card, c.maxCards) && Below(stream, c.streams) && level.Some?
    then IV(card.value, stream.value, level.value) else Unknown
  }

  function ParseFade(c: Config, t: seq<string>): Command
    requires |t| == 4
  {
    var serial, level, length := c.toUInt(t[1]), c.toInt(t[2]), c.toUInt(t[3]);
    if serial.Some? && level.Some? && length.Some? then FV(serial.value, level.value, length.value) else Unknown
  }

  // The privileged command that the tokens spell.
  function Parse(c: Config, t: seq<string>): Command
    requires t != []
  {
    if t[0] == "LP" && |t| == 5 then
      var serial, card, port := c.toUInt(t[1]), c.toUInt(t[2]), c.toUInt(t[3]);
      if serial.Some? && Below(card, c.maxCards) && Below(port, c.ports)
      then LP(serial.value, card.value, port.value, t[4]) else Unknown
    else if t[0] == "UP" && |t| == 2 then
      var serial := c.toUInt(t[1]);
      if serial.Some? then UP(serial.value) else Unknown
    else if t[0] == "PP" && |t| == 3 then
      var serial, ms := c.toUInt(t[1]), c.toUInt(t[2]);
      if serial.Some? && ms.Some? then PP(serial.value, ms.value) else Unknown
    else if t[0] == "PY" && |t| == 5 then ParsePlay(c, t)
    else if t[0] == "SP" && |t| == 2 then
      var serial := c.toUInt(t[1]);
      if serial.Some? then SP(serial.value) else Unknown
    else if t[0] == "LR" && |t| == 8 then ParseLoadRecording(c, t)
    else if (t[0] == "UR" || t[0] == "SR") && |t| == 3 then
      var card, stream := c.toUInt(t[1]), c.toUInt(t[2]);
      if Below(card, c.maxCards) && Below(stream, c.streams)
      then if t[0] == "UR" then UR(card.value, stream.value) else SR(card.value, stream.value)
      else Unknown
    else if t[0] == "RD" && |t| == 5 then ParseRecord(c, t)
    else if t[0] == "IV" && |t| == 4 then ParseInputVolume(c, t)
    else if t[0] == "FV" && |t| == 4 then ParseFade(c, t)
    else if IsMixer(t[0]) then Mixer
    else Unknown
  }

  predicate IsPlay(cmd: Command) {
    cmd.LP? || cmd.UP? || cmd.PP? || cmd.PY? || cmd.SP?
  }

  predicate IsRecord(cmd: Command) {
    cmd.LR? || cmd.UR? || cmd.RD? || cmd.SR?
  }

  ghost function PlayCommand(c: Config, st: State, id: Int32, cmd: Command, disk: Disk): (next: State)
    requires IsPlay(cmd)
    ensures Quiet(st, next) && next.locks == st.locks && next.ports == st.ports
  {
    if cmd.LP? then LoadPlayback(c, st, id, cmd, disk)
    else if cmd.UP? then UnloadPlayback(c, st, id, cmd)
    else if cmd.PP? then PlayPosition(c, st, id, cmd)
    else if cmd.PY? then StartPlayback(c, st, id, cmd)
    else StopPlayback(c, st, id, cmd)
  }

  ghost function RecordCommand(c: Config, st: State, id: Int32, cmd: Command, disk: Disk): (next: State)
    requires IsRecord(cmd)
    ensures Quiet(st, next) && next.slots == st.slots && next.sessions == st.sessions
  {
    if cmd.LR? then LoadRecording(c, st, id, cmd, disk)
    else if cmd.UR? then UnloadRecording(c, st, id, cmd)
    else if cmd.RD? then StartRecording(c, st, id, cmd)
    else HaltRecording(c, st, id, cmd)
  }

  // A privileged command; the other mixer commands change nothing here.
  ghost function Execute(c: Config, st: State, id: Int32, t: seq<string>, disk: Disk): (next: State)
    requires t != []
    ensures Quiet(st, next)
    ensures !IsRecord(Parse(c, t)) ==> next.locks == st.locks && next.ports == st.ports
  {
    var cmd := Parse(c, t);
    if IsPlay(cmd) then PlayCommand(c, st, id, cmd, disk)
    else if IsRecord(cmd) then RecordCommand(c, st, id, cmd, disk)
    else if cmd.IV? then SetInputVolume(c, st, id, cmd)
    else if cmd.FV? then FadeOutputVolume(c, st, id, cmd)
    else if cmd.Mixer? then st
    else Send(st, id, Refused(t))
  }

  function Accumulate(st: State, id: Int32, text: string): State
    requires id in st.connections
  {
    st.(connections := st.connections[id := st.connections[id].(accum := text)])
  }

  function Authenticate(st: State, id: Int32, ok: bool): State
    requires id in st.connections
  {
    Send(st.(connections := st.connections[id := st.connections[id].(authenticated := ok)]), id, PW(ok))
  }

  function Received(st: State, id: Int32, t: seq<string>): State
    requires id in st.connections
  {
    Accumulate(st, id, "").(log := st.log + [(id, t)])
  }

  function AfterPassword(c: Config, st: State, id: Int32, t: seq<string>): (State, bool)
    requires id in st.connections
  {
    var ok := |t| == 2 && t[1] == c.password;
    var st1 := Authenticate(st, id, ok);
    if ok then (st1, false) else (CloseConnection(st1, id), true)
  }

  // DC, PW and the gate before the privileged commands.  The second result says
  // whether the rest of the data is dropped.
  ghost function Perform(c: Config, st: State, id: Int32, t: seq<string>, disk: Disk): (State, bool)
    requires id in st.connections && t != []
  {
    if t[0] == "DC" then (st.(connections := st.connections[id := st.connections[id].(open := false)]), true)
    else if t[0] == "PW" then AfterPassword(c, st, id, t)
    else if !st.connections[id].authenticated then (CloseConnection(st, id), true)
    else (Execute(c, st, id, t, disk), false)
  }

  // The command whose tokens have been accumulated.
  ghost function Dispatch(c: Config, st: State, id: Int32, t: seq<string>, disk: Disk): (State, bool)
    requires id in st.connections && t != []
  {
    Perform(c, Received(st, id, t), id, t, disk)
  }

  // A blank command is ignored.
  ghost function ProcessCommand(c: Config, st: State, id: Int32, disk: Disk): (State, bool)
    requires id in st.connections
  {
    var t := Tokens(st.connections[id].accum);
    if t == [] then (st, false) else Dispatch(c, st, id, t, disk)
  }

  // One byte from the socket of a connection.
  ghost function TakeByte(c: Config, st: State, id: Int32, ch: char, disk: Disk): (State, bool)
    requires id in st.connections
  {
    if ch == '!' then ProcessCommand(c, st, id, disk)
    else if ch == '\n' || ch == '\r' then (st, false)
    else (Accumulate(st, id, st.connections[id].accum + [ch]), false)
  }

  predicate Reading(st: State, id: Int32) {
    !st.fault && id in st.connections && st.connections[id].open
  }

  // readyReadData.  Bytes that arrive once the socket is closed are not read.
  ghost function Feed(c: Config, st: State, id: Int32, data: string, disk: Disk): State
    decreases |data|
  {
    if data == "" || !Reading(st, id) then st
    else
      var (st1, closing) := TakeByte(c, st, id, data[0], disk);
      if closing then st1 else Feed(c, st1, id, data[1..], disk)
  }

  // ----- The whole system ----------------------------------------------------------------------

  type Descriptor = x: Int32 | x > 0 witness 1

  // Driver events name the slot or port that they serve: processBuffers,
  // getOutputPosition, the callbacks and the single-shot timers.
  datatype Happening =
    | Connect(id: Descriptor)
    | Bytes(id: Descriptor, data: string, disk: Disk)
    | Disconnect(id: Descriptor)
    | AtSlot(k: Key, event: Event)
    | AtPort(k: Key, step: CaptureEvent)

  predicate FromDriver(e: Event) {
    e.Tick? || e.Round? || e.Report? || e.Timer?
  }

  predicate FromPort(e: CaptureEvent) {
    e.Service? || e.Capture? || e.RecordTimer?
  }

  predicate IsSlot(c: Config, k: Key) {
    k.card < |c.formats| && k.index < c.streams
  }

  predicate IsPort(c: Config, k: Key) {
    k.card < |c.formats| && k.index < c.ports
  }

  // A driver event at a slot, and the announcement that it makes, if any.
  ghost function SlotStep(c: Config, st: State, k: Key, e: Event): (next: State)
    requires IsSlot(c, k)
    ensures Quiet(st, next) && next.sessions == st.sessions && next.locks == st.locks && next.ports == st.ports
    ensures var f, s := c.formats[k.card], SlotAt(st, k);
            next.slots == if StepFaults(f, s, e) then st.slots else st.slots[k := Step(f, s, e).stream]
  {
    var s := SlotAt(st, k);
    if StepFaults(c.formats[k.card], s, e) then st.(fault := true)
    else
      var o := Step(c.formats[k.card], s, e);
      var st1 := WithSlot(st, k, o.stream);
      if Stopped in o.notes then StatePlayUpdate(st1, k, false) else st1
  }

  function PortStep(c: Config, st: State, k: Key, e: CaptureEvent): (next: State)
    ensures Quiet(st, next) && next.sessions == st.sessions && next.slots == st.slots && next.locks == st.locks
    ensures next.ports == st.ports[k := CaptureStep(PortAt(st, k), e)]
  {
    var p := PortAt(st, k);
    var st1 := WithPort(st, k, CaptureStep(p, e));
    if e.RecordTimer? && p.timer && p.recording then StateRecordUpdate(st1, k, false) else st1
  }

  ghost function Next(c: Config, st: State, e: Happening): State {
    if st.fault then st
    else
      match e
      case Connect(id) =>
        if id in st.connections then st else st.(connections := st.connections[id := Connection(false, true, "")])
      case Bytes(id, data, disk) => Feed(c, st, id, data, disk)
      case Disconnect(id) => if id in st.connections then CloseConnection(st, id) else st
      case AtSlot(k, event) => if IsSlot(c, k) && FromDriver(event) then SlotStep(c, st, k, event) else st
      case AtPort(k, step) => if IsPort(c, k) && FromPort(step) then PortStep(c, st, k, step) else st
  }

  ghost function Trace(c: Config, st: State, events: seq<Happening>): State
    decreases |events|
  {
    if events == [] then st else Trace(c, Next(c, st, events[0]), events[1..])
  }
}
