// Each stream of the daemon, in any run, goes through a run of AlsaStream: the one of
// the events that commands, connections and the driver bring to it.  So what holds over
// all runs of one stream holds of every stream of the daemon.
module CaeStreams {
  import opened Wrappers
  import opened Arithmetic
  import opened RingBuffer
  import opened AlsaStream
  import opened AlsaRuns
  import opened AlsaDelivery
  import opened PlaySessions
  import opened CaeModel
  import opened CaeInvariant
  import opened CaeRuns

  // ----- The events of one stream -----------------------------------------------------

  // The session of a play command leads to the slot.
  predicate LeadsTo(c: Config, st: State, id: Int32, serial: UInt32, k: Key) {
    var h := MakeHandle(id, serial);
    h in st.sessions && st.sessions[h].card < |c.formats| && Place(st.sessions[h]) == k
  }

  // What a command does to the stream at k.
  function CommandEvents(c: Config, st: State, id: Int32, cmd: Command, disk: Disk, k: Key): seq<Event> {
    match cmd
    case LP(_, card, _, name) =>
      if FindsStream(c, st, cmd, disk) && !LoadFaults(c, st, cmd, disk) &&
          k == Key(card, FreeStream(c, st.slots, card, 0))
      then [Load(disk.waves[name])] else []
    case UP(serial) => if LeadsTo(c, st, id, serial, k) then [Unload] else []
    case PP(serial, ms) => if LeadsTo(c, st, id, serial, k) && !SeekFaults(c, st, id, cmd) then [Seek(ms)] else []
    case PY(serial, length, speed, _) =>
      if LeadsTo(c, st, id, serial, k) then [Play(Signed(length), speed)] else []
    case SP(serial) => if LeadsTo(c, st, id, serial, k) then [Stop] else []
    case _ => []
  }

  function CloseEvents(st: State, id: Int32, k: Key): seq<Event> {
    if Occupies(st.sessions, id, k) then [Unload] else []
  }

  function PerformEvents(c: Config, st: State, id: Int32, t: seq<string>, disk: Disk, k: Key): seq<Event>
    requires id in st.connections && t != []
  {
    if t[0] == "DC" then []
    else if t[0] == "PW" then (if |t| == 2 && t[1] == c.password then [] else CloseEvents(st, id, k))
    else if !st.connections[id].authenticated then CloseEvents(st, id, k)
    else CommandEvents(c, st, id, Parse(c, t), disk, k)
  }

  function ByteEvents(c: Config, st: State, id: Int32, ch: char, disk: Disk, k: Key): seq<Event>
    requires id in st.connections
  {
    var t := Tokens(st.connections[id].accum);
    if ch == '!' && t != [] then PerformEvents(c, st, id, t, disk, k) else []
  }

  ghost function FeedEvents(c: Config, st: State, id: Int32, data: string, disk: Disk, k: Key): seq<Event>
    decreases |data|
  {
    if data == "" || !Reading(st, id) then []
    else
      var (st1, closing) := TakeByte(c, st, id, data[0], disk);
      ByteEvents(c, st, id, data[0], disk, k) +
      if closing then [] else FeedEvents(c, st1, id, data[1..], disk, k)
  }

  // What the driver does to the stream at k.
  predicate Serves(c: Config, st: State, e: Happening, k: Key) {
    && !st.fault && e.AtSlot? && e.k == k && IsSlot(c, k) && FromDriver(e.event)
    && !StepFaults(c.formats[k.card], SlotAt(st, k), e.event)
  }

  ghost function NextEvents(c: Config, st: State, e: Happening, k: Key): seq<Event> {
    if st.fault then []
    else
      match e
      case Bytes(id, data, disk) => FeedEvents(c, st, id, data, disk, k)
      case Disconnect(id) => if id in st.connections then CloseEvents(st, id, k) else []
      case AtSlot(_, event) => if Serves(c, st, e, k) then [event] else []
      case _ => []
  }

  ghost function TraceEvents(c: Config, st: State, events: seq<Happening>, k: Key): seq<Event>
    decreases |events|
  {
    if events == [] then []
    else NextEvents(c, st, events[0], k) + TraceEvents(c, Next(c, st, events[0]), events[1..], k)
  }

  // The bytes that one happening takes from the ring of the stream at k.
  function NextDrained(c: Config, st: State, e: Happening, k: Key): seq<Byte>
    requires IsSlot(c, k)
  {
    if Serves(c, st, e, k) && e.event.Round? then RoundBytes(c.formats[k.card], SlotAt(st, k)) else []
  }

  // The bytes that the callback rounds of the run take from the ring of the stream.
  ghost function Drained(c: Config, st: State, events: seq<Happening>, k: Key): seq<Byte>
    requires IsSlot(c, k)
    decreases |events|
  {
    if events == [] then []
    else NextDrained(c, st, events[0], k) + Drained(c, Next(c, st, events[0]), events[1..], k)
  }

  // ----- Runs of one stream -------------------------------------------------------------

  // The events take the stream from s to t and take the bytes from its ring.
  ghost predicate Takes(f: Format, s: Slot, events: seq<Event>, t: Slot, bytes: seq<Byte>) {
    Run(f, s, events).stream == t && Run(f, s, events).bytes == bytes
  }

  lemma TakesNone(f: Format, s: Slot)
    ensures Takes(f, s, [], s, [])
  {
  }

  lemma TakesOne(f: Format, s: Slot, e: Event)
    ensures Consistent(Step(f, s, e).stream) && Takes(f, s, [e], Step(f, s, e).stream, Step(f, s, e).bytes)
  {
    assert [e][1..] == [];
    assert Step(f, s, e).bytes + [] == Step(f, s, e).bytes;
  }

  lemma {:induction false} TakesBoth(f: Format, s: Slot, a: seq<Event>, t: Slot, x: seq<Byte>, b: seq<Event>, u: Slot,
      y: seq<Byte>)
    requires Takes(f, s, a, t, x) && Takes(f, t, b, u, y)
    ensures Takes(f, s, a + b, u, x + y)
    decreases |a|
  {
    if a == [] {
      assert a + b == b && x + y == y;
    } else {
      assert (a + b)[1..] == a[1..] + b;
      var o := Step(f, s, a[0]);
      var r := Run(f, o.stream, a[1..]);
      TakesBoth(f, o.stream, a[1..], t, r.bytes, b, u, y);
      Reassociated(o.bytes, r.bytes, y);
    }
  }

  lemma Reassociated(x: seq<Byte>, y: seq<Byte>, z: seq<Byte>)
    ensures x + (y + z) == x + y + z
  {
  }

  // ----- One step of the daemon -----------------------------------------------------

  // The events take the stream at k from where it is in st to where it is in next,
  // without a callback round.
  ghost predicate Goes(c: Config, st: State, next: State, k: Key, events: seq<Event>)
    requires IsSlot(c, k)
  {
    Takes(c.formats[k.card], SlotAt(st, k), events, SlotAt(next, k), [])
  }

  lemma GoesNowhere(c: Config, st: State, next: State, k: Key)
    requires IsSlot(c, k) && SlotAt(next, k) == SlotAt(st, k)
    ensures Goes(c, st, next, k, [])
  {
    TakesNone(c.formats[k.card], SlotAt(st, k));
  }

  lemma GoesOne(c: Config, st: State, next: State, k: Key, e: Event)
    requires IsSlot(c, k) && !e.Round? && SlotAt(next, k) == Step(c.formats[k.card], SlotAt(st, k), e).stream
    ensures Goes(c, st, next, k, [e])
  {
    TakesOne(c.formats[k.card], SlotAt(st, k), e);
  }

  lemma LoadGoes(c: Config, st: State, id: Int32, cmd: Command, disk: Disk, k: Key)
    requires cmd.LP? && IsSlot(c, k)
    ensures Goes(c, st, LoadPlayback(c, st, id, cmd, disk), k, CommandEvents(c, st, id, cmd, disk, k))
  {
    var next := LoadPlayback(c, st, id, cmd, disk);
    if FindsStream(c, st, cmd, disk) && !LoadFaults(c, st, cmd, disk) {
      var slot := LoadPlaybackLoads(c, st, id, cmd, disk);
      LoadedGoes(c, st, next, id, cmd, Key(cmd.card, FreeStream(c, st.slots, cmd.card, 0)), slot,
                 Load(disk.waves[cmd.name]), k);
    } else {
      assert next.slots == st.slots;
      GoesNowhere(c, st, next, k);
    }
  }

  lemma LoadedGoes(c: Config, st: State, next: State, id: Int32, cmd: Command, j: Key, slot: Slot, e: Event, k: Key)
    requires cmd.LP? && next == AfterLoad(st, id, cmd, j, slot) && IsSlot(c, j) && IsSlot(c, k) && e.Load?
    requires slot == Step(c.formats[j.card], SlotAt(st, j), e).stream
    ensures Goes(c, st, next, k, if k == j then [e] else [])
  {
    if k == j {
      GoesOne(c, st, next, k, e);
    } else {
      GoesNowhere(c, st, next, k);
    }
  }

  lemma UnloadGoes(c: Config, st: State, id: Int32, cmd: Command, disk: Disk, k: Key)
    requires cmd.UP? && IsSlot(c, k)
    ensures Goes(c, st, UnloadPlayback(c, st, id, cmd), k, CommandEvents(c, st, id, cmd, disk, k))
  {
    var next := UnloadPlayback(c, st, id, cmd);
    if LeadsTo(c, st, id, cmd.serial, k) {
      GoesOne(c, st, next, k, Unload);
    } else {
      GoesNowhere(c, st, next, k);
    }
  }

  lemma PositionGoes(c: Config, st: State, id: Int32, cmd: Command, disk: Disk, k: Key)
    requires cmd.PP? && IsSlot(c, k)
    ensures Goes(c, st, PlayPosition(c, st, id, cmd), k, CommandEvents(c, st, id, cmd, disk, k))
  {
    var next := PlayPosition(c, st, id, cmd);
    if LeadsTo(c, st, id, cmd.serial, k) && !SeekFaults(c, st, id, cmd) {
      SoughtHere(c, st, id, cmd, k);
      GoesOne(c, st, next, k, Seek(cmd.ms));
    } else {
      NotSought(c, st, id, cmd, k);
      GoesNowhere(c, st, next, k);
    }
  }

  lemma SoughtHere(c: Config, st: State, id: Int32, cmd: Command, k: Key)
    requires cmd.PP? && IsSlot(c, k) && LeadsTo(c, st, id, cmd.serial, k) && !SeekFaults(c, st, id, cmd)
    ensures SlotAt(PlayPosition(c, st, id, cmd), k) == Step(c.formats[k.card], SlotAt(st, k), Seek(cmd.ms)).stream
  {
  }

  lemma NotSought(c: Config, st: State, id: Int32, cmd: Command, k: Key)
    requires cmd.PP? && (!LeadsTo(c, st, id, cmd.serial, k) || SeekFaults(c, st, id, cmd))
    ensures SlotAt(PlayPosition(c, st, id, cmd), k) == SlotAt(st, k)
  {
  }

  lemma StartGoes(c: Config, st: State, id: Int32, cmd: Command, disk: Disk, k: Key)
    requires cmd.PY? && IsSlot(c, k)
    ensures Goes(c, st, StartPlayback(c, st, id, cmd), k, CommandEvents(c, st, id, cmd, disk, k))
  {
    var next := StartPlayback(c, st, id, cmd);
    if LeadsTo(c, st, id, cmd.serial, k) {
      GoesOne(c, st, next, k, Play(Signed(cmd.length), cmd.speed));
    } else {
      GoesNowhere(c, st, next, k);
    }
  }

  lemma StopGoes(c: Config, st: State, id: Int32, cmd: Command, disk: Disk, k: Key)
    requires cmd.SP? && IsSlot(c, k)
    ensures Goes(c, st, StopPlayback(c, st, id, cmd), k, CommandEvents(c, st, id, cmd, disk, k))
  {
    var next := StopPlayback(c, st, id, cmd);
    if LeadsTo(c, st, id, cmd.serial, k) {
      GoesOne(c, st, next, k, Stop);
    } else {
      GoesNowhere(c, st, next, k);
    }
  }

  lemma PlayCommandGoes(c: Config, st: State, id: Int32, cmd: Command, disk: Disk, k: Key)
    requires IsPlay(cmd) && IsSlot(c, k)
    ensures Goes(c, st, PlayCommand(c, st, id, cmd, disk), k, CommandEvents(c, st, id, cmd, disk, k))
  {
    if cmd.LP? {
      LoadGoes(c, st, id, cmd, disk, k);
    } else if cmd.UP? {
      UnloadGoes(c, st, id, cmd, disk, k);
    } else if cmd.PP? {
      PositionGoes(c, st, id, cmd, disk, k);
    } else if cmd.PY? {
      StartGoes(c, st, id, cmd, disk, k);
    } else {
      StopGoes(c, st, id, cmd, disk, k);
    }
  }

  lemma ExecuteGoes(c: Config, st: State, id: Int32, t: seq<string>, disk: Disk, k: Key)
    requires IsSlot(c, k) && t != []
    ensures Goes(c, st, Execute(c, st, id, t, disk), k, CommandEvents(c, st, id, Parse(c, t), disk, k))
  {
    if IsPlay(Parse(c, t)) {
      PlayCommandGoes(c, st, id, Parse(c, t), disk, k);
    } else {
      GoesNowhere(c, st, Execute(c, st, id, t, disk), k);
    }
  }

  lemma CloseGoes(c: Config, st: State, id: Int32, k: Key)
    requires IsSlot(c, k)
    ensures Goes(c, st, CloseConnection(st, id), k, CloseEvents(st, id, k))
  {
    if Occupies(st.sessions, id, k) {
      GoesOne(c, st, CloseConnection(st, id), k, Unload);
    } else {
      GoesNowhere(c, st, CloseConnection(st, id), k);
    }
  }

  lemma PasswordGoes(c: Config, st: State, id: Int32, t: seq<string>, k: Key)
    requires id in st.connections && IsSlot(c, k)
    ensures Goes(c, st, AfterPassword(c, st, id, t).0, k,
                 if |t| == 2 && t[1] == c.password then [] else CloseEvents(st, id, k))
  {
    var ok := |t| == 2 && t[1] == c.password;
    var st1 := Authenticate(st, id, ok);
    if ok {
      GoesNowhere(c, st, st1, k);
    } else {
      CloseGoes(c, st, id, k);
      CloseAnyway(st, id, st.connections[id].(authenticated := false), st1.sent);
    }
  }

  lemma PerformGoes(c: Config, st: State, id: Int32, t: seq<string>, disk: Disk, k: Key)
    requires id in st.connections && t != [] && IsSlot(c, k)
    ensures Goes(c, st, Perform(c, st, id, t, disk).0, k, PerformEvents(c, st, id, t, disk, k))
  {
    if t[0] == "DC" {
      GoesNowhere(c, st, Perform(c, st, id, t, disk).0, k);
    } else if t[0] == "PW" {
      PasswordGoes(c, st, id, t, k);
    } else if !st.connections[id].authenticated {
      CloseGoes(c, st, id, k);
    } else {
      ExecuteGoes(c, st, id, t, disk, k);
    }
  }

  lemma ByteGoes(c: Config, st: State, id: Int32, ch: char, disk: Disk, k: Key)
    requires id in st.connections && IsSlot(c, k)
    ensures Goes(c, st, TakeByte(c, st, id, ch, disk).0, k, ByteEvents(c, st, id, ch, disk, k))
  {
    var t := Tokens(st.connections[id].accum);
    if ch == '!' && t != [] {
      PerformGoes(c, Received(st, id, t), id, t, disk, k);
      ReceivedAnyway(c, st, id, t, disk, k);
    } else {
      GoesNowhere(c, st, TakeByte(c, st, id, ch, disk).0, k);
    }
  }

  lemma ReceivedAnyway(c: Config, st: State, id: Int32, t: seq<string>, disk: Disk, k: Key)
    requires id in st.connections && t != []
    ensures PerformEvents(c, Received(st, id, t), id, t, disk, k) == PerformEvents(c, st, id, t, disk, k)
  {
    var st1 := Received(st, id, t);
    assert st1.sessions == st.sessions && st1.slots == st.slots;
  }

  lemma {:induction false} FeedGoes(c: Config, st: State, id: Int32, data: string, disk: Disk, k: Key)
    requires IsSlot(c, k)
    ensures Goes(c, st, Feed(c, st, id, data, disk), k, FeedEvents(c, st, id, data, disk, k))
    decreases |data|
  {
    if data == "" || !Reading(st, id) {
      GoesNowhere(c, st, st, k);
    } else {
      var (st1, closing) := TakeByte(c, st, id, data[0], disk);
      ByteGoes(c, st, id, data[0], disk, k);
      if closing {
        assert ByteEvents(c, st, id, data[0], disk, k) + [] == ByteEvents(c, st, id, data[0], disk, k);
      } else {
        FeedGoes(c, st1, id, data[1..], disk, k);
        GoesBoth(c, st, st1, Feed(c, st1, id, data[1..], disk), k, ByteEvents(c, st, id, data[0], disk, k),
                 FeedEvents(c, st1, id, data[1..], disk, k));
      }
    }
  }

  lemma GoesBoth(c: Config, st: State, st1: State, next: State, k: Key, a: seq<Event>, b: seq<Event>)
    requires IsSlot(c, k) && Goes(c, st, st1, k, a) && Goes(c, st1, next, k, b)
    ensures Goes(c, st, next, k, a + b)
  {
    TakesBoth(c.formats[k.card], SlotAt(st, k), a, SlotAt(st1, k), [], b, SlotAt(next, k), []);
  }

  // ----- Whole runs ---------------------------------------------------------------------

  lemma ServedGoes(c: Config, st: State, e: Happening, k: Key)
    requires IsSlot(c, k) && e.AtSlot?
    ensures Takes(c.formats[k.card], SlotAt(st, k), NextEvents(c, st, e, k), SlotAt(Next(c, st, e), k),
                  NextDrained(c, st, e, k))
  {
    if Serves(c, st, e, k) {
      TakesOne(c.formats[k.card], SlotAt(st, k), e.event);
      StepDrains(c.formats[k.card], SlotAt(st, k), e.event);
      StepSlot(c, st, k, e.event);
    } else {
      NotServed(c, st, e, k);
      TakesNone(c.formats[k.card], SlotAt(st, k));
    }
  }

  lemma NotServed(c: Config, st: State, e: Happening, k: Key)
    requires e.AtSlot? && !Serves(c, st, e, k)
    ensures SlotAt(Next(c, st, e), k) == SlotAt(st, k)
  {
  }

  lemma StepDrains(f: Format, s: Slot, e: Event)
    ensures Step(f, s, e).bytes == if e.Round? then RoundBytes(f, s) else []
  {
  }

  lemma StepSlot(c: Config, st: State, k: Key, e: Event)
    requires IsSlot(c, k) && !StepFaults(c.formats[k.card], SlotAt(st, k), e)
    ensures SlotAt(SlotStep(c, st, k, e), k) == Step(c.formats[k.card], SlotAt(st, k), e).stream
  {
  }

  lemma NextGoes(c: Config, st: State, e: Happening, k: Key)
    requires IsSlot(c, k)
    ensures Takes(c.formats[k.card], SlotAt(st, k), NextEvents(c, st, e, k), SlotAt(Next(c, st, e), k),
                  NextDrained(c, st, e, k))
  {
    if e.AtSlot? {
      ServedGoes(c, st, e, k);
    } else if e.Bytes? && !st.fault {
      FeedGoes(c, st, e.id, e.data, e.disk, k);
    } else if e.Disconnect? && !st.fault && e.id in st.connections {
      CloseGoes(c, st, e.id, k);
    } else {
      GoesNowhere(c, st, Next(c, st, e), k);
    }
  }

  lemma {:induction false} TraceGoes(c: Config, st: State, events: seq<Happening>, k: Key)
    requires IsSlot(c, k)
    ensures Takes(c.formats[k.card], SlotAt(st, k), TraceEvents(c, st, events, k), SlotAt(Trace(c, st, events), k),
                  Drained(c, st, events, k))
    decreases |events|
  {
    if events == [] {
      TakesNone(c.formats[k.card], SlotAt(st, k));
    } else {
      var next := Next(c, st, events[0]);
      NextGoes(c, st, events[0], k);
      TraceGoes(c, next, events[1..], k);
      TakesBoth(c.formats[k.card], SlotAt(st, k), NextEvents(c, st, events[0], k), SlotAt(next, k),
                NextDrained(c, st, events[0], k), TraceEvents(c, next, events[1..], k),
                SlotAt(Trace(c, next, events[1..]), k), Drained(c, next, events[1..], k));
    }
  }

  // Whatever clients, driver and connections do, the run of AlsaStream over the events
  // that they bring to a stream gives its state and the bytes taken from its ring.
  lemma StreamsRunAlone(c: Config, events: seq<Happening>, k: Key)
    requires IsSlot(c, k)
    ensures var r := Run(c.formats[k.card], IDLE, TraceEvents(c, INITIAL, events, k));
            r.stream == SlotAt(Trace(c, INITIAL, events), k) && r.bytes == Drained(c, INITIAL, events, k)
  {
    TraceGoes(c, INITIAL, events, k);
  }

  // In the daemon, too, the bytes taken from the ring followed by those left in it are
  // the bytes read from the file, as long as only playing, services and callback rounds
  // follow the load and its first fill fits the ring.
  lemma DaemonPlaybackIsFifo(c: Config, st: State, events: seq<Happening>, k: Key, w: Wave, more: seq<Event>)
    requires IsSlot(c, k) && SlotAt(st, k).ring.None? && FirstFits(c.formats[k.card], w, 0)
    requires TraceEvents(c, st, events, k) == [Load(w)] + more && forall e :: e in more ==> Streaming(e)
    ensures var t := SlotAt(Trace(c, st, events), k);
      && t.wave == Some(w) && t.ring.Some? && t.cursor <= |w.data|
      && Drained(c, st, events, k) + t.ring.value == w.data[..t.cursor]
  {
    LoadedRuns(c, st, events, k, w, more);
    PlaybackIsFifo(c.formats[k.card], SlotAt(st, k), w, more);
  }

  // And in any run in which services and callback rounds alternate often enough behind a
  // load and a start, the stream is played whole and has stopped.
  lemma DaemonPlaysEverything(c: Config, st: State, events: seq<Happening>, k: Key, w: Wave, length: int,
      more: seq<Event>, portion: nat, n: nat)
    requires IsSlot(c, k) && SlotAt(st, k).ring.None?
    requires Sustains(c.formats[k.card], w, portion) && |w.data| <= n * portion
    requires TraceEvents(c, st, events, k) == [Load(w), Play(length, 100000)] + more
    requires (forall e :: e in more ==> AlsaRuns.Service(e)) && Alternations(more, false) >= n + 2
    ensures Drained(c, st, events, k) == w.data && !SlotAt(Trace(c, st, events), k).playing
  {
    TraceGoes(c, st, events, k);
    EverythingIsPlayed(c.formats[k.card], SlotAt(st, k), w, length, more, portion, n);
  }

  // The same after a seek, from the byte that it went to.
  lemma DaemonSeekRestartsFifo(c: Config, st: State, events: seq<Happening>, k: Key, ms: nat, more: seq<Event>)
    requires IsSlot(c, k) && SlotAt(st, k).ring.Some? && CanSeek(c.formats[k.card], SlotAt(st, k), ms)
    requires FirstFits(c.formats[k.card], SlotAt(st, k).wave.value, SoughtByte(SlotAt(st, k), ms))
    requires TraceEvents(c, st, events, k) == [Seek(ms)] + more && forall e :: e in more ==> Streaming(e)
    ensures var w, start := SlotAt(st, k).wave.value, SoughtByte(SlotAt(st, k), ms);
            var t := SlotAt(Trace(c, st, events), k);
      && t.ring.Some? && start <= t.cursor <= |w.data|
      && Drained(c, st, events, k) + t.ring.value == w.data[start..t.cursor]
  {
    var f, s := c.formats[k.card], SlotAt(st, k);
    SoughtRuns(c, st, events, k, ms, more);
    SeekRestartsFifo(f, s, ms, more);
  }

  // The run behind a seek.
  lemma SoughtRuns(c: Config, st: State, events: seq<Happening>, k: Key, ms: nat, more: seq<Event>)
    requires IsSlot(c, k) && SlotAt(st, k).ring.Some? && CanSeek(c.formats[k.card], SlotAt(st, k), ms)
    requires TraceEvents(c, st, events, k) == [Seek(ms)] + more
    ensures Consistent(AfterSeek(c.formats[k.card], SlotAt(st, k), ms))
    ensures var r := Run(c.formats[k.card], AfterSeek(c.formats[k.card], SlotAt(st, k), ms), more);
            r.stream == SlotAt(Trace(c, st, events), k) && r.bytes == Drained(c, st, events, k)
  {
    var f, s := c.formats[k.card], SlotAt(st, k);
    TraceGoes(c, st, events, k);
    assert ([Seek(ms)] + more)[1..] == more;
    var r := Run(f, AfterSeek(f, s, ms), more);
    assert [] + r.bytes == r.bytes;
  }

  lemma LoadedRuns(c: Config, st: State, events: seq<Happening>, k: Key, w: Wave, more: seq<Event>)
    requires IsSlot(c, k) && SlotAt(st, k).ring.None?
    requires TraceEvents(c, st, events, k) == [Load(w)] + more
    ensures Consistent(Loaded(c.formats[k.card], SlotAt(st, k), w))
    ensures var r := Run(c.formats[k.card], Loaded(c.formats[k.card], SlotAt(st, k), w), more);
            r.stream == SlotAt(Trace(c, st, events), k) && r.bytes == Drained(c, st, events, k)
  {
    var f, s := c.formats[k.card], SlotAt(st, k);
    TraceGoes(c, st, events, k);
    assert ([Load(w)] + more)[1..] == more;
    var r := Run(f, Loaded(f, s, w), more);
    assert [] + r.bytes == r.bytes;
  }

  // The position that the daemon reports, in frames, and the frames in the ring make up
  // the frames of the file before the cursor, after a load and after a seek.
  lemma DaemonPositionAccounts(c: Config, st: State, events: seq<Happening>, k: Key, w: Wave, more: seq<Event>)
    requires IsSlot(c, k) && SlotAt(st, k).ring.None? && FirstFits(c.formats[k.card], w, 0)
    requires w.channels == 2 && |w.data| % 4 == 0 && Period(c.formats[k.card], w) % 4 == 0
    requires TraceEvents(c, st, events, k) == [Load(w)] + more && forall e :: e in more ==> Streaming(e)
    ensures var t := SlotAt(Trace(c, st, events), k); Accounts(t) && InTime(c.formats[k.card], t)
  {
    LoadedRuns(c, st, events, k, w, more);
    PositionIsFilledMinusHeld(c.formats[k.card], SlotAt(st, k), w, more);
  }

  lemma DaemonPositionAfterSeek(c: Config, st: State, events: seq<Happening>, k: Key, ms: nat, more: seq<Event>)
    requires IsSlot(c, k) && SlotAt(st, k).ring.Some? && CanSeek(c.formats[k.card], SlotAt(st, k), ms)
    requires FirstFits(c.formats[k.card], SlotAt(st, k).wave.value, SoughtByte(SlotAt(st, k), ms))
    requires var w := SlotAt(st, k).wave.value;
             w.channels == 2 && |w.data| % 4 == 0 && Period(c.formats[k.card], w) % 4 == 0
    requires TraceEvents(c, st, events, k) == [Seek(ms)] + more && forall e :: e in more ==> Streaming(e)
    ensures var t := SlotAt(Trace(c, st, events), k);
            Accounts(t) && t.offset == SeekFrame(SlotAt(st, k).wave.value, ms) && InTime(c.formats[k.card], t)
  {
    SoughtRuns(c, st, events, k, ms, more);
    PositionAfterSeek(c.formats[k.card], SlotAt(st, k), ms, more);
  }

  // ----- Only loads overrun ---------------------------------------------------------------

  lemma WantedGrows(f: Format, w: Wave, a: nat, b: nat)
    requires a <= b
    ensures Wanted(f, w, a) <= Wanted(f, w, b)
  {
    AtMost(a, b, w.rate);
    QuotientGrows(a * w.rate, b * w.rate, f.rate);
  }

  lemma QuotientGrows(x: nat, y: nat, d: nat)
    requires d > 0 && x <= y
    ensures x / d <= y / d
  {
    Division(x, d);
    Division(y, d);
    assert (y / d + 1) * d == y / d * d + d;
    Cancel(x / d, y / d + 1, d);
  }

  // A wave whose first fill does not overrun never does.
  lemma FirstFillDecides(f: Format, w: Wave, held: nat, cursor: nat)
    ensures Overruns(f, w, held, cursor) ==> Overruns(f, w, 0, 0)
  {
    if CAPACITY - held - 1 > 0 {
      WantedGrows(f, w, CAPACITY - held - 1, CAPACITY - 1);
    }
  }

  predicate Calm(f: Format, s: Stream) {
    s.wave.Some? ==> !Overruns(f, s.wave.value, 0, 0)
  }

  lemma CalmStep(f: Format, s: Slot, e: Event)
    requires Calm(f, s) && (e.Load? ==> !Overruns(f, e.wave, 0, 0))
    ensures Calm(f, Step(f, s, e).stream)
  {
  }

  predicate CalmEvents(f: Format, events: seq<Event>) {
    forall e :: e in events ==> e.Load? ==> !Overruns(f, e.wave, 0, 0)
  }

  lemma {:induction false} CalmRun(f: Format, s: Slot, events: seq<Event>)
    requires Calm(f, s) && CalmEvents(f, events)
    ensures Calm(f, Run(f, s, events).stream)
    decreases |events|
  {
    if events != [] {
      CalmStep(f, s, events[0]);
      CalmRun(f, Step(f, s, events[0]).stream, events[1..]);
    }
  }

  lemma CalmStays(f: Format, s: Slot)
    requires Calm(f, s)
    ensures !StepFaults(f, s, Tick) && forall ms: nat :: !StepFaults(f, s, Seek(ms))
  {
    if s.ring.Some? {
      FirstFillDecides(f, s.wave.value, |s.ring.value|, s.cursor);
      forall ms: nat ensures !StepFaults(f, s, Seek(ms)) {
        FirstFillDecides(f, s.wave.value, 0, BlockBytes(s.wave.value, SeekFrame(s.wave.value, ms)));
      }
    }
  }

  lemma ByteEventsCalm(c: Config, st: State, id: Int32, ch: char, disk: Disk, k: Key)
    requires id in st.connections && IsSlot(c, k)
    ensures CalmEvents(c.formats[k.card], ByteEvents(c, st, id, ch, disk, k))
  {
  }

  lemma {:induction false} FeedEventsCalm(c: Config, st: State, id: Int32, data: string, disk: Disk, k: Key)
    requires IsSlot(c, k)
    ensures CalmEvents(c.formats[k.card], FeedEvents(c, st, id, data, disk, k))
    decreases |data|
  {
    if data != "" && Reading(st, id) {
      ByteEventsCalm(c, st, id, data[0], disk, k);
      FeedEventsCalm(c, TakeByte(c, st, id, data[0], disk).0, id, data[1..], disk, k);
    }
  }

  lemma {:induction false} TraceEventsCalm(c: Config, st: State, events: seq<Happening>, k: Key)
    requires IsSlot(c, k)
    ensures CalmEvents(c.formats[k.card], TraceEvents(c, st, events, k))
    decreases |events|
  {
    if events != [] {
      if events[0].Bytes? {
        FeedEventsCalm(c, st, events[0].id, events[0].data, events[0].disk, k);
      }
      TraceEventsCalm(c, Next(c, st, events[0]), events[1..], k);
    }
  }

  // In every reachable state neither a service nor a seek overruns the transfer buffer:
  // only loads can.
  lemma OnlyLoadsOverrun(c: Config, events: seq<Happening>, k: Key)
    requires IsSlot(c, k)
    ensures var f, s := c.formats[k.card], SlotAt(Trace(c, INITIAL, events), k);
            !StepFaults(f, s, Tick) && forall ms: nat :: !StepFaults(f, s, Seek(ms))
  {
    StreamsRunAlone(c, events, k);
    TraceEventsCalm(c, INITIAL, events, k);
    CalmRun(c.formats[k.card], IDLE, TraceEvents(c, INITIAL, events, k));
    CalmStays(c.formats[k.card], SlotAt(Trace(c, INITIAL, events), k));
  }

  // The service loop divides by the rate of a wave that is loaded on a served card.
  predicate DividesByRate(c: Config, st: State, e: Happening) {
    && !st.fault && e.AtSlot? && e.event.Report? && IsSlot(c, e.k) && !c.formats[e.k.card].exiting
    && SlotAt(st, e.k).ring.Some? && SlotAt(st, e.k).wave.value.rate == 0
  }

  // So a run faults if and only if bytes that it brings complete a command that does, or
  // the service loop divides by a rate of 0.
  lemma FaultsComeFromCommands(c: Config, events: seq<Happening>)
    ensures Trace(c, INITIAL, events).fault <==>
            exists i :: 0 <= i < |events| && IsDeadly(c, Trace(c, INITIAL, events[..i]), events[i])
  {
    TraceFaults(c, INITIAL, events);
    forall i | 0 <= i < |events|
      ensures Endangers(c, Trace(c, INITIAL, events[..i]), events[i]) <==>
              IsDeadly(c, Trace(c, INITIAL, events[..i]), events[i])
    {
      DeadlyEvents(c, events[..i], events[i]);
    }
  }

  ghost predicate IsDeadly(c: Config, st: State, e: Happening) {
    (e.Bytes? && !st.fault && Misfeeds(c, st, e.id, e.data, e.disk)) || DividesByRate(c, st, e)
  }

  lemma DeadlyEvents(c: Config, events: seq<Happening>, e: Happening)
    ensures var st := Trace(c, INITIAL, events); Endangers(c, st, e) <==> IsDeadly(c, st, e)
  {
    if e.AtSlot? && IsSlot(c, e.k) {
      OnlyLoadsOverrun(c, events, e.k);
    }
  }
}
