// Each record port of the daemon, in any run, goes through the loads, unloads and capture
// events that commands, connections and the driver bring to it, so that what holds of a
// recording in AlsaCapture holds of every recording of the daemon.
module CaeRecordings {
  import opened Wrappers
  import opened Arithmetic
  import opened AlsaStream
  import opened AlsaCapture
  import opened PlaySessions
  import opened CaeModel
  import opened CaeInvariant
  import opened CaeRuns

  datatype PortEvent = Loading(channels: nat) | Unloading | Doing(step: CaptureEvent)

  type Recordable = e: PortEvent | e.Loading? ==> 1 <= e.channels <= 2 witness Unloading

  // ----- One record port ------------------------------------------------------------------

  function AfterEvent(p: RecordPort, e: Recordable): (q: RecordPort) {
    match e
    case Loading(channels) => if p.ring.None? then AfterLoadRecord(p, channels) else p
    case Unloading => Closed(p)
    case Doing(step) =>
      CaptureStep(p, step)
  }

  function AfterEvents(p: RecordPort, events: seq<Recordable>): RecordPort
    decreases |events|
  {
    if events == [] then p else AfterEvents(AfterEvent(p, events[0]), events[1..])
  }

  lemma {:induction false} AfterBoth(p: RecordPort, a: seq<Recordable>, b: seq<Recordable>)
    ensures AfterEvents(p, a + b) == AfterEvents(AfterEvents(p, a), b)
    decreases |a|
  {
    if a == [] {
      assert a + b == b;
    } else {
      assert (a + b)[1..] == a[1..] + b;
      AfterBoth(AfterEvent(p, a[0]), a[1..], b);
    }
  }

  lemma AfterOne(p: RecordPort, e: Recordable)
    ensures AfterEvents(p, [e]) == AfterEvent(p, e)
  {
    assert [e][1..] == [];
  }

  // The capture events of a recording, as events of its port.
  function All(steps: seq<CaptureEvent>): (r: seq<Recordable>)
    ensures |r| == |steps|
    decreases |steps|
  {
    if steps == [] then [] else [Doing(steps[0])] + All(steps[1..])
  }

  lemma {:induction false} AllRun(p: RecordPort, steps: seq<CaptureEvent>)
    ensures AfterEvents(p, All(steps)) == CaptureRun(p, steps)
    decreases |steps|
  {
    if steps != [] {
      assert All(steps)[1..] == All(steps[1..]);
      AllRun(CaptureStep(p, steps[0]), steps[1..]);
    }
  }

  // ----- The events of one port -----------------------------------------------------------

  // What the record commands do to the port at k.
  function LoadEvents(st: State, cmd: Command, disk: Disk, k: Key): seq<Recordable>
    requires cmd.LR?
  {
    if k == Key(cmd.card, cmd.port) && LockAt(st, k).owner == NOBODY && CanRecord(cmd, disk)
    then [Loading(cmd.channels)] else []
  }

  function UnloadEvents(st: State, id: Int32, cmd: Command, k: Key): seq<Recordable>
    requires cmd.UR?
  {
    if k == Key(cmd.card, cmd.stream) && (LockAt(st, k).owner == NOBODY || LockAt(st, k).owner == id)
    then [Unloading] else []
  }

  function StartEvents(st: State, id: Int32, cmd: Command, k: Key): seq<Recordable>
    requires cmd.RD?
  {
    if k == Key(cmd.card, cmd.stream) && LockAt(st, k).owner == id then [Doing(Start(Signed(cmd.length)))] else []
  }

  function HaltEvents(cmd: Command, k: Key): seq<Recordable>
    requires cmd.SR?
  {
    if k == Key(cmd.card, cmd.stream) then [Doing(StopRecording)] else []
  }

  function CommandPortEvents(st: State, id: Int32, cmd: Command, disk: Disk, k: Key): seq<Recordable> {
    if cmd.LR? then LoadEvents(st, cmd, disk, k)
    else if cmd.UR? then UnloadEvents(st, id, cmd, k)
    else if cmd.RD? then StartEvents(st, id, cmd, k)
    else if cmd.SR? then HaltEvents(cmd, k)
    else []
  }

  function ClosePortEvents(st: State, id: Int32, k: Key): seq<Recordable> {
    if k in st.locks && st.locks[k].owner == id then [Unloading] else []
  }

  function PerformPortEvents(c: Config, st: State, id: Int32, t: seq<string>, disk: Disk, k: Key): seq<Recordable>
    requires id in st.connections && t != []
  {
    if t[0] == "DC" then []
    else if t[0] == "PW" then (if |t| == 2 && t[1] == c.password then [] else ClosePortEvents(st, id, k))
    else if !st.connections[id].authenticated then ClosePortEvents(st, id, k)
    else CommandPortEvents(st, id, Parse(c, t), disk, k)
  }

  function BytePortEvents(c: Config, st: State, id: Int32, ch: char, disk: Disk, k: Key): seq<Recordable>
    requires id in st.connections
  {
    var t := Tokens(st.connections[id].accum);
    if ch == '!' && t != [] then PerformPortEvents(c, st, id, t, disk, k) else []
  }

  ghost function FeedPortEvents(c: Config, st: State, id: Int32, data: string, disk: Disk, k: Key): seq<Recordable>
    decreases |data|
  {
    if data == "" || !Reading(st, id) then []
    else
      var (st1, closing) := TakeByte(c, st, id, data[0], disk);
      BytePortEvents(c, st, id, data[0], disk, k) +
      if closing then [] else FeedPortEvents(c, st1, id, data[1..], disk, k)
  }

  ghost function NextPortEvents(c: Config, st: State, e: Happening, k: Key): seq<Recordable> {
    if st.fault then []
    else
      match e
      case Bytes(id, data, disk) => FeedPortEvents(c, st, id, data, disk, k)
      case Disconnect(id) => if id in st.connections then ClosePortEvents(st, id, k) else []
      case AtPort(m, step) => if m == k && IsPort(c, k) && FromPort(step) then [Doing(step)] else []
      case _ => []
  }

  ghost function TracePortEvents(c: Config, st: State, events: seq<Happening>, k: Key): seq<Recordable>
    decreases |events|
  {
    if events == [] then []
    else NextPortEvents(c, st, events[0], k) + TracePortEvents(c, Next(c, st, events[0]), events[1..], k)
  }

  // ----- One step of the daemon -------------------------------------------------------------

  // The events take the port at k from where it is in st to where it is in next.
  ghost predicate Takes(st: State, next: State, k: Key, events: seq<Recordable>) {
    AfterEvents(PortAt(st, k), events) == PortAt(next, k)
  }

  lemma TakesOne(st: State, next: State, k: Key, e: Recordable)
    requires PortAt(next, k) == AfterEvent(PortAt(st, k), e)
    ensures Takes(st, next, k, [e])
  {
    AfterOne(PortAt(st, k), e);
  }

  lemma TakesBoth(st: State, st1: State, next: State, k: Key, a: seq<Recordable>, b: seq<Recordable>)
    requires Takes(st, st1, k, a) && Takes(st1, next, k, b)
    ensures Takes(st, next, k, a + b)
  {
    AfterBoth(PortAt(st, k), a, b);
  }

  lemma LoadTakes(c: Config, st: State, id: Int32, cmd: Command, disk: Disk, k: Key)
    requires (LockAt(st, k).owner == NOBODY ==> PortAt(st, k).ring.None?) && IsPort(c, k) && cmd.LR?
    ensures Takes(st, LoadRecording(c, st, id, cmd, disk), k, LoadEvents(st, cmd, disk, k))
  {
    LoadedPort(c, st, id, cmd, disk, k);
    if LoadEvents(st, cmd, disk, k) != [] {
      AfterOne(PortAt(st, k), Loading(cmd.channels));
    }
  }

  lemma LoadedPort(c: Config, st: State, id: Int32, cmd: Command, disk: Disk, k: Key)
    requires IsPort(c, k) && cmd.LR?
    ensures PortAt(LoadRecording(c, st, id, cmd, disk), k) ==
            if LoadEvents(st, cmd, disk, k) == [] then PortAt(st, k)
            else AfterLoadRecord(PortAt(st, k), cmd.channels)
  {
    if k == Key(cmd.card, cmd.port) {
      LoadedHere(c, st, id, cmd, disk, k);
    } else {
      assert PortAt(LoadRecording(c, st, id, cmd, disk), k) == PortAt(st, k);
    }
  }

  lemma LoadedHere(c: Config, st: State, id: Int32, cmd: Command, disk: Disk, k: Key)
    requires IsPort(c, k) && cmd.LR? && k == Key(cmd.card, cmd.port)
    ensures PortAt(LoadRecording(c, st, id, cmd, disk), k) ==
            if LoadEvents(st, cmd, disk, k) == [] then PortAt(st, k)
            else AfterLoadRecord(PortAt(st, k), cmd.channels)
  {
  }

  lemma UnloadTakes(c: Config, st: State, id: Int32, cmd: Command, k: Key)
    requires IsPort(c, k) && cmd.UR?
    ensures Takes(st, UnloadRecording(c, st, id, cmd), k, UnloadEvents(st, id, cmd, k))
  {
    UnloadedPort(c, st, id, cmd, k);
    AfterOne(PortAt(st, k), Unloading);
  }

  lemma UnloadedPort(c: Config, st: State, id: Int32, cmd: Command, k: Key)
    requires IsPort(c, k) && cmd.UR?
    ensures PortAt(UnloadRecording(c, st, id, cmd), k) ==
            if UnloadEvents(st, id, cmd, k) == [] then PortAt(st, k) else Closed(PortAt(st, k))
  {
    if k == Key(cmd.card, cmd.stream) {
      UnloadedHere(c, st, id, cmd, k);
    } else {
      assert PortAt(UnloadRecording(c, st, id, cmd), k) == PortAt(st, k);
    }
  }

  lemma UnloadedHere(c: Config, st: State, id: Int32, cmd: Command, k: Key)
    requires IsPort(c, k) && cmd.UR? && k == Key(cmd.card, cmd.stream)
    ensures PortAt(UnloadRecording(c, st, id, cmd), k) ==
            if UnloadEvents(st, id, cmd, k) == [] then PortAt(st, k) else Closed(PortAt(st, k))
  {
  }

  lemma StartTakes(c: Config, st: State, id: Int32, cmd: Command, k: Key)
    requires IsPort(c, k) && cmd.RD?
    ensures Takes(st, StartRecording(c, st, id, cmd), k, StartEvents(st, id, cmd, k))
  {
    StartedPort(c, st, id, cmd, k);
    if StartEvents(st, id, cmd, k) != [] {
      AfterOne(PortAt(st, k), Doing(Start(Signed(cmd.length))));
    }
  }

  lemma StartedPort(c: Config, st: State, id: Int32, cmd: Command, k: Key)
    requires IsPort(c, k) && cmd.RD?
    ensures PortAt(StartRecording(c, st, id, cmd), k) ==
            if StartEvents(st, id, cmd, k) == [] || !PortAt(st, k).ready then PortAt(st, k)
            else AfterRecord(PortAt(st, k), Signed(cmd.length))
  {
  }

  lemma HaltTakes(c: Config, st: State, id: Int32, cmd: Command, k: Key)
    requires IsPort(c, k) && cmd.SR?
    ensures Takes(st, HaltRecording(c, st, id, cmd), k, HaltEvents(cmd, k))
  {
    HaltedPort(c, st, id, cmd, k);
    AfterOne(PortAt(st, k), Doing(StopRecording));
  }

  lemma HaltedPort(c: Config, st: State, id: Int32, cmd: Command, k: Key)
    requires IsPort(c, k) && cmd.SR?
    ensures PortAt(HaltRecording(c, st, id, cmd), k) ==
            if HaltEvents(cmd, k) == [] then PortAt(st, k) else PortAt(st, k).(recording := false)
  {
  }

  lemma ExecuteTakes(c: Config, st: State, id: Int32, t: seq<string>, disk: Disk, k: Key)
    requires Inv(c, st) && IsPort(c, k) && t != []
    ensures Takes(st, Execute(c, st, id, t, disk), k, CommandPortEvents(st, id, Parse(c, t), disk, k))
  {
    var cmd := Parse(c, t);
    if IsRecord(cmd) {
      PortFound(c, st, k);
      RecordTakes(c, st, id, cmd, disk, k);
    }
  }

  lemma RecordTakes(c: Config, st: State, id: Int32, cmd: Command, disk: Disk, k: Key)
    requires (LockAt(st, k).owner == NOBODY ==> PortAt(st, k).ring.None?) && IsPort(c, k) && IsRecord(cmd)
    ensures Takes(st, RecordCommand(c, st, id, cmd, disk), k, CommandPortEvents(st, id, cmd, disk, k))
  {
    if cmd.LR? {
      LoadTakes(c, st, id, cmd, disk, k);
    } else if cmd.UR? {
      UnloadTakes(c, st, id, cmd, k);
    } else if cmd.RD? {
      StartTakes(c, st, id, cmd, k);
    } else {
      HaltTakes(c, st, id, cmd, k);
    }
  }

  lemma CloseTakes(c: Config, st: State, id: Int32, k: Key)
    requires Inv(c, st) && id != NOBODY
    ensures Takes(st, CloseConnection(st, id), k, ClosePortEvents(st, id, k))
  {
    PortFound(c, st, k);
    if ClosePortEvents(st, id, k) != [] {
      TakesOne(st, CloseConnection(st, id), k, Unloading);
    }
  }

  lemma TakesNone(st: State, next: State, k: Key)
    requires next.ports == st.ports
    ensures Takes(st, next, k, [])
  {
  }

  lemma PasswordTakes(c: Config, st: State, id: Int32, t: seq<string>, k: Key)
    requires Inv(c, st) && id > 0 && id in st.connections
    ensures Takes(st, AfterPassword(c, st, id, t).0, k,
                  if |t| == 2 && t[1] == c.password then [] else ClosePortEvents(st, id, k))
  {
    var ok := |t| == 2 && t[1] == c.password;
    var st1 := Authenticate(st, id, ok);
    if ok {
      TakesNone(st, st1, k);
    } else {
      CloseTakes(c, st, id, k);
      CloseAnyway(st, id, st.connections[id].(authenticated := false), st1.sent);
    }
  }

  lemma PerformTakes(c: Config, st: State, id: Int32, t: seq<string>, disk: Disk, k: Key)
    requires Inv(c, st) && IsPort(c, k) && id > 0 && id in st.connections && t != []
    ensures Takes(st, Perform(c, st, id, t, disk).0, k, PerformPortEvents(c, st, id, t, disk, k))
  {
    if t[0] == "DC" {
      TakesNone(st, st.(connections := st.connections[id := st.connections[id].(open := false)]), k);
    } else if t[0] == "PW" {
      PasswordTakes(c, st, id, t, k);
    } else if !st.connections[id].authenticated {
      CloseTakes(c, st, id, k);
    } else {
      ExecuteTakes(c, st, id, t, disk, k);
    }
  }

  lemma ByteTakes(c: Config, st: State, id: Int32, ch: char, disk: Disk, k: Key)
    requires Inv(c, st) && IsPort(c, k) && id > 0 && id in st.connections
    ensures Takes(st, TakeByte(c, st, id, ch, disk).0, k, BytePortEvents(c, st, id, ch, disk, k))
  {
    var t := Tokens(st.connections[id].accum);
    if ch == '!' && t != [] {
      DispatchTakes(c, st, id, t, disk, k);
    }
  }

  lemma DispatchTakes(c: Config, st: State, id: Int32, t: seq<string>, disk: Disk, k: Key)
    requires Inv(c, st) && IsPort(c, k) && id > 0 && id in st.connections && t != []
    ensures Takes(st, Dispatch(c, st, id, t, disk).0, k, PerformPortEvents(c, st, id, t, disk, k))
  {
    ConnectionKept(c, st, id, st.connections[id].(accum := ""));
    PerformTakes(c, Received(st, id, t), id, t, disk, k);
    ReceivedPortEvents(c, st, id, t, disk, k);
  }

  lemma ReceivedPortEvents(c: Config, st: State, id: Int32, t: seq<string>, disk: Disk, k: Key)
    requires id in st.connections && t != []
    ensures PerformPortEvents(c, Received(st, id, t), id, t, disk, k) == PerformPortEvents(c, st, id, t, disk, k)
    ensures PortAt(Received(st, id, t), k) == PortAt(st, k)
  {
    var st1 := Received(st, id, t);
    assert st1.ports == st.ports && st1.locks == st.locks;
  }

  lemma {:induction false} FeedTakes(c: Config, st: State, id: Int32, data: string, disk: Disk, k: Key)
    requires Inv(c, st) && IsPort(c, k) && id > 0
    ensures Takes(st, Feed(c, st, id, data, disk), k, FeedPortEvents(c, st, id, data, disk, k))
    decreases |data|
  {
    if data != "" && Reading(st, id) {
      var (st1, closing) := TakeByte(c, st, id, data[0], disk);
      ByteGood(c, st, id, data[0], disk);
      ByteTakes(c, st, id, data[0], disk, k);
      FeedPortNext(c, st, id, data, disk, k);
      FeedNext(c, st, id, data, disk);
      FeedTakes(c, st1, id, data[1..], disk, k);
      TakesBoth(st, st1, Feed(c, st1, id, data[1..], disk), k, BytePortEvents(c, st, id, data[0], disk, k),
                FeedPortEvents(c, st1, id, data[1..], disk, k));
    }
  }

  lemma FeedPortNext(c: Config, st: State, id: Int32, data: string, disk: Disk, k: Key)
    requires data != "" && Reading(st, id)
    ensures FeedPortEvents(c, st, id, data, disk, k) ==
            BytePortEvents(c, st, id, data[0], disk, k) +
            FeedPortEvents(c, TakeByte(c, st, id, data[0], disk).0, id, data[1..], disk, k)
  {
    ClosingStops(c, st, id, data[0], disk);
  }

  lemma PortTakes(c: Config, st: State, m: Key, step: CaptureEvent, k: Key)
    requires !st.fault && IsPort(c, k)
    ensures Takes(st, Next(c, st, AtPort(m, step)), k, NextPortEvents(c, st, AtPort(m, step), k))
  {
    if m == k && FromPort(step) {
      TakesOne(st, PortStep(c, st, k, step), k, Doing(step));
    }
  }

  lemma NextTakes(c: Config, st: State, e: Happening, k: Key)
    requires Inv(c, st) && IsPort(c, k)
    ensures Takes(st, Next(c, st, e), k, NextPortEvents(c, st, e, k))
  {
    if !st.fault {
      match e {
        case Connect(_) =>
        case Bytes(id, data, disk) => FeedTakes(c, st, id, data, disk, k);
        case Disconnect(id) => CloseTakes(c, st, id, k);
        case AtSlot(m, event) =>
          if IsSlot(c, m) && FromDriver(event) {
            SlotStepFollows(c, st, m, event);
          }
        case AtPort(m, step) => PortTakes(c, st, m, step, k);
      }
    }
  }

  // ----- Whole runs ---------------------------------------------------------------------------

  lemma {:induction false} TraceTakes(c: Config, st: State, events: seq<Happening>, k: Key)
    requires Inv(c, st) && IsPort(c, k)
    ensures Takes(st, Trace(c, st, events), k, TracePortEvents(c, st, events, k))
    decreases |events|
  {
    if events != [] {
      var next := Next(c, st, events[0]);
      if !st.fault {
        NextGood(c, st, events[0]);
      }
      NextTakes(c, st, events[0], k);
      TraceTakes(c, next, events[1..], k);
      TakesBoth(st, next, Trace(c, next, events[1..]), k, NextPortEvents(c, st, events[0], k),
                TracePortEvents(c, next, events[1..], k));
    }
  }

  // In every run of the daemon the events that it brings to a record port, applied to a
  // port alone, give its state.
  lemma PortsRunAlone(c: Config, events: seq<Happening>, k: Key)
    requires IsPort(c, k)
    ensures AfterEvents(UNUSED, TracePortEvents(c, INITIAL, events, k)) == PortAt(Trace(c, INITIAL, events), k)
  {
    TraceTakes(c, INITIAL, events, k);
  }

  function JustLoaded(st: State, k: Key, channels: nat): RecordPort
    requires 1 <= channels <= 2
  {
    AfterEvent(PortAt(st, k), Loading(channels))
  }

  // From a load on, as long as the owner keeps it, the length that an unload reports is
  // the whole milliseconds of the frames captured, and the file holds them.
  lemma LengthIsFramesCaptured(c: Config, before: seq<Happening>, events: seq<Happening>, id: Int32, k: Key,
      channels: nat, steps: seq<CaptureEvent>) returns (frames: nat, ms: nat)
    requires IsPort(c, k) && 1 <= channels <= 2 && PortAt(Trace(c, INITIAL, before), k).ring.None?
    requires TracePortEvents(c, Trace(c, INITIAL, before), events, k) == [Loading(channels)] + All(steps)
    requires Fits(JustLoaded(Trace(c, INITIAL, before), k, channels), steps)
    requires !Trace(c, Trace(c, INITIAL, before), events).fault
    requires LockAt(Trace(c, Trace(c, INITIAL, before), events), k).owner == id
    ensures var p := JustLoaded(Trace(c, INITIAL, before), k, channels);
            var st := Trace(c, Trace(c, INITIAL, before), events);
            var next := UnloadRecording(c, st, id, UR(k.card, k.index));
      && next.sent == st.sent + [Message(id, Length(k.card, k.index, ms))]
      && frames * (2 * channels) == |Captured(p, steps)|
      && ms * c.rate <= 1000 * frames < (ms + 1) * c.rate
      && PortAt(next, k).written == Captured(p, steps)
  {
    var st0 := Trace(c, INITIAL, before);
    TraceGood(c, INITIAL, before);
    RecordingRuns(c, st0, events, k, channels, steps);
    frames := FramesRecorded(PortAt(st0, k), channels, steps);
    ms := UnloadReports(c, Trace(c, st0, events), id, k);
  }

  lemma FramesRecorded(p: RecordPort, channels: nat, steps: seq<CaptureEvent>) returns (frames: nat)
    requires p.ring.None? && 1 <= channels <= 2 && Fits(AfterEvent(p, Loading(channels)), steps)
    ensures var p0 := AfterEvent(p, Loading(channels));
            var q := CaptureRun(p0, steps);
      && q.ring.Some? && RecordedLength(q) == frames && frames * (2 * channels) == |Captured(p0, steps)|
      && AfterUnloadRecord(q).written == Captured(p0, steps)
  {
    RecordingConservesFrames(p, channels, steps);
    var n := |Captured(AfterEvent(p, Loading(channels)), steps)|;
    frames := n / (2 * channels);
    Division(n, 2 * channels);
  }

  lemma RecordingRuns(c: Config, st: State, events: seq<Happening>, k: Key, channels: nat, steps: seq<CaptureEvent>)
    requires Inv(c, st) && IsPort(c, k) && 1 <= channels <= 2 && PortAt(st, k).ring.None?
    requires TracePortEvents(c, st, events, k) == [Loading(channels)] + All(steps)
    ensures Inv(c, Trace(c, st, events))
    ensures PortAt(Trace(c, st, events), k) == CaptureRun(AfterLoadRecord(PortAt(st, k), channels), steps)
  {
    TraceGood(c, st, events);
    TraceTakes(c, st, events, k);
    assert ([Loading(channels)] + All(steps))[1..] == All(steps);
    AllRun(AfterLoadRecord(PortAt(st, k), channels), steps);
  }

  lemma UnloadReports(c: Config, st: State, id: Int32, k: Key) returns (ms: nat)
    requires Inv(c, st) && IsPort(c, k) && PortAt(st, k).ring.Some? && LockAt(st, k).owner == id
    ensures var next, p := UnloadRecording(c, st, id, UR(k.card, k.index)), PortAt(st, k);
      && next.sent == st.sent + [Message(id, Length(k.card, k.index, ms))]
      && ms * c.rate <= 1000 * RecordedLength(p) < (ms + 1) * c.rate
      && PortAt(next, k) == AfterUnloadRecord(p)
  {
    PortFound(c, st, k);
    ms := Milliseconds(c, RecordedLength(PortAt(st, k)));
    MillisecondsAre(c, RecordedLength(PortAt(st, k)));
  }

  lemma MillisecondsAre(c: Config, frames: nat)
    ensures var ms := Milliseconds(c, frames); ms * c.rate <= 1000 * frames < (ms + 1) * c.rate
  {
    Division(frames * 1000, c.rate);
  }
}
