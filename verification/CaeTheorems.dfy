// The promises of the daemon, over every run of connections, commands, driver events
// and disconnections.
module CaeTheorems {
  import opened Arithmetic
  import opened AlsaStream
  import opened AlsaCapture
  import opened PlaySessions
  import opened CaeModel
  import opened CaeInvariant
  import opened CaeRuns

  // ----- Sessions, slots and connections --------------------------------------------

  // In every reachable state the sessions have rings of their own, belong to live
  // authenticated connections and are filed under their handles; and the run has
  // faulted if and only if an event of it completed a command that does, or asked for a
  // fill that overruns.  In particular no message ever goes to a connection that is gone.
  lemma RunsKeepSessionsSound(c: Config, events: seq<Happening>)
    ensures var st := Trace(c, INITIAL, events);
      && (forall h :: h in st.sessions ==>
            var s := st.sessions[h];
            && s.sock > 0 && s.sock in st.connections && st.connections[s.sock].authenticated
            && MakeHandle(s.sock, s.serial) == h && h != 0
            && IsSlot(c, Place(s)) && SlotAt(st, Place(s)).ring.Some?)
      && (forall h, g :: h in st.sessions && g in st.sessions && h != g ==>
          Place(st.sessions[h]) != Place(st.sessions[g]))
      && (st.fault <==> Endangered(c, INITIAL, events))
  {
    TraceGood(c, INITIAL, events);
    TraceFaults(c, INITIAL, events);
    var st := Trace(c, INITIAL, events);
    forall h | h in st.sessions ensures h != 0 {
      OwnerOf(c, st, h);
    }
  }

  // GetPlayHandle finds the one session at a place, and 0 stands for none.
  lemma OwnerIsUnique(c: Config, events: seq<Happening>, k: Key, h: UInt64)
    requires h != 0
    ensures var st := Trace(c, INITIAL, events);
            GetPlayHandle(st.sessions, k) == h <==> h in st.sessions && Place(st.sessions[h]) == k
    ensures var st := Trace(c, INITIAL, events);
            GetPlayHandle(st.sessions, k) == 0 <==> k !in Places(st.sessions)
  {
    TraceGood(c, INITIAL, events);
    OwnerIsFound(c, Trace(c, INITIAL, events), k, h);
  }

  lemma OwnerIsFound(c: Config, st: State, k: Key, h: UInt64)
    requires Inv(c, st) && h != 0
    ensures GetPlayHandle(st.sessions, k) == h <==> h in st.sessions && Place(st.sessions[h]) == k
    ensures GetPlayHandle(st.sessions, k) == 0 <==> k !in Places(st.sessions)
  {
    if k in Places(st.sessions) {
      var g :| g in st.sessions && Place(st.sessions[g]) == k;
      OwnerOf(c, st, g);
    } else {
      NoOwner(c, st, k);
      if h in st.sessions {
        assert Place(st.sessions[h]) in Places(st.sessions);
      }
    }
  }

  // Were descriptor 0 handed out, the handle of its serial number 0 would be mistaken
  // for none: a stream that no session leads to is announced to that session.
  lemma HandleZeroConfuses(st: State, k: Key, h: UInt64)
    requires h in st.sessions && h == MakeHandle(st.sessions[h].sock, st.sessions[h].serial)
    requires st.sessions[h].sock == 0 && st.sessions[h].serial == 0 && 0 in st.connections
    requires k !in Places(st.sessions)
    ensures StatePlayUpdate(st, k, false) == st.(sent := st.sent + [Message(0, Echo(SP(0), true))])
  {
    Unowned(st.sessions, k);
    HandleOfPair(st.sessions[h].sock, st.sessions[h].serial);
  }

  lemma Unowned(sessions: map<UInt64, Session>, k: Key)
    requires k !in Places(sessions)
    ensures GetPlayHandle(sessions, k) == 0
  {
    forall h | h in sessions ensures Place(sessions[h]) != k {
      assert Place(sessions[h]) in Places(sessions);
    }
  }

  ghost predicate SentToClients(st: State, next: State) {
    && |st.sent| <= |next.sent| && next.sent[..|st.sent|] == st.sent
    && (forall i :: |st.sent| <= i < |next.sent| ==> Live(st.connections, next.sent[i].to))
  }

  // Every message of a driver event goes to a live authenticated connection.
  lemma DriverMessagesReachClients(c: Config, events: seq<Happening>, e: Happening)
    requires e.AtSlot? || e.AtPort?
    ensures var st := Trace(c, INITIAL, events); SentToClients(st, Next(c, st, e))
  {
    TraceGood(c, INITIAL, events);
    DriverMessages(c, Trace(c, INITIAL, events), e);
  }

  lemma DriverMessages(c: Config, st: State, e: Happening)
    requires Inv(c, st) && (e.AtSlot? || e.AtPort?)
    ensures SentToClients(st, Next(c, st, e))
  {
    if !st.fault {
      NextIsStep(c, st, e);
      if e.AtSlot? {
        if IsSlot(c, e.k) && FromDriver(e.event) {
          SlotMessages(c, st, e.k, e.event);
        }
      } else if IsPort(c, e.k) && FromPort(e.step) {
        PortMessages(c, st, e.k, e.step);
      }
    }
  }

  lemma SlotMessages(c: Config, st: State, k: Key, e: Event)
    requires Inv(c, st) && IsSlot(c, k) && FromDriver(e)
    ensures SentToClients(st, SlotStep(c, st, k, e))
  {
    if !StepFaults(c.formats[k.card], SlotAt(st, k), e) {
      var slot, stopped := SlotStepServes(c, st, k, e);
      SlotChangeFollows(c, st, k, slot);
      StepMessages(c, st, st.(slots := st.slots[k := slot]), k);
    }
  }

  lemma StepMessages(c: Config, st: State, st1: State, k: Key)
    requires Inv(c, st1) && st1 == st.(slots := st1.slots)
    ensures SentToClients(st, st1) && SentToClients(st, StatePlayUpdate(st1, k, false))
  {
    UpdateMessages(c, st1, k);
  }

  lemma UpdateMessages(c: Config, st: State, k: Key)
    requires Inv(c, st)
    ensures SentToClients(st, StatePlayUpdate(st, k, false))
  {
    if h :| h in st.sessions && Place(st.sessions[h]) == k {
      PlayUpdateReachesOwner(c, st, k, false);
      var s := st.sessions[h];
      MessageReaches(st, StatePlayUpdate(st, k, false), Message(s.sock, Echo(SP(s.serial), true)));
    } else {
      NoOwner(c, st, k);
    }
  }

  lemma MessageReaches(st: State, next: State, m: Message)
    requires next.sent == st.sent + [m] && Live(st.connections, m.to)
    ensures SentToClients(st, next)
  {
  }

  lemma PortMessages(c: Config, st: State, k: Key, e: CaptureEvent)
    requires Inv(c, st)
    ensures SentToClients(st, PortStep(c, st, k, e))
  {
    PortFound(c, st, k);
  }

  // A record timer ends the recording and tells the owner of the port.
  lemma RecordTimerTellsOwner(c: Config, st: State, k: Key)
    requires Inv(c, st) && !st.fault && IsPort(c, k) && PortAt(st, k).timer
    ensures var p, next := PortAt(st, k), Next(c, st, AtPort(k, RecordTimer));
            next == st.(ports := st.ports[k := p.(timer := false, recording := false)],
                        sent := st.sent + if !p.recording then []
                                          else [Message(LockAt(st, k).owner, Echo(SR(k.card, k.index), true))])
  {
    PortFound(c, st, k);
    NextIsStep(c, st, AtPort(k, RecordTimer));
    RecordTimerStep(c, st, k);
  }

  lemma RecordTimerStep(c: Config, st: State, k: Key)
    requires PortAt(st, k).timer
    requires PortAt(st, k).recording ==> LockAt(st, k).owner != NOBODY && LockAt(st, k).owner in st.connections
    ensures var p, next := PortAt(st, k), PortStep(c, st, k, RecordTimer);
            next == st.(ports := st.ports[k := p.(timer := false, recording := false)],
                        sent := st.sent + if !p.recording then []
                                          else [Message(LockAt(st, k).owner, Echo(SR(k.card, k.index), true))])
  {
    assert st.sent + [] == st.sent;
  }

  // ----- Rings --------------------------------------------------------------------------

  lemma {:induction false} PlacesCount(sessions: map<UInt64, Session>)
    requires Apart(sessions)
    ensures |Places(sessions)| == |sessions|
    decreases |sessions|
  {
    if sessions == map[] {
      assert Places(sessions) == {};
    } else {
      var h :| h in sessions;
      assert (sessions - {h}).Keys == sessions.Keys - {h};
      PlacesAfterUnload(sessions, h);
      PlacesCount(sessions - {h});
    }
  }

  // The rings allocated are those of the sessions and one for each load onto a serial
  // number in use, which is never freed.
  lemma RingsAreCounted(c: Config, events: seq<Happening>)
    ensures var st := Trace(c, INITIAL, events);
      && Places(st.sessions) <= Rings(st.slots)
      && |Rings(st.slots)| == |st.sessions| + st.reloads
      && (Rings(st.slots) == Places(st.sessions) <==> st.reloads == 0)
  {
    TraceGood(c, INITIAL, events);
    var st := Trace(c, INITIAL, events);
    PlacesHaveRings(c, st.sessions, st.slots);
    PlacesCount(st.sessions);
  }

  lemma PlacesHaveRings(c: Config, sessions: map<UInt64, Session>, slots: map<Key, Slot>)
    requires Housed(c, sessions, slots)
    ensures Places(sessions) <= Rings(slots)
    ensures |Rings(slots)| == |Places(sessions)| + |Stray(sessions, slots)|
    ensures Rings(slots) == Places(sessions) <==> |Stray(sessions, slots)| == 0
  {
    forall p | p in Places(sessions) ensures p in Rings(slots) {
      var h :| h in sessions && Place(sessions[h]) == p;
    }
    PartAndRest(Rings(slots), Places(sessions));
  }

  lemma PartAndRest(whole: set<Key>, part: set<Key>)
    requires part <= whole
    ensures |whole| == |part| + |whole - part| && (whole == part <==> |whole - part| == 0)
  {
    assert whole == part + (whole - part);
  }

  lemma LostRingsStay(c: Config, events: seq<Happening>, more: seq<Happening>)
    ensures Lost(Trace(c, INITIAL, events)) <= Lost(Trace(c, Trace(c, INITIAL, events), more))
  {
    TraceGood(c, INITIAL, events);
    TraceGood(c, Trace(c, INITIAL, events), more);
  }

  // ----- One client and the others ---------------------------------------------------------

  // Whatever bytes one client sends, and when it drops, the other connections and their
  // sessions with their slots stay as they are, and so do the owners of the ports that
  // other clients own.
  lemma ClientsAreIsolated(c: Config, events: seq<Happening>, e: Happening)
    requires e.Bytes? || e.Disconnect?
    ensures var st := Trace(c, INITIAL, events); Local(st, Next(c, st, e), e.id)
  {
    TraceGood(c, INITIAL, events);
    var st := Trace(c, INITIAL, events);
    if st.fault {
      KeptSelf(c, st, st, e.id);
    } else if e.Bytes? {
      FeedGood(c, st, e.id, e.data, e.disk);
    } else if e.id in st.connections {
      CloseKept(c, st, e.id);
    } else {
      KeptSelf(c, st, st, e.id);
    }
  }

  // The client that an event comes from.
  function Client(e: Happening): Int32 {
    if e.Bytes? || e.Disconnect? then e.id else NOBODY
  }

  lemma DriverKeepsLocks(c: Config, st: State, e: Happening)
    requires Client(e) == NOBODY
    ensures Next(c, st, e).locks == st.locks
  {
  }

  // A port is loaded exactly while a live connection owns it.
  lemma LoadedPortsAreOwned(c: Config, events: seq<Happening>, k: Key)
    ensures var st := Trace(c, INITIAL, events);
            PortAt(st, k).ring.Some? <==> LockAt(st, k).owner != NOBODY
    ensures var st := Trace(c, INITIAL, events);
            LockAt(st, k).owner != NOBODY ==> IsPort(c, k) && Live(st.connections, LockAt(st, k).owner)
  {
    TraceGood(c, INITIAL, events);
    PortFound(c, Trace(c, INITIAL, events), k);
  }

  // A lock passes only between nobody and the client whose bytes arrive or that drops.
  lemma LocksAreExclusive(c: Config, events: seq<Happening>, e: Happening, k: Key)
    ensures var st := Trace(c, INITIAL, events);
            Passes(OwnerIn(st.locks, k), OwnerIn(Next(c, st, e).locks, k), Client(e))
  {
    if Client(e) == NOBODY {
      DriverKeepsLocks(c, Trace(c, INITIAL, events), e);
    } else {
      ClientsAreIsolated(c, events, e);
    }
  }

  // The load that takes the lock of k, and the unload that gives it back.
  predicate Takes(c: Config, st: State, cmd: Command, disk: Disk, k: Key) {
    cmd.LR? && k == Key(cmd.card, cmd.port) && k.card < |c.formats| && LockAt(st, k).owner == NOBODY &&
        CanRecord(cmd, disk)
  }

  predicate Frees(st: State, id: Int32, cmd: Command, k: Key) {
    cmd.UR? && k == Key(cmd.card, cmd.stream) && LockAt(st, k).owner == id
  }

  // A privileged command changes the owner of a port only by a granted load, which is
  // answered with +, and by the owner's unload.
  lemma LockChangesByLoadAndUnload(c: Config, st: State, id: Int32, t: seq<string>, disk: Disk, k: Key)
    requires Inv(c, st) && Live(st.connections, id) && t != []
    ensures var cmd := Parse(c, t);
            LockAt(Execute(c, st, id, t, disk), k).owner ==
              if Takes(c, st, cmd, disk, k) then id else if Frees(st, id, cmd, k) then NOBODY else LockAt(st, k).owner
    ensures Takes(c, st, Parse(c, t), disk, k) ==>
              Execute(c, st, id, t, disk).sent == st.sent + [Message(id, Echo(Parse(c, t), true))]
  {
    var cmd := Parse(c, t);
    if cmd.UR? {
      PortFound(c, st, Key(cmd.card, cmd.stream));
    }
    LockStep(c, st, id, t, disk, k);
  }

  // What holds of the port that an unload names.
  predicate Loaded(c: Config, st: State, p: Key) {
    if LockAt(st, p).owner == NOBODY then PortAt(st, p).ring.None? else IsPort(c, p) && PortAt(st, p).ring.Some?
  }

  lemma LockStep(c: Config, st: State, id: Int32, t: seq<string>, disk: Disk, k: Key)
    requires id in st.connections && id != NOBODY && t != []
    requires Parse(c, t).UR? ==> Loaded(c, st, Key(Parse(c, t).card, Parse(c, t).stream))
    ensures var cmd := Parse(c, t);
            LockAt(Execute(c, st, id, t, disk), k).owner ==
              if Takes(c, st, cmd, disk, k) then id else if Frees(st, id, cmd, k) then NOBODY else LockAt(st, k).owner
    ensures Takes(c, st, Parse(c, t), disk, k) ==>
              Execute(c, st, id, t, disk).sent == st.sent + [Message(id, Echo(Parse(c, t), true))]
  {
    var cmd, next := Parse(c, t), Execute(c, st, id, t, disk);
    if cmd.LR? {
      LoadAndLock(c, st, id, cmd, disk, k);
      assert next == LoadRecording(c, st, id, cmd, disk);
    } else if cmd.UR? {
      UnloadAndLock(c, st, id, cmd, k);
      assert next == UnloadRecording(c, st, id, cmd);
    } else if cmd.RD? {
      RecordAndLock(c, st, id, cmd, k);
      assert next == StartRecording(c, st, id, cmd);
    } else {
      assert next.locks == st.locks;
    }
  }

  lemma LoadAndLock(c: Config, st: State, id: Int32, cmd: Command, disk: Disk, k: Key)
    requires cmd.LR? && id in st.connections
    ensures var next := LoadRecording(c, st, id, cmd, disk);
      && LockAt(next, k).owner == (if Takes(c, st, cmd, disk, k) then id else LockAt(st, k).owner)
      && (Takes(c, st, cmd, disk, k) ==> next.sent == st.sent + [Message(id, Echo(cmd, true))])
  {
  }

  lemma UnloadAndLock(c: Config, st: State, id: Int32, cmd: Command, k: Key)
    requires cmd.UR? && id in st.connections && id != NOBODY
    requires Loaded(c, st, Key(cmd.card, cmd.stream))
    ensures LockAt(UnloadRecording(c, st, id, cmd), k).owner == if Frees(st, id, cmd, k) then NOBODY
        else LockAt(st, k).owner
  {
  }

  lemma RecordAndLock(c: Config, st: State, id: Int32, cmd: Command, k: Key)
    requires cmd.RD?
    ensures LockAt(StartRecording(c, st, id, cmd), k).owner == LockAt(st, k).owner
  {
  }

  // What a privileged command changes at a port that another client owns: a record
  // command that names it stores its length and threshold, though it is refused, and a
  // stop that names it stops its recording.  Nothing else does.
  lemma OthersPortsChange(c: Config, st: State, id: Int32, t: seq<string>, disk: Disk, k: Key)
    requires Inv(c, st) && Live(st.connections, id) && t != [] && Others(st, id, k)
    ensures var cmd, next := Parse(c, t), Execute(c, st, id, t, disk);
      && LockAt(next, k) == LockAfter(LockAt(st, k), cmd, k) && PortAt(next, k) == PortAfter(PortAt(st, k), cmd, k)
  {
    PortFound(c, st, k);
    if IsRecord(Parse(c, t)) {
      assert Execute(c, st, id, t, disk) == RecordCommand(c, st, id, Parse(c, t), disk);
      OthersPortsStep(c, st, id, Parse(c, t), disk, k);
    }
  }

  function LockAfter(lock: Lock, cmd: Command, k: Key): Lock {
    if cmd.RD? && k == Key(cmd.card, cmd.stream)
    then lock.(length := Signed(cmd.length), threshold := cmd.threshold) else lock
  }

  function PortAfter(p: RecordPort, cmd: Command, k: Key): RecordPort {
    if cmd.SR? && k == Key(cmd.card, cmd.stream) then p.(recording := false) else p
  }

  predicate Others(st: State, id: Int32, k: Key) {
    LockAt(st, k).owner != NOBODY && LockAt(st, k).owner != id
  }

  lemma OthersPortsStep(c: Config, st: State, id: Int32, cmd: Command, disk: Disk, k: Key)
    requires IsRecord(cmd) && IsPort(c, k) && Others(st, id, k)
    ensures var next := RecordCommand(c, st, id, cmd, disk);
      && LockAt(next, k) == LockAfter(LockAt(st, k), cmd, k) && PortAt(next, k) == PortAfter(PortAt(st, k), cmd, k)
  {
    if cmd.LR? {
      OthersKeepAtLoad(c, st, id, cmd, disk, k);
    } else if cmd.UR? {
      OthersKeepAtUnload(c, st, id, cmd, k);
    } else if cmd.RD? {
      OthersLockAtRecord(c, st, id, cmd, k);
    } else {
      OthersPortAtHalt(c, st, id, cmd, k);
    }
  }

  lemma OthersKeepAtLoad(c: Config, st: State, id: Int32, cmd: Command, disk: Disk, k: Key)
    requires cmd.LR? && Others(st, id, k)
    ensures var next := LoadRecording(c, st, id, cmd, disk);
            LockAt(next, k) == LockAt(st, k) && PortAt(next, k) == PortAt(st, k)
  {
  }

  lemma OthersKeepAtUnload(c: Config, st: State, id: Int32, cmd: Command, k: Key)
    requires cmd.UR? && Others(st, id, k)
    ensures var next := UnloadRecording(c, st, id, cmd);
            LockAt(next, k) == LockAt(st, k) && PortAt(next, k) == PortAt(st, k)
  {
  }

  lemma OthersLockAtRecord(c: Config, st: State, id: Int32, cmd: Command, k: Key)
    requires cmd.RD? && IsPort(c, k) && Others(st, id, k)
    ensures var next := StartRecording(c, st, id, cmd);
            LockAt(next, k) == LockAfter(LockAt(st, k), cmd, k) && PortAt(next, k) == PortAt(st, k)
  {
    if k == Key(cmd.card, cmd.stream) {
      OthersRefused(c, st, id, cmd, k);
    } else {
      RecordElsewhere(c, st, id, cmd, k);
    }
  }

  lemma RecordElsewhere(c: Config, st: State, id: Int32, cmd: Command, k: Key)
    requires cmd.RD? && k != Key(cmd.card, cmd.stream)
    ensures var next := StartRecording(c, st, id, cmd);
            LockAt(next, k) == LockAt(st, k) && PortAt(next, k) == PortAt(st, k)
  {
  }

  lemma OthersRefused(c: Config, st: State, id: Int32, cmd: Command, k: Key)
    requires cmd.RD? && k == Key(cmd.card, cmd.stream) && k.card < |c.formats| && Others(st, id, k)
    ensures StartRecording(c, st, id, cmd) ==
            Send(WithLock(st, k, LockAfter(LockAt(st, k), cmd, k)), id, Echo(cmd, false))
  {
  }

  lemma OthersPortAtHalt(c: Config, st: State, id: Int32, cmd: Command, k: Key)
    requires cmd.SR? && IsPort(c, k)
    ensures var next := HaltRecording(c, st, id, cmd);
            LockAt(next, k) == LockAt(st, k) && PortAt(next, k) == PortAfter(PortAt(st, k), cmd, k)
  {
  }

  // ----- Commands that fault ----------------------------------------------------------------

  // A wave at most twice as fast as the card never overruns the transfer buffer.
  lemma NoOverrunUpToTwice(f: Format, w: Wave, held: nat, cursor: nat)
    requires w.rate <= 2 * f.rate
    ensures !Overruns(f, w, held, cursor)
  {
    var free := CAPACITY - held - 1;
    if free > 0 {
      ScaledAtMost(free, w.rate, f.rate, 2);
      WantedAtMost(f, w, free);
    }
  }

  lemma WantedAtMost(f: Format, w: Wave, free: nat)
    ensures Wanted(f, w, free) <= Scaled(free, w.rate, f.rate)
  {
  }

  // A stereo wave at 96 kHz does on a card at 44.1 kHz as soon as it is longer than the
  // buffer.
  lemma FastWaveOverruns(f: Format, w: Wave)
    requires f.rate == 44100 && w.rate == 96000 && w.channels == 2
    ensures Wanted(f, w, CAPACITY - 1) == 570648
    ensures Overruns(f, w, 0, 0) <==> |w.data| > 524288
  {
  }

  // A client that has loaded nothing.
  ghost predicate Fresh(c: Config, st: State, id: Int32) {
    Inv(c, st) && Live(st.connections, id) && st.slots == map[] && st.locks == map[]
  }

  // On a served card each of these leads to a fault at once: unloading a recording,
  // stopping one and setting an input volume beyond the ports, and loading a wave that
  // overruns.
  lemma FreshClientFaults(c: Config, st: State, id: Int32, cmd: Command, disk: Disk)
    requires Fresh(c, st, id) && |c.formats| > 0 && !c.formats[0].exiting && c.streams > 0
    requires cmd == UR(0, 0) || cmd == SR(0, c.ports) || cmd == IV(0, c.ports, 0) || (cmd.LP? && cmd.card == 0)
    requires cmd.LP? ==> cmd.name in disk.waves && FaultsAtLoad(c.formats[0], disk.waves[cmd.name])
    ensures Misuses(c, st, id, cmd, disk)
  {
  }

  // And so does a fade of length 0, once a wave is loaded.
  lemma FadeOfLengthZeroFaults(c: Config, st: State, id: Int32, cmd: Command, disk: Disk)
    requires Inv(c, st) && Live(st.connections, id) && !c.testing && cmd.LP?
    requires FindsStream(c, st, cmd, disk) && !LoadFaults(c, st, cmd, disk)
    ensures var next := LoadPlayback(c, st, id, cmd, disk);
            next.fault == st.fault && Misuses(c, next, id, FV(cmd.serial, 0, 0), disk)
  {
    var slot := LoadPlaybackLoads(c, st, id, cmd, disk);
  }
}
