// The invariant over whole runs of the daemon: dropped connections, the command
// gate, driver events, and what follows for every reachable state.
module CaeRuns {
  import opened AlsaStream
  import opened AlsaCapture
  import opened PlaySessions
  import opened CaeModel
  import opened CaeInvariant

  // ----- Dropping a connection ---------------------------------------------------------

  lemma StrayAfterKill(sessions: map<UInt64, Session>, slots: map<Key, Slot>, sock: Int32)
    requires Apart(sessions)
    ensures Stray(Remaining(sessions, sock), Vacated(slots, sessions, sock)) == Stray(sessions, slots)
  {
    var sessions1, slots1 := Remaining(sessions, sock), Vacated(slots, sessions, sock);
    forall k | k in Rings(slots) ensures k in Places(sessions1) ==> k in Places(sessions) {
      if k in Places(sessions1) {
        var h :| h in sessions1 && Place(sessions1[h]) == k;
        assert h in sessions;
      }
    }
    forall k | k in Places(sessions) && k in Rings(slots1) ensures k in Places(sessions1) {
      var h :| h in sessions && Place(sessions[h]) == k;
      assert !Occupies(sessions, sock, k);
      assert h in sessions1;
    }
    forall k | k in Rings(slots) && k !in Places(sessions) ensures k in Rings(slots1) {
      NotOccupied(sessions, sock, k);
    }
    assert Rings(slots1) <= Rings(slots);
  }

  lemma NotOccupied(sessions: map<UInt64, Session>, sock: Int32, k: Key)
    requires k !in Places(sessions)
    ensures !Occupies(sessions, sock, k)
  {
    forall h | h in sessions ensures Place(sessions[h]) != k {
      assert Place(sessions[h]) in Places(sessions);
    }
  }

  // A place that another connection occupies stays as it is.
  lemma OtherPlace(sessions: map<UInt64, Session>, slots: map<Key, Slot>, sock: Int32, h: UInt64)
    requires Apart(sessions) && h in sessions && sessions[h].sock != sock
    ensures !Occupies(sessions, sock, Place(sessions[h]))
    ensures SlotIn(Vacated(slots, sessions, sock), Place(sessions[h])) == SlotIn(slots, Place(sessions[h]))
  {
  }

  lemma KillOthers(sessions: map<UInt64, Session>, slots: map<Key, Slot>, sock: Int32)
    requires Apart(sessions)
    ensures OthersKeep(sessions, slots, Remaining(sessions, sock), Vacated(slots, sessions, sock), sock)
    ensures OthersGain(sessions, Remaining(sessions, sock), sock)
  {
    forall h | h in sessions && sessions[h].sock != sock
      ensures SlotIn(Vacated(slots, sessions, sock), Place(sessions[h])) == SlotIn(slots, Place(sessions[h]))
    {
      OtherPlace(sessions, slots, sock, h);
    }
  }

  lemma KillSessions(c: Config, connections: map<Int32, Connection>, sessions: map<UInt64, Session>,
      slots: map<Key, Slot>, sock: Int32)
    requires Owned(connections, sessions) && Housed(c, sessions, slots) && Apart(sessions)
    ensures var sessions1 := Remaining(sessions, sock);
            Owned(connections - {sock}, sessions1) && Housed(c, sessions1, Vacated(slots, sessions, sock)) &&
                Apart(sessions1)
  {
    forall h | h in sessions && sessions[h].sock != sock
      ensures SlotIn(Vacated(slots, sessions, sock), Place(sessions[h])) == SlotIn(slots, Place(sessions[h]))
    {
      OtherPlace(sessions, slots, sock, h);
    }
  }

  lemma KillLocks(c: Config, connections: map<Int32, Connection>, locks: map<Key, Lock>, ports: map<Key, RecordPort>,
      sock: Int32)
    requires Locked(c, connections, locks, ports)
    ensures Locked(c, connections - {sock}, Released(locks, sock), Abandoned(ports, locks, sock))
    ensures LocksPass(locks, Released(locks, sock), sock)
  {
  }

  lemma CloseKept(c: Config, st: State, id: Int32)
    requires Inv(c, st)
    ensures Kept(c, st, CloseConnection(st, id), id) && CloseConnection(st, id).fault == st.fault
  {
    StrayAfterKill(st.sessions, st.slots, id);
    KillSessions(c, st.connections, st.sessions, st.slots, id);
    KillOthers(st.sessions, st.slots, id);
    KillLocks(c, st.connections, st.locks, st.ports, id);
  }

  // Dropping a connection is complete: nothing of it is left, and its rings are free.
  lemma DropIsComplete(c: Config, st: State, sock: Int32)
    requires Inv(c, st) && sock != NOBODY
    ensures var next := CloseConnection(st, sock);
      && sock !in next.connections
      && (forall h :: h in next.sessions ==> next.sessions[h].sock != sock)
      && (forall h :: h in st.sessions && st.sessions[h].sock == sock ==>
          SlotAt(next, Place(st.sessions[h])).ring.None?)
      && (forall k :: LockAt(next, k).owner != sock)
      && (forall k :: LockAt(st, k).owner == sock ==> LockAt(next, k) == UNLOCKED && PortAt(next, k).ring.None?)
  {
    var next := CloseConnection(st, sock);
    forall h | h in st.sessions && st.sessions[h].sock == sock ensures SlotAt(next, Place(st.sessions[h])).ring.None? {
      assert Occupies(st.sessions, sock, Place(st.sessions[h]));
    }
  }

  // Dropping a connection is local: other connections, their sessions and locks, and the
  // slots and ports that sock did not use are as before.
  lemma DropIsLocal(c: Config, st: State, sock: Int32)
    requires Inv(c, st)
    ensures var next := CloseConnection(st, sock);
      && (forall i :: i in st.connections && i != sock ==>
          i in next.connections && next.connections[i] == st.connections[i])
      && (forall h :: h in st.sessions && st.sessions[h].sock != sock ==>
            h in next.sessions && next.sessions[h] == st.sessions[h]
            && SlotAt(next, Place(st.sessions[h])) == SlotAt(st, Place(st.sessions[h])))
      && (forall k :: k !in Places(st.sessions) ==> SlotAt(next, k) == SlotAt(st, k))
      && (forall k :: LockAt(st, k).owner != sock ==>
          LockAt(next, k) == LockAt(st, k) && PortAt(next, k) == PortAt(st, k))
      && next.sent == st.sent
  {
    DropKeepsSessions(st.sessions, st.slots, sock);
    DropKeepsSlots(st.sessions, st.slots, sock);
    DropKeepsPorts(st.locks, st.ports, sock);
  }

  lemma DropKeepsSessions(sessions: map<UInt64, Session>, slots: map<Key, Slot>, sock: Int32)
    requires Apart(sessions)
    ensures var sessions1, slots1 := Remaining(sessions, sock), Vacated(slots, sessions, sock);
            forall h :: h in sessions && sessions[h].sock != sock ==>
              h in sessions1 && sessions1[h] == sessions[h]
              && SlotIn(slots1, Place(sessions[h])) == SlotIn(slots, Place(sessions[h]))
  {
    KillOthers(sessions, slots, sock);
  }

  lemma DropKeepsSlots(sessions: map<UInt64, Session>, slots: map<Key, Slot>, sock: Int32)
    ensures forall k :: k !in Places(sessions) ==> SlotIn(Vacated(slots, sessions, sock), k) == SlotIn(slots, k)
  {
    forall k | k !in Places(sessions) ensures SlotIn(Vacated(slots, sessions, sock), k) == SlotIn(slots, k) {
      NotOccupied(sessions, sock, k);
    }
  }

  lemma DropKeepsPorts(locks: map<Key, Lock>, ports: map<Key, RecordPort>, sock: Int32)
    ensures forall k :: LockIn(locks, k).owner != sock ==>
              LockIn(Released(locks, sock), k) == LockIn(locks, k)
    ensures forall k :: LockIn(locks, k).owner != sock ==>
              PortIn(Abandoned(ports, locks, sock), k) == PortIn(ports, k)
  {
  }

  // ----- Commands --------------------------------------------------------------------------

  lemma ParseBounds(c: Config, t: seq<string>)
    requires t != []
    ensures Parse(c, t).LR? ==> Parse(c, t).card < c.maxCards && Parse(c, t).port < c.ports
  {
  }

  // The commands that lead to a fault: loads and seeks whose first fill reads more than
  // the transfer buffer holds, unloading a record port that nobody owns, stopping a
  // recording or setting an input volume beyond the ports, and a fade of length 0.
  predicate Misuses(c: Config, st: State, id: Int32, cmd: Command, disk: Disk) {
    match cmd
    case LP(_, _, _, _) => LoadFaults(c, st, cmd, disk)
    case PP(_, _) => SeekFaults(c, st, id, cmd)
    case UR(card, stream) => card < |c.formats| && LockAt(st, Key(card, stream)).owner == NOBODY
    case SR(card, stream) => card < |c.formats| && stream >= c.ports
    case IV(card, stream, _) => card < |c.formats| && stream >= c.ports
    case FV(serial, _, length) => !c.testing && length == 0 && MakeHandle(id, serial) in st.sessions
    case _ => false
  }

  lemma PlayCommandGood(c: Config, st: State, id: Int32, cmd: Command, disk: Disk)
    requires Inv(c, st) && !st.fault && Live(st.connections, id) && IsPlay(cmd)
    ensures var next := PlayCommand(c, st, id, cmd, disk);
            Kept(c, st, next, id) && (next.fault <==> Misuses(c, st, id, cmd, disk))
  {
    if cmd.LP? {
      LoadPlaybackGood(c, st, id, cmd, disk);
    } else if cmd.UP? {
      UnloadPlaybackGood(c, st, id, cmd);
    } else if cmd.PP? {
      PlayPositionGood(c, st, id, cmd);
    } else if cmd.PY? {
      StartPlaybackGood(c, st, id, cmd);
    } else {
      StopPlaybackGood(c, st, id, cmd);
    }
  }

  lemma RecordCommandGood(c: Config, st: State, id: Int32, cmd: Command, disk: Disk)
    requires Inv(c, st) && !st.fault && Live(st.connections, id) && IsRecord(cmd) && (cmd.LR? ==> cmd.port < c.ports)
    ensures var next := RecordCommand(c, st, id, cmd, disk);
            Kept(c, st, next, id) && (next.fault <==> Misuses(c, st, id, cmd, disk))
  {
    if cmd.LR? {
      LoadRecordingGood(c, st, id, cmd, disk);
    } else if cmd.RD? {
      StartRecordingGood(c, st, id, cmd);
    } else {
      StoppedRecordingGood(c, st, id, cmd, disk);
    }
  }

  lemma StoppedRecordingGood(c: Config, st: State, id: Int32, cmd: Command, disk: Disk)
    requires Inv(c, st) && !st.fault && Live(st.connections, id) && (cmd.UR? || cmd.SR?)
    ensures var next := RecordCommand(c, st, id, cmd, disk);
            Kept(c, st, next, id) && (next.fault <==> Misuses(c, st, id, cmd, disk))
  {
    if cmd.UR? {
      UnloadRecordingGood(c, st, id, cmd);
    } else {
      HaltRecordingGood(c, st, id, cmd);
    }
  }

  lemma InputVolumeGood(c: Config, st: State, id: Int32, cmd: Command, disk: Disk)
    requires Inv(c, st) && !st.fault && Live(st.connections, id) && cmd.IV?
    ensures var next := SetInputVolume(c, st, id, cmd);
            Kept(c, st, next, id) && (next.fault <==> Misuses(c, st, id, cmd, disk))
  {
    KeptSelf(c, st, SetInputVolume(c, st, id, cmd), id);
  }

  lemma FadeGood(c: Config, st: State, id: Int32, cmd: Command, disk: Disk)
    requires Inv(c, st) && !st.fault && Live(st.connections, id) && cmd.FV?
    ensures var next := FadeOutputVolume(c, st, id, cmd);
            Kept(c, st, next, id) && (next.fault <==> Misuses(c, st, id, cmd, disk))
  {
    KeptSelf(c, st, FadeOutputVolume(c, st, id, cmd), id);
    if MakeHandle(id, cmd.serial) in st.sessions {
      SessionFound(c, st, id, cmd.serial);
    }
    FadeFaults(c, st, id, cmd, disk);
  }

  lemma FadeFaults(c: Config, st: State, id: Int32, cmd: Command, disk: Disk)
    requires !st.fault && id in st.connections && cmd.FV?
    requires var h := MakeHandle(id, cmd.serial); h in st.sessions ==> st.sessions[h].card < |c.formats|
    ensures FadeOutputVolume(c, st, id, cmd).fault <==> Misuses(c, st, id, cmd, disk)
  {
  }

  lemma ExecuteGood(c: Config, st: State, id: Int32, t: seq<string>, disk: Disk)
    requires Inv(c, st) && !st.fault && Live(st.connections, id) && t != []
    ensures var next := Execute(c, st, id, t, disk);
            Kept(c, st, next, id) && (next.fault <==> Misuses(c, st, id, Parse(c, t), disk))
  {
    var cmd := Parse(c, t);
    if IsPlay(cmd) {
      PlayCommandGood(c, st, id, cmd, disk);
    } else if IsRecord(cmd) {
      ParseBounds(c, t);
      RecordCommandGood(c, st, id, cmd, disk);
    } else if cmd.IV? {
      InputVolumeGood(c, st, id, cmd, disk);
    } else if cmd.FV? {
      FadeGood(c, st, id, cmd, disk);
    } else {
      KeptSelf(c, st, Execute(c, st, id, t, disk), id);
    }
  }

  // A change to the connection of a client that does not take its authentication away.
  lemma ConnectionKept(c: Config, st: State, id: Int32, conn: Connection)
    requires Inv(c, st) && (id in st.connections && st.connections[id].authenticated ==> conn.authenticated)
    ensures Kept(c, st, st.(connections := st.connections[id := conn]), id)
  {
    StillLive(c, st.connections, id, conn, st.sessions, st.locks, st.ports);
    OthersSelf(st.sessions, st.slots, id);
  }

  lemma StillLive(c: Config, connections: map<Int32, Connection>, id: Int32, conn: Connection,
      sessions: map<UInt64, Session>,
                  locks: map<Key, Lock>, ports: map<Key, RecordPort>)
    requires Owned(connections, sessions) && Locked(c, connections, locks, ports)
    requires id in connections && connections[id].authenticated ==> conn.authenticated
    ensures Owned(connections[id := conn], sessions) && Locked(c, connections[id := conn], locks, ports)
    ensures connections[id := conn] - {id} == connections - {id} && LocksPass(locks, locks, id)
  {
  }

  lemma CloseAnyway(st: State, id: Int32, conn: Connection, sent: seq<Message>)
    requires id in st.connections
    ensures var next := CloseConnection(st.(connections := st.connections[id := conn], sent := sent), id);
            next == CloseConnection(st, id).(sent := sent)
  {
    assert st.connections[id := conn] - {id} == st.connections - {id};
  }

  lemma PasswordGood(c: Config, st: State, id: Int32, t: seq<string>, disk: Disk)
    requires Inv(c, st) && !st.fault && id > 0 && id in st.connections && t != [] && t[0] == "PW"
    ensures var next := Perform(c, st, id, t, disk).0; Kept(c, st, next, id) && !next.fault
  {
    var ok := |t| == 2 && t[1] == c.password;
    var conn := st.connections[id];
    var next, st1 := Perform(c, st, id, t, disk).0, Authenticate(st, id, ok);
    if ok {
      ConnectionKept(c, st, id, conn.(authenticated := true));
      KeptApart(c, st, st.(connections := st.connections[id := conn.(authenticated := true)]), next, id);
    } else {
      CloseAnyway(st, id, conn.(authenticated := false), st1.sent);
      CloseKept(c, st, id);
      KeptApart(c, st, CloseConnection(st, id), next, id);
    }
  }

  // The tokens are those of a privileged command.
  predicate Privileged(t: seq<string>) {
    t != [] && t[0] != "DC" && t[0] != "PW"
  }

  // A dispatched command faults exactly when it is privileged, its client is
  // authenticated, and it is one of those that lead to a fault.
  predicate Faults(c: Config, st: State, id: Int32, t: seq<string>, disk: Disk)
    requires id in st.connections
  {
    Privileged(t) && st.connections[id].authenticated && Misuses(c, st, id, Parse(c, t), disk)
  }

  lemma PerformGood(c: Config, st: State, id: Int32, t: seq<string>, disk: Disk)
    requires Inv(c, st) && !st.fault && id > 0 && id in st.connections && t != []
    ensures var next := Perform(c, st, id, t, disk).0;
            Kept(c, st, next, id) && (next.fault <==> Faults(c, st, id, t, disk))
  {
    if t[0] == "DC" {
      ConnectionKept(c, st, id, st.connections[id].(open := false));
    } else if t[0] == "PW" {
      PasswordGood(c, st, id, t, disk);
    } else if !st.connections[id].authenticated {
      CloseKept(c, st, id);
    } else {
      ExecuteGood(c, st, id, t, disk);
    }
  }

  lemma MisusesAnyway(c: Config, st: State, st1: State, id: Int32, cmd: Command, disk: Disk)
    requires st1.sessions == st.sessions && st1.slots == st.slots && st1.locks == st.locks
    ensures Misuses(c, st1, id, cmd, disk) == Misuses(c, st, id, cmd, disk)
  {
  }

  lemma DispatchGood(c: Config, st: State, id: Int32, t: seq<string>, disk: Disk)
    requires Inv(c, st) && !st.fault && id > 0 && id in st.connections && t != []
    ensures var next := Dispatch(c, st, id, t, disk).0;
            && Moved(c, st, next, id) && next.log == st.log + [(id, t)]
            && (next.fault <==> Faults(c, st, id, t, disk))
  {
    var st1 := Received(st, id, t);
    ConnectionKept(c, st, id, st.connections[id].(accum := ""));
    assert Moved(c, st, st1, id);
    MisusesAnyway(c, st, st1, id, Parse(c, t), disk);
    PerformGood(c, st1, id, t, disk);
    MovedTwice(c, st, st1, Perform(c, st1, id, t, disk).0, id);
  }

  // The byte completes a command that faults.
  predicate Completes(c: Config, st: State, id: Int32, ch: char, disk: Disk) {
    Reading(st, id) && ch == '!' && Faults(c, st, id, Tokens(st.connections[id].accum), disk)
  }

  lemma ByteGood(c: Config, st: State, id: Int32, ch: char, disk: Disk)
    requires Inv(c, st) && id > 0 && Reading(st, id)
    ensures var next := TakeByte(c, st, id, ch, disk).0;
            Moved(c, st, next, id) && (next.fault <==> Completes(c, st, id, ch, disk))
  {
    var conn := st.connections[id];
    if ch == '!' {
      var t := Tokens(conn.accum);
      if t == [] {
        KeptSelf(c, st, st, id);
      } else {
        DispatchGood(c, st, id, t, disk);
      }
    } else if ch == '\n' || ch == '\r' {
      KeptSelf(c, st, st, id);
    } else {
      ConnectionKept(c, st, id, conn.(accum := conn.accum + [ch]));
    }
  }

  lemma {:induction false} FeedGood(c: Config, st: State, id: Int32, data: string, disk: Disk)
    requires Inv(c, st) && !st.fault && id > 0
    ensures Moved(c, st, Feed(c, st, id, data, disk), id)
    decreases |data|
  {
    if data == "" || !Reading(st, id) {
      KeptSelf(c, st, st, id);
    } else {
      ByteGood(c, st, id, data[0], disk);
      var (st1, closing) := TakeByte(c, st, id, data[0], disk);
      if !closing && !st1.fault {
        FeedGood(c, st1, id, data[1..], disk);
        MovedTwice(c, st, st1, Feed(c, st1, id, data[1..], disk), id);
      }
    }
  }

  lemma ClosingStops(c: Config, st: State, id: Int32, ch: char, disk: Disk)
    requires id in st.connections
    ensures TakeByte(c, st, id, ch, disk).1 ==> !Reading(TakeByte(c, st, id, ch, disk).0, id)
  {
  }

  // Some byte of the data completes a command that faults.
  ghost predicate Misfeeds(c: Config, st: State, id: Int32, data: string, disk: Disk) {
    exists i :: 0 <= i < |data| && Completes(c, Feed(c, st, id, data[..i], disk), id, data[i], disk)
  }

  // The data faults where it completes such a command, and nowhere else.
  lemma {:induction false} FeedFaults(c: Config, st: State, id: Int32, data: string, disk: Disk)
    requires Inv(c, st) && !st.fault && id > 0
    ensures Feed(c, st, id, data, disk).fault <==> Misfeeds(c, st, id, data, disk)
    decreases |data|
  {
    if data != "" && Reading(st, id) {
      var (st1, closing) := TakeByte(c, st, id, data[0], disk);
      ByteGood(c, st, id, data[0], disk);
      if st1.fault {
        assert data[..0] == "" && Feed(c, st, id, "", disk) == st;
        assert Feed(c, st, id, data, disk) == st1;
        assert Completes(c, Feed(c, st, id, data[..0], disk), id, data[0], disk);
      } else {
        MisfeedsLater(c, st, id, data, disk);
        FeedNext(c, st, id, data, disk);
        FeedFaults(c, st1, id, data[1..], disk);
      }
    }
  }

  // Whether the first byte closes the connection or not.
  lemma FeedNext(c: Config, st: State, id: Int32, data: string, disk: Disk)
    requires data != "" && Reading(st, id)
    ensures Feed(c, st, id, data, disk) == Feed(c, TakeByte(c, st, id, data[0], disk).0, id, data[1..], disk)
  {
    ClosingStops(c, st, id, data[0], disk);
  }

  lemma LaterByte(c: Config, st: State, id: Int32, data: string, disk: Disk, i: nat)
    requires 0 < i < |data| && Reading(st, id)
    ensures var st1, later := TakeByte(c, st, id, data[0], disk).0, data[1..];
            Feed(c, st, id, data[..i], disk) == Feed(c, st1, id, later[..i - 1], disk) && data[i] == later[i - 1]
  {
    assert data[..i][1..] == data[1..][..i - 1];
    ClosingStops(c, st, id, data[0], disk);
  }

  lemma MisfeedsLater(c: Config, st: State, id: Int32, data: string, disk: Disk)
    requires data != "" && Reading(st, id) && !Completes(c, st, id, data[0], disk)
    ensures Misfeeds(c, st, id, data, disk) <==>
            Misfeeds(c, TakeByte(c, st, id, data[0], disk).0, id, data[1..], disk)
  {
    if Misfeeds(c, st, id, data, disk) {
      MisfeedsBehind(c, st, id, data, disk);
    }
    if Misfeeds(c, TakeByte(c, st, id, data[0], disk).0, id, data[1..], disk) {
      MisfeedsBefore(c, st, id, data, disk);
    }
  }

  lemma MisfeedsBehind(c: Config, st: State, id: Int32, data: string, disk: Disk)
    requires data != "" && Reading(st, id) && !Completes(c, st, id, data[0], disk)
    requires Misfeeds(c, st, id, data, disk)
    ensures Misfeeds(c, TakeByte(c, st, id, data[0], disk).0, id, data[1..], disk)
  {
    var i :| 0 <= i < |data| && Completes(c, Feed(c, st, id, data[..i], disk), id, data[i], disk);
    assert data[..0] == "";
    if i > 0 {
      LaterByte(c, st, id, data, disk, i);
    }
  }

  lemma MisfeedsBefore(c: Config, st: State, id: Int32, data: string, disk: Disk)
    requires data != "" && Reading(st, id)
    requires Misfeeds(c, TakeByte(c, st, id, data[0], disk).0, id, data[1..], disk)
    ensures Misfeeds(c, st, id, data, disk)
  {
    var st1, later := TakeByte(c, st, id, data[0], disk).0, data[1..];
    var j :| 0 <= j < |later| && Completes(c, Feed(c, st1, id, later[..j], disk), id, later[j], disk);
    LaterByte(c, st, id, data, disk, j + 1);
  }

  // ----- Driver events ---------------------------------------------------------------------

  // What a driver event leads to, before it is announced.
  ghost predicate Served(c: Config, st: State, next: State, k: Key, slot: Slot, stopped: bool) {
    next == if stopped then StatePlayUpdate(WithSlot(st, k, slot), k, false) else WithSlot(st, k, slot)
  }

  lemma SlotStepServes(c: Config, st: State, k: Key, e: Event) returns (slot: Slot, stopped: bool)
    requires IsSlot(c, k) && FromDriver(e) && !StepFaults(c.formats[k.card], SlotAt(st, k), e)
    ensures slot.ring.Some? <==> SlotAt(st, k).ring.Some?
    ensures slot == Step(c.formats[k.card], SlotAt(st, k), e).stream
    ensures stopped == (Stopped in Step(c.formats[k.card], SlotAt(st, k), e).notes)
    ensures Served(c, st, SlotStep(c, st, k, e), k, slot, stopped)
  {
    var o := Step(c.formats[k.card], SlotAt(st, k), e);
    slot, stopped := o.stream, Stopped in o.notes;
  }

  lemma ServedFollows(c: Config, st: State, next: State, k: Key, slot: Slot, stopped: bool)
    requires Inv(c, st) && !st.fault && (slot.ring.Some? <==> SlotAt(st, k).ring.Some?)
    requires Served(c, st, next, k, slot, stopped)
    ensures Follows(c, st, next) && !next.fault && next == st.(slots := next.slots, sent := next.sent)
  {
    SlotChangeFollows(c, st, k, slot);
    AnnouncedFollows(c, st.(slots := st.slots[k := slot]), k);
  }

  lemma SlotStepFollows(c: Config, st: State, k: Key, e: Event)
    requires Inv(c, st) && !st.fault && IsSlot(c, k) && FromDriver(e)
    ensures var next := SlotStep(c, st, k, e);
      && Follows(c, st, next) && next == st.(slots := next.slots, sent := next.sent, fault := next.fault)
      && (next.fault <==> StepFaults(c.formats[k.card], SlotAt(st, k), e))
  {
    if StepFaults(c.formats[k.card], SlotAt(st, k), e) {
      KeptSelf(c, st, st.(fault := true), NOBODY);
    } else {
      var slot, stopped := SlotStepServes(c, st, k, e);
      ServedFollows(c, st, SlotStep(c, st, k, e), k, slot, stopped);
    }
  }

  lemma AnnouncedFollows(c: Config, st: State, k: Key)
    requires Inv(c, st) && !st.fault
    ensures var next := StatePlayUpdate(st, k, false); next == st.(sent := next.sent) && Inv(c, next)
  {
    PlayUpdateFollows(c, st, k, false);
  }

  lemma PortStepFollows(c: Config, st: State, k: Key, e: CaptureEvent)
    requires Inv(c, st)
    ensures var next := PortStep(c, st, k, e);
            Follows(c, st, next) && next == st.(ports := next.ports, sent := next.sent)
  {
    var p := CaptureStep(PortAt(st, k), e);
    PortFieldsKept(c, st, k, p, 0);
    RecordUpdateFollows(c, st.(ports := st.ports[k := p]), k, false);
  }

  // ----- Runs --------------------------------------------------------------------------------

  // What leads from a state to a fault: data that completes such a command, and a
  // service whose fill reads more than the transfer buffer holds.
  ghost predicate Endangers(c: Config, st: State, e: Happening) {
    match e
    case Bytes(id, data, disk) => !st.fault && Misfeeds(c, st, id, data, disk)
    case AtSlot(k, event) =>
      !st.fault && IsSlot(c, k) && FromDriver(event) && StepFaults(c.formats[k.card], SlotAt(st, k), event)
    case _ => false
  }

  lemma NextGood(c: Config, st: State, e: Happening)
    requires Inv(c, st) && !st.fault
    ensures var next := Next(c, st, e); Follows(c, st, next) && (next.fault <==> Endangers(c, st, e))
  {
    match e {
      case Connect(id) =>
        if id !in st.connections {
          ConnectionKept(c, st, id, Connection(false, true, ""));
        }
      case Bytes(id, data, disk) =>
        FeedGood(c, st, id, data, disk);
        FeedFaults(c, st, id, data, disk);
      case Disconnect(id) => CloseKept(c, st, id);
      case AtSlot(_, _) => DriverGood(c, st, e);
      case AtPort(_, _) => DriverGood(c, st, e);
    }
  }

  lemma DriverGood(c: Config, st: State, e: Happening)
    requires Inv(c, st) && !st.fault && (e.AtSlot? || e.AtPort?)
    ensures var next := Next(c, st, e); Follows(c, st, next) && (next.fault <==> Endangers(c, st, e))
  {
    NextIsStep(c, st, e);
    if e.AtSlot? {
      if IsSlot(c, e.k) && FromDriver(e.event) {
        SlotStepFollows(c, st, e.k, e.event);
      }
    } else if IsPort(c, e.k) && FromPort(e.step) {
      PortStepFollows(c, st, e.k, e.step);
    }
  }

  lemma NextIsStep(c: Config, st: State, e: Happening)
    requires !st.fault
    ensures e.AtSlot? && IsSlot(c, e.k) && FromDriver(e.event) ==> Next(c, st, e) == SlotStep(c, st, e.k, e.event)
    ensures e.AtPort? && IsPort(c, e.k) && FromPort(e.step) ==> Next(c, st, e) == PortStep(c, st, e.k, e.step)
    ensures e.AtSlot? && !(IsSlot(c, e.k) && FromDriver(e.event)) ==> Next(c, st, e) == st
    ensures e.AtPort? && !(IsPort(c, e.k) && FromPort(e.step)) ==> Next(c, st, e) == st
  {
  }

  lemma {:induction false} TraceGood(c: Config, st: State, events: seq<Happening>)
    requires Inv(c, st)
    ensures Inv(c, Trace(c, st, events)) && Lost(st) <= Lost(Trace(c, st, events))
    decreases |events|
  {
    if events != [] {
      if !st.fault {
        NextGood(c, st, events[0]);
      }
      TraceGood(c, Next(c, st, events[0]), events[1..]);
    }
  }

  ghost predicate Endangered(c: Config, st: State, events: seq<Happening>) {
    exists i :: 0 <= i < |events| && Endangers(c, Trace(c, st, events[..i]), events[i])
  }

  // A run faults if and only if some event of it does.
  lemma {:induction false} TraceFaults(c: Config, st: State, events: seq<Happening>)
    requires Inv(c, st)
    ensures Trace(c, st, events).fault <==> st.fault || Endangered(c, st, events)
    decreases |events|
  {
    if events != [] {
      if !st.fault {
        NextGood(c, st, events[0]);
      }
      TraceFaults(c, Next(c, st, events[0]), events[1..]);
      EndangeredLater(c, st, events);
    }
  }

  lemma LaterEvent(c: Config, st: State, events: seq<Happening>, i: nat)
    requires 0 < i < |events|
    ensures var later := events[1..];
            Trace(c, st, events[..i]) == Trace(c, Next(c, st, events[0]), later[..i - 1]) && events[i] == later[i - 1]
  {
    assert events[..i][1..] == events[1..][..i - 1];
  }

  lemma EndangeredBehind(c: Config, st: State, events: seq<Happening>)
    requires events != [] && Endangered(c, st, events)
    ensures Endangers(c, st, events[0]) || Endangered(c, Next(c, st, events[0]), events[1..])
  {
    var i :| 0 <= i < |events| && Endangers(c, Trace(c, st, events[..i]), events[i]);
    assert events[..0] == [];
    if i > 0 {
      LaterEvent(c, st, events, i);
    }
  }

  lemma EndangeredLater(c: Config, st: State, events: seq<Happening>)
    requires events != []
    ensures Endangered(c, st, events) <==>
            Endangers(c, st, events[0]) || Endangered(c, Next(c, st, events[0]), events[1..])
  {
    assert events[..0] == [];
    if Endangered(c, st, events) {
      EndangeredBehind(c, st, events);
    }
    if Endangers(c, st, events[0]) {
      assert Endangers(c, Trace(c, st, events[..0]), events[0]);
    }
    var st1, later := Next(c, st, events[0]), events[1..];
    if j :| 0 <= j < |later| && Endangers(c, Trace(c, st1, later[..j]), later[j]) {
      LaterEvent(c, st, events, j + 1);
    }
  }
}
