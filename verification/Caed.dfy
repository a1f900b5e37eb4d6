// The daemon as it is written: the connection table of CaeServer (cae/cae_server.cpp)
// and the play sessions and record locks of MainObject (cae/cae.cpp), around the ALSA
// driver.  The ghost field model is the state of CaeModel that the objects stand for.
module Caed {
  import opened Wrappers
  import opened RingBuffer
  import opened AlsaStream
  import opened AlsaCapture
  import opened AlsaDriver
  import opened PlaySessions
  import opened CaeModel
  import opened CaeInvariant
  import opened CaeRuns

  class CaeServer {
    var connections: map<Int32, Connection>
    var sent: seq<Message>

    constructor ()
      ensures connections == map[] && sent == []
    {
      connections, sent := map[], [];
    }

    method SendCommand(id: Int32, r: Reply)
      requires id in connections
      modifies `sent
      ensures sent == old(sent) + [Message(id, r)]
    {
      sent := sent + [Message(id, r)];
    }
  }

  class MainObject {
    const config: Config
    const server: CaeServer
    const driver: DriverAlsa
    const record: array2<Lock>
    var playSessions: map<UInt64, PlaySession>
    var halted: bool
    ghost var model: State
    ghost var objects: set<PlaySession>  // the sessions there have been

    // The objects show the parts of the model.
    ghost predicate DriverShows(slots: map<Key, Slot>, ports: map<Key, RecordPort>)
      reads driver, driver.streams, driver.ports
    {
      && driver.Valid() && driver.formats == config.formats && driver.maxCards == config.maxCards
      && driver.maxStreams == config.streams && driver.maxPorts == config.ports
      && driver.slots == slots && driver.recorders == ports
    }

    ghost predicate LocksShow(locks: map<Key, Lock>)
      reads record
    {
      && record.Length0 == config.maxCards && record.Length1 == config.streams
      && (forall i, j :: 0 <= i < config.maxCards && 0 <= j < config.streams ==>
          record[i, j] == LockIn(locks, Key(i, j)))
    }

    ghost predicate SessionsShow(sessions: map<UInt64, Session>)
      reads `playSessions, `objects, objects
    {
      && playSessions.Keys == sessions.Keys
      && (forall h :: h in sessions ==>
            playSessions[h] in objects && playSessions[h].Value() == sessions[h] && playSessions[h].Handle() == h)
    }

    ghost predicate ServerShows(connections: map<Int32, Connection>, sent: seq<Message>)
      reads server
    {
      server.connections == connections && server.sent == sent
    }

    ghost predicate Valid()
      reads this, server, driver, driver.streams, driver.ports, record, objects
    {
      && DriverShows(model.slots, model.ports) && LocksShow(model.locks) && SessionsShow(model.sessions)
      && ServerShows(model.connections, model.sent) && halted == model.fault
    }

    constructor (setup: Config)
      ensures Valid() && fresh(server) && fresh(driver) && fresh(driver.streams) && fresh(driver.ports) &&
          fresh(record) && config == setup && model == INITIAL
    {
      config := setup;
      server := new CaeServer();
      driver := new DriverAlsa(setup.formats, setup.maxCards, setup.streams, setup.ports);
      record := new Lock[setup.maxCards, setup.streams]((_, _) => UNLOCKED);
      playSessions, halted, objects := map[], false, {};
      model := INITIAL;
    }

    // sendCommand to a connection that is there.
    method Reply(id: Int32, r: Reply)
      requires Valid() && id in model.connections
      modifies server`sent, `model
      ensures Valid() && model == Send(old(model), id, r)
    {
      server.SendCommand(id, r);
      model := Send(model, id, r);
    }

    method AddSession(phandle: UInt64, card: nat, port: nat, stream: nat)
      requires Valid()
      modifies `playSessions, `objects, `model
      ensures Valid() && fresh(objects - old(objects))
      ensures model == Enlist(old(model), phandle, NewSession(phandle, card, port, stream))
    {
      var s := new PlaySession(phandle, card, port, stream);
      playSessions := playSessions[phandle := s];
      objects := objects + {s};
      model := Enlist(model, phandle, NewSession(phandle, card, port, stream));
    }

    method LoadPlaybackData(phandle: UInt64, card: nat, port: nat, name: string, disk: Disk)
      requires Valid() && SocketDescriptor(phandle) in model.connections
      modifies `playSessions, `objects, `halted, `model, server`sent, driver.streams, driver`slots
      ensures Valid() && fresh(objects - old(objects))
      ensures model == LoadPlayback(config, old(model), SocketDescriptor(phandle),
          LP(SerialNumber(phandle), card, port, name), disk)
    {
      ghost var m := model;
      if card >= |driver.formats| {
        Reply(SocketDescriptor(phandle), Echo(LP(SerialNumber(phandle), card, port, name), false));
      } else {
        ghost var load := LoadOnCard(phandle, card, port, name, if name in disk.waves then Some(disk.waves[name])
            else None);
        LoadPlaybackIs(config, m, phandle, card, port, name, disk, load, model);
      }
    }

    method LoadOnCard(phandle: UInt64, card: nat, port: nat, name: string,
        wave: Option<Wave>) returns (ghost load: LoadResult)
      requires Valid() && SocketDescriptor(phandle) in model.connections && card < |config.formats|
      modifies `playSessions, `objects, `halted, `model, server`sent, driver.streams, driver`slots
      ensures Valid() && fresh(objects - old(objects))
      ensures CanLoad(config, old(model), card, wave, load) && model == Answered(load, phandle, card, port, name)
    {
      var ok, stream, fault := LoadStream(card, wave);
      load := LoadResult(ok, stream, fault, model);
      if fault {
        Halt();
      } else {
        FinishLoad(load, phandle, card, port, name, ok, stream);
      }
    }

    method FinishLoad(ghost load: LoadResult, phandle: UInt64, card: nat, port: nat, name: string, ok: bool,
        stream: int)
      requires Valid() && SocketDescriptor(phandle) in model.connections
      requires load == LoadResult(ok, stream, false, model) && (ok ==> stream >= 0)
      modifies `playSessions, `objects, `model, server`sent
      ensures Valid() && fresh(objects - old(objects))
      ensures model == Answered(load, phandle, card, port, name)
    {
      if ok {
        AddSession(phandle, card, port, stream);
      }
      Reply(SocketDescriptor(phandle), Echo(LP(SerialNumber(phandle), card, port, name), ok));
    }

    // The ring, the wave and the first fill of a load.
    method LoadStream(card: nat, wave: Option<Wave>) returns (ok: bool, stream: int, fault: bool)
      requires Valid() && card < |config.formats|
      modifies driver.streams, driver`slots, `model
      ensures Valid() && CanLoad(config, old(model), card, wave, LoadResult(ok, stream, fault, model))
    {
      ok, stream, fault := driver.LoadPlayback(card, wave);
      model := model.(slots := driver.slots);
    }

    method RemoveSession(phandle: UInt64)
      requires Valid()
      modifies `playSessions, `objects, `model
      ensures Valid() && objects == old(objects) && model == WithoutSession(old(model), phandle)
    {
      playSessions := playSessions - {phandle};
      model := WithoutSession(model, phandle);
    }

    method UnloadStream(card: nat, stream: nat) returns (ok: bool)
      requires Valid() && IsSlot(config, Key(card, stream))
      modifies driver.streams, driver`slots, `model
      ensures Valid() && ok == SlotAt(old(model), Key(card, stream)).ring.Some?
      ensures model == if ok then WithSlot(old(model), Key(card, stream),
          AfterUnload(SlotAt(old(model), Key(card, stream)))) else old(model)
    {
      ok := driver.UnloadPlayback(card, stream);
      model := model.(slots := driver.slots);
    }

    method UnloadPlaybackData(phandle: UInt64)
      requires Valid() && SocketDescriptor(phandle) in model.connections
      requires phandle in model.sessions ==> model.sessions[phandle].stream < config.streams
      modifies `playSessions, `objects, `model, server`sent, driver.streams, driver`slots
      ensures Valid() && objects == old(objects)
      ensures model == UnloadPlayback(config, old(model), SocketDescriptor(phandle), UP(SerialNumber(phandle)))
    {
      PairOfHandle(phandle);
      var id, cmd := SocketDescriptor(phandle), UP(SerialNumber(phandle));
      if phandle !in playSessions {
        Reply(id, Echo(cmd, false));
        return;
      }
      var s := playSessions[phandle];
      assert s.Value() == model.sessions[phandle];
      if s.cardNumber >= |driver.formats| {
        Reply(id, Echo(cmd, false));
        return;
      }
      UnloadOnCard(s.cardNumber, s.streamNumber, id, phandle, cmd);
    }

    method UnloadOnCard(card: nat, stream: nat, id: Int32, phandle: UInt64, cmd: Command)
      requires Valid() && id in model.connections && cmd.UP? && IsSlot(config, Key(card, stream))
      modifies `playSessions, `objects, `model, server`sent, driver.streams, driver`slots
      ensures Valid() && objects == old(objects)
      ensures model == UnloadSession(old(model), id, phandle, Key(card, stream), cmd)
    {
      var ok := UnloadStream(card, stream);
      Reply(id, Echo(cmd, ok));
      RemoveSession(phandle);
    }

    method SeekStream(card: nat, stream: nat, ms: nat) returns (ok: bool, fault: bool)
      requires Valid() && IsSlot(config, Key(card, stream)) && SlotAt(model, Key(card, stream)).ring.Some?
      modifies driver.streams, driver`slots, `model
      ensures Valid() && ok == CanSeek(config.formats[card], SlotAt(old(model), Key(card, stream)), ms)
      ensures fault == StepFaults(config.formats[card], SlotAt(old(model), Key(card, stream)), Seek(ms))
      ensures model ==
        if fault then old(model)
        else WithSlot(old(model), Key(card, stream),
            Step(config.formats[card], SlotAt(old(model), Key(card, stream)), Seek(ms)).stream)
    {
      ok, fault := driver.PlaybackPosition(card, stream, ms);
      model := model.(slots := driver.slots);
    }

    method PlayPositionData(phandle: UInt64, pos: UInt32)
      requires Valid() && SocketDescriptor(phandle) in model.connections
      requires phandle in model.sessions ==>
        model.sessions[phandle].stream < config.streams && SlotAt(model, Place(model.sessions[phandle])).ring.Some?
      modifies `halted, `model, server`sent, driver.streams, driver`slots
      ensures Valid()
      ensures model == PlayPosition(config, old(model), SocketDescriptor(phandle), PP(SerialNumber(phandle), pos))
    {
      PairOfHandle(phandle);
      var id, cmd := SocketDescriptor(phandle), PP(SerialNumber(phandle), pos);
      if phandle !in playSessions {
        Reply(id, Echo(cmd, false));
        return;
      }
      var s := playSessions[phandle];
      assert s.Value() == model.sessions[phandle];
      if s.cardNumber >= |driver.formats| {
        Reply(id, Echo(cmd, false));
        return;
      }
      SeekOnCard(s.cardNumber, s.streamNumber, id, cmd);
    }

    method SeekOnCard(card: nat, stream: nat, id: Int32, cmd: Command)
      requires Valid() && id in model.connections && cmd.PP?
      requires IsSlot(config, Key(card, stream)) && SlotAt(model, Key(card, stream)).ring.Some?
      modifies `halted, `model, server`sent, driver.streams, driver`slots
      ensures Valid() && model == SeekOrFault(config.formats[card], old(model), id, Key(card, stream), cmd)
    {
      var ok, fault := SeekStream(card, stream, cmd.ms);
      if fault {
        Halt();
      } else {
        Reply(id, Echo(cmd, ok));
      }
    }

    // The one session at a place, and the connection it belongs to.
    method GetPlayHandle(card: nat, stream: nat) returns (phandle: UInt64)
      requires Valid() && OneOwner(model, Key(card, stream))
      ensures phandle == CaeModel.GetPlayHandle(model.sessions, Key(card, stream))
    {
      var rest := playSessions.Keys;
      while rest != {}
        invariant rest <= playSessions.Keys
        invariant forall h :: h in playSessions.Keys - rest ==> Place(model.sessions[h]) != Key(card, stream)
      {
        var h :| h in rest;
        assert playSessions[h].Value() == model.sessions[h];
        if playSessions[h].cardNumber == card && playSessions[h].streamNumber == stream {
          return h;
        }
        rest := rest - {h};
      }
      return 0;
    }

    method StatePlayUpdate(card: nat, stream: nat, playing: bool)
      requires Valid() && OneOwner(model, Key(card, stream))
      modifies `model, server`sent
      ensures Valid() && model == CaeModel.StatePlayUpdate(old(model), Key(card, stream), playing)
    {
      var phandle := GetPlayHandle(card, stream);
      if phandle in playSessions {
        var s := playSessions[phandle];
        assert s.Value() == model.sessions[phandle];
        var serial := SerialNumber(phandle);
        Reply(SocketDescriptor(phandle), Echo(if playing then PY(serial, s.length, s.speed, 0) else SP(serial), true));
      }
    }

    // statePlayUpdate, if there is something to announce.
    method Announce(card: nat, stream: nat, playing: bool, changed: bool)
      requires Valid() && OneOwner(model, Key(card, stream))
      modifies `model, server`sent
      ensures Valid()
      ensures model ==
        if changed then CaeModel.StatePlayUpdate(old(model), Key(card, stream), playing) else old(model)
    {
      if changed {
        StatePlayUpdate(card, stream, playing);
      }
    }

    method SetSession(phandle: UInt64, length: UInt32, speed: UInt32)
      requires Valid() && phandle in model.sessions
      modifies playSessions[phandle], `model
      ensures Valid() && model == WithSession(old(model), phandle,
          old(model).sessions[phandle].(length := length, speed := speed))
    {
      var s := playSessions[phandle];
      assert s.Value() == model.sessions[phandle];
      forall g | g in playSessions && g != phandle ensures playSessions[g] != s {
        assert playSessions[g].Handle() == g && s.Handle() == phandle;
      }
      s.SetLength(length);
      s.SetSpeed(speed);
      model := WithSession(model, phandle, model.sessions[phandle].(length := length, speed := speed));
    }

    method PlayStream(card: nat, stream: nat, length: int, speed: nat) returns (ok: bool)
      requires Valid() && IsSlot(config, Key(card, stream))
      modifies driver.streams, driver`slots, `model
      ensures Valid() && ok == CanPlay(SlotAt(old(model), Key(card, stream)), speed)
      ensures model == if ok then WithSlot(old(model), Key(card, stream),
          AfterPlay(SlotAt(old(model), Key(card, stream)), length)) else old(model)
    {
      ok := driver.Play(card, stream, length, speed);
      model := model.(slots := driver.slots);
    }

    method PlayData(phandle: UInt64, length: UInt32, speed: UInt32, pitch: UInt32)
      requires Valid() && SocketDescriptor(phandle) in model.connections
      requires phandle in model.sessions ==>
        model.sessions[phandle].stream < config.streams && OneOwner(model, Place(model.sessions[phandle]))
      modifies `model, server`sent, driver.streams, driver`slots, objects
      ensures Valid()
      ensures model == StartPlayback(config, old(model), SocketDescriptor(phandle),
          PY(SerialNumber(phandle), length, speed, pitch))
    {
      PairOfHandle(phandle);
      var id, cmd := SocketDescriptor(phandle), PY(SerialNumber(phandle), length, speed, pitch);
      if phandle !in playSessions {
        Reply(id, Echo(cmd, false));
        return;
      }
      var s := playSessions[phandle];
      assert s.Value() == model.sessions[phandle];
      if s.cardNumber >= |driver.formats| {
        Reply(id, Echo(cmd, false));
        return;
      }
      PlayOnCard(s.cardNumber, s.streamNumber, phandle, cmd);
    }

    method PlayOnCard(card: nat, stream: nat, phandle: UInt64, cmd: Command)
      requires Valid() && SocketDescriptor(phandle) in model.connections && cmd.PY? && phandle in model.sessions
      requires IsSlot(config, Key(card, stream)) && Place(model.sessions[phandle]) == Key(card, stream) &&
          OneOwner(model, Key(card, stream))
      modifies `model, server`sent, driver.streams, driver`slots, playSessions[phandle]
      ensures Valid()
      ensures model == PlayOrRefuse(old(model), SocketDescriptor(phandle), phandle, Key(card, stream), cmd)
    {
      SetSession(phandle, cmd.length, cmd.speed);
      PlayOrSay(card, stream, SocketDescriptor(phandle), cmd);
    }

    method PlayOrSay(card: nat, stream: nat, id: Int32, cmd: Command)
      requires Valid() && id in model.connections && cmd.PY?
      requires IsSlot(config, Key(card, stream)) && OneOwner(model, Key(card, stream))
      modifies `model, server`sent, driver.streams, driver`slots
      ensures Valid() && model == PlayStored(old(model), id, Key(card, stream), cmd)
    {
      var ok := PlayStream(card, stream, Signed(cmd.length), cmd.speed);
      if ok {
        StatePlayUpdate(card, stream, true);
      } else {
        Reply(id, Echo(cmd, false));
      }
    }

    method StopStream(card: nat, stream: nat) returns (ok: bool)
      requires Valid() && IsSlot(config, Key(card, stream))
      modifies driver.streams, driver`slots, `model
      ensures Valid() && ok == CanStop(SlotAt(old(model), Key(card, stream)))
      ensures model == if ok then WithSlot(old(model), Key(card, stream),
          AfterStop(SlotAt(old(model), Key(card, stream)))) else old(model)
    {
      ok := driver.StopPlayback(card, stream);
      model := model.(slots := driver.slots);
    }

    method StopPlaybackData(phandle: UInt64)
      requires Valid() && SocketDescriptor(phandle) in model.connections
      requires phandle in model.sessions ==>
        model.sessions[phandle].stream < config.streams && OneOwner(model, Place(model.sessions[phandle]))
      modifies `model, server`sent, driver.streams, driver`slots
      ensures Valid()
      ensures model == StopPlayback(config, old(model), SocketDescriptor(phandle), SP(SerialNumber(phandle)))
    {
      PairOfHandle(phandle);
      var id, cmd := SocketDescriptor(phandle), SP(SerialNumber(phandle));
      if phandle !in playSessions {
        Reply(id, Echo(cmd, false));
      } else {
        var s := playSessions[phandle];
        assert s.Value() == model.sessions[phandle];
        if s.cardNumber >= |driver.formats| {
          Reply(id, Echo(cmd, false));
        } else {
          StopOnCard(s.cardNumber, s.streamNumber, id, cmd);
          return;
        }
      }
      Reply(id, Echo(cmd, false));
    }

    method StopOnCard(card: nat, stream: nat, id: Int32, cmd: Command)
      requires Valid() && id in model.connections && cmd.SP?
      requires IsSlot(config, Key(card, stream)) && OneOwner(model, Key(card, stream))
      modifies `model, server`sent, driver.streams, driver`slots
      ensures Valid()
      ensures model == StopOrRefuse(old(model), id, Key(card, stream), cmd)
    {
      var ok := StopStream(card, stream);
      if !ok {
        Reply(id, Echo(cmd, false));
        return;
      }
      StatePlayUpdate(card, stream, false);
    }

    // ----- Recording ---------------------------------------------------------------

    method SetLock(card: nat, stream: nat, lock: Lock)
      requires Valid() && card < config.maxCards && stream < config.streams
      modifies record, `model
      ensures Valid() && model == WithLock(old(model), Key(card, stream), lock)
    {
      record[card, stream] := lock;
      model := WithLock(model, Key(card, stream), lock);
    }

    method LoadPort(card: nat, port: nat, cmd: Command, disk: Disk) returns (ok: bool)
      requires Valid() && IsPort(config, Key(card, port)) && cmd.LR?
      modifies driver.ports, driver`recorders, `model
      ensures Valid() && ok == CanRecord(cmd, disk)
      ensures model == if ok then WithPort(old(model), Key(card, port),
          AfterLoadRecord(PortAt(old(model), Key(card, port)), cmd.channels)) else old(model)
    {
      ok := driver.LoadRecord(card, port, cmd.coding, cmd.channels, cmd.rate, cmd.name in disk.writable);
      model := model.(ports := driver.recorders);
    }

    method LoadRecordingData(id: Int32, cmd: Command, disk: Disk)
      requires Valid() && id in model.connections && cmd.LR? && cmd.card < config.maxCards && cmd.port < config.ports
      modifies record, `model, server`sent, driver.ports, driver`recorders
      ensures Valid() && model == LoadRecording(config, old(model), id, cmd, disk)
    {
      var card, port := cmd.card, cmd.port;
      if card >= |driver.formats| {
        Reply(id, Echo(cmd, false));
        return;
      }
      if record[card, port].owner == NOBODY {
        var ok := LoadPort(card, port, cmd, disk);
        if !ok {
          Reply(id, Echo(cmd, false));
          return;
        }
        SetLock(card, port, record[card, port].(owner := id));
        Reply(id, Echo(cmd, true));
      } else {
        Reply(id, Echo(cmd, false));
      }
    }

    method UnloadPort(card: nat, port: nat) returns (length: nat)
      requires Valid() && IsPort(config, Key(card, port)) && PortAt(model, Key(card, port)).ring.Some?
      modifies driver.ports, driver`recorders, `model
      ensures Valid() && length == RecordedLength(PortAt(old(model), Key(card, port)))
      ensures model == WithPort(old(model), Key(card, port), AfterUnloadRecord(PortAt(old(model), Key(card, port))))
    {
      length := driver.UnloadRecord(card, port);
      model := model.(ports := driver.recorders);
    }

    // The driver would use a ring or a port that is not there.
    method Halt()
      requires Valid()
      modifies `halted, `model
      ensures Valid() && model == old(model).(fault := true)
    {
      halted := true;
      model := model.(fault := true);
    }

    method UnloadRecordingData(id: Int32, card: nat, stream: nat)
      requires Valid() && id in model.connections && card < config.maxCards && stream < config.streams
      modifies record, `halted, `model, server`sent, driver.ports, driver`recorders
      ensures Valid() && model == UnloadRecording(config, old(model), id, UR(card, stream))
    {
      if card >= |driver.formats| {
        Reply(id, Echo(UR(card, stream), false));
        return;
      }
      var owner := record[card, stream].owner;
      if owner == NOBODY || owner == id {
        UnloadRecordPort(id, card, stream);
      } else {
        Reply(id, Echo(UR(card, stream), false));
      }
    }

    method UnloadRecordPort(id: Int32, card: nat, stream: nat)
      requires Valid() && id in model.connections && card < |config.formats| && stream < config.streams
      modifies record, `halted, `model, server`sent, driver.ports, driver`recorders
      ensures Valid() && model == UnloadOrFault(config, old(model), id, Key(card, stream))
    {
      if stream >= config.ports || driver.ports[card, stream].ring.None? {
        Halt();
        return;
      }
      var length := UnloadPort(card, stream);
      SetLock(card, stream, record[card, stream].(owner := NOBODY));
      Reply(id, Length(card, stream, Milliseconds(config, length)));
    }

    method StateRecordUpdate(card: nat, stream: nat, started: bool)
      requires Valid() && card < config.maxCards && stream < config.streams
      requires LockAt(model, Key(card, stream)).owner != NOBODY ==>
          LockAt(model, Key(card, stream)).owner in model.connections
      modifies `model, server`sent
      ensures Valid() && model == CaeModel.StateRecordUpdate(old(model), Key(card, stream), started)
    {
      var owner := record[card, stream].owner;
      if owner != NOBODY {
        Reply(owner, if started then RS(card, stream) else Echo(SR(card, stream), true));
      }
    }

    method RecordPort(card: nat, port: nat, length: int) returns (ok: bool)
      requires Valid() && IsPort(config, Key(card, port))
      modifies driver.ports, driver`recorders, `model
      ensures Valid() && ok == PortAt(old(model), Key(card, port)).ready
      ensures model == if ok then WithPort(old(model), Key(card, port),
          AfterRecord(PortAt(old(model), Key(card, port)), length)) else old(model)
    {
      ok := driver.Record(card, port, length);
      model := model.(ports := driver.recorders);
    }

    method RecordData(id: Int32, card: nat, stream: nat, length: UInt32, threshold: Int32)
      requires Valid() && id in model.connections && card < config.maxCards && stream < config.streams
      requires LockAt(model, Key(card, stream)).owner == id ==> stream < config.ports
      modifies record, `model, server`sent, driver.ports, driver`recorders
      ensures Valid() && model == StartRecording(config, old(model), id, RD(card, stream, length, threshold))
    {
      var cmd := RD(card, stream, length, threshold);
      if card >= |driver.formats| {
        Reply(id, Echo(cmd, false));
        return;
      }
      SetLock(card, stream, record[card, stream].(length := Signed(length), threshold := threshold));
      RecordOnCard(id, cmd);
    }

    method RecordOnCard(id: Int32, cmd: Command)
      requires Valid() && id in model.connections && cmd.RD?
      requires cmd.card < |config.formats| && cmd.stream < config.streams
      requires LockAt(model, Key(cmd.card, cmd.stream)).owner == id ==> cmd.stream < config.ports
      requires LockAt(model, Key(cmd.card, cmd.stream)).length == Signed(cmd.length)
      modifies `model, server`sent, driver.ports, driver`recorders
      ensures Valid() && model == RecordOrRefuse(old(model), id, Key(cmd.card, cmd.stream), cmd)
    {
      if record[cmd.card, cmd.stream].owner == id {
        var ok := RecordPort(cmd.card, cmd.stream, record[cmd.card, cmd.stream].length);
        if !ok {
          Reply(id, Echo(cmd, false));
          return;
        }
        StateRecordUpdate(cmd.card, cmd.stream, true);
        return;
      }
      Reply(id, Echo(cmd, false));
    }

    method StopPort(card: nat, port: nat) returns (ok: bool)
      requires Valid() && IsPort(config, Key(card, port))
      modifies driver.ports, driver`recorders, `model
      ensures Valid() && ok == PortAt(old(model), Key(card, port)).recording
      ensures model == if ok then WithPort(old(model), Key(card, port),
          PortAt(old(model), Key(card, port)).(recording := false)) else old(model)
    {
      ok := driver.StopRecord(card, port);
      model := model.(ports := driver.recorders);
    }

    method StopRecordingData(id: Int32, card: nat, stream: nat)
      requires Valid() && id in model.connections && card < config.maxCards && stream < config.streams
      requires LockAt(model, Key(card, stream)).owner != NOBODY ==>
          LockAt(model, Key(card, stream)).owner in model.connections
      modifies `halted, `model, server`sent, driver.ports, driver`recorders
      ensures Valid() && model == HaltRecording(config, old(model), id, SR(card, stream))
    {
      if card >= |driver.formats| {
        Reply(id, Echo(SR(card, stream), false));
        return;
      }
      if stream >= config.ports {
        Halt();
        return;
      }
      var ok := StopPort(card, stream);
      if ok {
        StateRecordUpdate(card, stream, false);
      } else {
        Reply(id, Echo(SR(card, stream), false));
      }
    }

    // ----- Dropping a connection --------------------------------------------------

    method KillSession(h: UInt64)
      requires Valid() && h in model.sessions && IsSlot(config, Place(model.sessions[h])) &&
          SlotAt(model, Place(model.sessions[h])).ring.Some?
      modifies `playSessions, `objects, `model, driver.streams, driver`slots
      ensures Valid() && objects == old(objects)
      ensures var k := Place(old(model).sessions[h]);
              model == WithoutSession(WithSlot(old(model), k, Dropped(SlotAt(old(model), k))), h)
    {
      assert playSessions[h].Value() == model.sessions[h];
      var ok := UnloadStream(playSessions[h].cardNumber, playSessions[h].streamNumber);
      RemoveSession(h);
    }

    // The walk over the play sessions in KillSocket, which erases on the way.
    method KillSessions(sock: Int32)
      requires Valid() && Apart(model.sessions) && Housed(config, model.sessions, model.slots)
      modifies `playSessions, `objects, `model, driver.streams, driver`slots
      ensures Valid() && objects == old(objects)
      ensures model == old(model).(sessions := Remaining(old(model).sessions, sock),
          slots := Vacated(old(model).slots, old(model).sessions, sock))
    {
      ghost var m := model;
      var rest := playSessions.Keys;
      NoneVisited(m.sessions, m.slots, sock);
      while rest != {}
        invariant Valid() && objects == old(objects) && rest <= m.sessions.Keys
        invariant model == Walked(m, rest, sock)
      {
        var h :| h in rest;
        VisitNext(config, m, rest, h, sock);
        assert playSessions[h].Value() == model.sessions[h];
        if playSessions[h].socketDescriptor == sock {
          KillSession(h);
        }
        rest := rest - {h};
      }
      AllVisited(m, sock);
    }

    // The record lock of one port.
    method KillRecord(card: nat, stream: nat, sock: Int32)
      requires Valid() && card < config.maxCards && stream < config.streams && sock != NOBODY
      requires LockAt(model, Key(card, stream)).owner == sock ==>
        IsPort(config, Key(card, stream)) && PortAt(model, Key(card, stream)).ring.Some?
      modifies record, `model, driver.ports, driver`recorders
      ensures Valid()
      ensures model == RecordKilled(old(model), Key(card, stream), sock)
    {
      if record[card, stream].owner == sock {
        var length := UnloadPort(card, stream);
        SetLock(card, stream, UNLOCKED);
      }
    }

    method KillPair(ghost m: State, i: nat, j: nat, ghost walked: bool, sock: Int32)
      requires Valid() && Droppable(config, m, sock) && sock != NOBODY && model == Killed(m, i, j, walked, sock)
      requires i < config.maxCards && j < config.streams
      modifies `playSessions, `objects, `model, record, driver.streams, driver`slots, driver.ports, driver`recorders
      ensures Valid() && objects == old(objects) && model == Killed(m, i, j + 1, true, sock)
    {
      KillNext(config, m, i, j, walked, sock);
      KillRecord(i, j, sock);
      KillSessions(sock);
    }

    method KillSocket(sock: Int32)
      requires Valid() && Droppable(config, model, sock) && sock != NOBODY
      modifies `playSessions, `objects, `model, record, driver.streams, driver`slots, driver.ports, driver`recorders
      ensures Valid() && objects == old(objects)
      ensures model == CaeModel.KillSocket(old(model), sock)
    {
      ghost var m := model;
      ghost var walked := false;
      NothingKilled(m, sock);
      for i := 0 to config.maxCards
        invariant Valid() && objects == old(objects)
        invariant model == Killed(m, i, 0, walked, sock) && (walked || i == 0 || config.streams == 0)
      {
        for j := 0 to config.streams
          invariant Valid() && objects == old(objects)
          invariant model == Killed(m, i, j, walked, sock) && (walked || j == 0)
        {
          KillPair(m, i, j, walked, sock);
          walked := true;
        }
        RowKilled(config, m, i, walked, sock);
      }
      AllKilled(config, m, walked, sock);
    }

    // ----- Connections and commands ------------------------------------------------

    method SetConnection(id: Int32, conn: Connection)
      requires Valid()
      modifies server`connections, `model
      ensures Valid() && model == old(model).(connections := old(model).connections[id := conn])
    {
      server.connections := server.connections[id := conn];
      model := model.(connections := model.connections[id := conn]);
    }

    method RemoveConnection(id: Int32)
      requires Valid()
      modifies server`connections, `model
      ensures Valid() && model == old(model).(connections := old(model).connections - {id})
    {
      server.connections := server.connections - {id};
      model := model.(connections := model.connections - {id});
    }

    method NewConnectionData(id: Descriptor)
      requires Valid() && !halted && id !in model.connections
      modifies server`connections, `model
      ensures Valid() && model == Next(config, old(model), Connect(id))
    {
      SetConnection(id, Connection(false, true, ""));
    }

    method ConnectionClosedData(id: Int32)
      requires Valid() && Droppable(config, model, id) && id != NOBODY
      modifies `playSessions, `objects, `model, server`connections, record, driver.streams, driver`slots, driver.ports,
          driver`recorders
      ensures Valid() && objects == old(objects)
      ensures model == CloseConnection(old(model), id)
    {
      KillSocket(id);
      RemoveConnection(id);
    }

    // The signals that CaeServer emits for commands on a session carry its handle.
    method EmitPlayCommand(id: Int32, cmd: Command, disk: Disk)
      requires Valid() && !halted && id in model.connections && IsPlay(cmd)
      requires Found(config, model, MakeHandle(id, cmd.serial))
      modifies `playSessions, `objects, `halted, `model, server`sent, driver.streams, driver`slots, objects
      ensures Valid() && fresh(objects - old(objects))
      ensures model == PlayCommand(config, old(model), id, cmd, disk)
    {
      var phandle := MakeHandle(id, cmd.serial);
      HandleOfPair(id, cmd.serial);
      match cmd {
        case LP(_, card, port, name) => LoadPlaybackData(phandle, card, port, name, disk);
        case UP(_) => UnloadPlaybackData(phandle);
        case PP(_, ms) => PlayPositionData(phandle, ms);
        case PY(_, length, speed, pitch) => PlayData(phandle, length, speed, pitch);
        case SP(_) => StopPlaybackData(phandle);
      }
    }

    method EmitRecordCommand(id: Int32, cmd: Command, disk: Disk)
      requires Valid() && id in model.connections && id != NOBODY && IsRecord(cmd) && Within(config, cmd)
      requires !cmd.LR? ==> Reachable(config, model, Key(cmd.card, cmd.stream))
      modifies record, `halted, `model, server`sent, driver.ports, driver`recorders
      ensures Valid() && model == RecordCommand(config, old(model), id, cmd, disk)
    {
      match cmd {
        case LR(_, _, _, _, _, _, _) => LoadRecordingData(id, cmd, disk);
        case UR(card, stream) => UnloadRecordingData(id, card, stream);
        case RD(card, stream, length, threshold) => RecordData(id, card, stream, length, threshold);
        case SR(card, stream) => StopRecordingData(id, card, stream);
      }
    }

    // ----- Mixer commands -----------------------------------------------------------

    method SetInputVolumeData(id: Int32, card: nat, stream: nat, level: Int32)
      requires Valid() && id in model.connections
      modifies `halted, `model, server`sent
      ensures Valid() && model == SetInputVolume(config, old(model), id, IV(card, stream, level))
    {
      if card >= |driver.formats| {
        Reply(id, Echo(IV(card, stream, level), false));
      } else if stream >= config.ports {
        Halt();
      } else {
        Reply(id, Echo(IV(card, stream, level), true));
      }
    }

    method FadeOutputVolumeData(phandle: UInt64, level: Int32, length: UInt32)
      requires Valid() && SocketDescriptor(phandle) in model.connections
      modifies `halted, `model, server`sent
      ensures Valid() && model ==
        FadeOutputVolume(config, old(model), SocketDescriptor(phandle), FV(SerialNumber(phandle), level, length))
    {
      PairOfHandle(phandle);
      var id, cmd := SocketDescriptor(phandle), FV(SerialNumber(phandle), level, length);
      if phandle !in playSessions {
        Reply(id, Echo(cmd, false));
        return;
      }
      var s := playSessions[phandle];
      assert s.Value() == model.sessions[phandle];
      if s.cardNumber >= |driver.formats| {
        Reply(id, Echo(cmd, false));
      } else if !config.testing && length == 0 {
        Halt();
      } else {
        Reply(id, Echo(cmd, true));
      }
    }

    method EmitFade(id: Int32, serial: UInt32, level: Int32, length: UInt32)
      requires Valid() && id in model.connections
      modifies `halted, `model, server`sent
      ensures Valid() && model == FadeOutputVolume(config, old(model), id, FV(serial, level, length))
    {
      HandleOfPair(id, serial);
      FadeOutputVolumeData(MakeHandle(id, serial), level, length);
    }

    method Privileged(id: Int32, f0: seq<string>, disk: Disk)
      requires Valid() && Inv(config, model) && !halted && Live(model.connections, id) && f0 != []
      modifies this, server, driver, driver.streams, driver.ports, record, objects
      ensures Valid() && fresh(objects - old(objects))
      ensures model == Execute(config, old(model), id, f0, disk)
    {
      var cmd := Parse(config, f0);
      if IsPlay(cmd) {
        PlaceFound(config, model, MakeHandle(id, cmd.serial));
        EmitPlayCommand(id, cmd, disk);
      } else if IsRecord(cmd) {
        ParsedWithin(config, f0);
        if !cmd.LR? {
          OwnerReachable(config, model, Key(cmd.card, cmd.stream));
        }
        EmitRecordCommand(id, cmd, disk);
      } else if cmd.IV? {
        SetInputVolumeData(id, cmd.card, cmd.stream, cmd.level);
      } else if cmd.FV? {
        EmitFade(id, cmd.serial, cmd.level, cmd.length);
      } else if !cmd.Mixer? {
        Reply(id, Refused(f0));
      }
    }

    method AcceptPassword(id: Int32)
      requires Valid() && id in model.connections
      modifies server, `model
      ensures Valid() && model == Authenticate(old(model), id, true)
    {
      SetConnection(id, server.connections[id].(authenticated := true));
      Reply(id, PW(true));
    }

    method RejectPassword(id: Int32)
      requires Valid() && id in model.connections
      modifies server, `model
      ensures Valid() && model == Authenticate(old(model), id, false)
    {
      SetConnection(id, server.connections[id].(authenticated := false));
      Reply(id, PW(false));
    }

    method CheckPassword(id: Int32, f0: seq<string>) returns (closing: bool)
      requires Valid() && Droppable(config, model, id) && id > 0 && id in model.connections && f0 != []
      modifies `playSessions, `objects, `model, server, record, driver.streams, driver`slots, driver.ports,
          driver`recorders
      ensures Valid() && objects == old(objects)
      ensures (model, closing) == AfterPassword(config, old(model), id, f0)
    {
      if |f0| == 2 && f0[1] == config.password {
        AcceptPassword(id);
        return false;
      }
      RejectPassword(id);
      ConnectionClosedData(id);
      return true;
    }

    // The command that has been accumulated, which is cleared.
    method TakeCommand(id: Int32) returns (f0: seq<string>)
      requires Valid() && Inv(config, model) && id in model.connections
      modifies server`connections, `model
      ensures Valid() && Inv(config, model) && f0 == Tokens(old(model).connections[id].accum)
      ensures model == if f0 == [] then old(model) else Received(old(model), id, f0)
    {
      f0 := Tokens(server.connections[id].accum);
      if f0 != [] {
        ReceivedGood(config, model, id, f0);
        ClearCommand(id, f0);
      }
    }

    method ClearCommand(id: Int32, f0: seq<string>)
      requires Valid() && id in model.connections
      modifies server`connections, `model
      ensures Valid() && model == Received(old(model), id, f0)
    {
      SetConnection(id, server.connections[id].(accum := ""));
      model := model.(log := model.log + [(id, f0)]);
    }

    method PerformCommand(id: Int32, f0: seq<string>, disk: Disk) returns (closing: bool)
      requires Valid() && Inv(config, model) && !halted && id > 0 && id in model.connections && f0 != []
      modifies this, server, driver, driver.streams, driver.ports, record, objects
      ensures Valid() && fresh(objects - old(objects))
      ensures (model, closing) == Perform(config, old(model), id, f0, disk)
    {
      DroppableAlways(config, model, id);
      if f0[0] == "DC" {
        SetConnection(id, server.connections[id].(open := false));
        closing := true;
      } else if f0[0] == "PW" {
        closing := CheckPassword(id, f0);
      } else if !server.connections[id].authenticated {
        ConnectionClosedData(id);
        closing := true;
      } else {
        Privileged(id, f0, disk);
        closing := false;
      }
    }

    method ProcessCommand(id: Int32, disk: Disk) returns (closing: bool)
      requires Valid() && Inv(config, model) && !halted && id > 0 && id in model.connections
      modifies this, server, driver, driver.streams, driver.ports, record, objects
      ensures Valid() && fresh(objects - old(objects))
      ensures (model, closing) == CaeModel.ProcessCommand(config, old(model), id, disk)
    {
      var f0 := TakeCommand(id);
      closing := false;
      if f0 != [] {
        closing := PerformCommand(id, f0, disk);
      }
    }

    method TakeByte(id: Int32, ch: char, disk: Disk) returns (closing: bool)
      requires Valid() && Inv(config, model) && !halted && id > 0 && id in model.connections
      modifies this, server, driver, driver.streams, driver.ports, record, objects
      ensures Valid() && fresh(objects - old(objects))
      ensures (model, closing) == CaeModel.TakeByte(config, old(model), id, ch, disk)
    {
      closing := false;
      if ch == '!' {
        closing := ProcessCommand(id, disk);
      } else if ch != '\n' && ch != '\r' {
        AppendByte(id, ch);
      }
    }

    method AppendByte(id: Int32, ch: char)
      requires Valid() && id in model.connections
      modifies server`connections, `model
      ensures Valid() && model == Accumulate(old(model), id, old(model).connections[id].accum + [ch])
    {
      SetConnection(id, server.connections[id].(accum := server.connections[id].accum + [ch]));
    }

    // The i-th byte of data that began to arrive in state m.
    method ReadOne(ghost m: State, id: Int32, data: string, i: nat, disk: Disk) returns (stop: bool)
      requires i < |data| && id > 0 && Valid() && Halfway(config, m, model, id, data, i, disk)
      modifies this, server, driver, driver.streams, driver.ports, record, objects
      ensures Valid() && fresh(objects - old(objects))
      ensures stop ==> Inv(config, model) && model == Feed(config, m, id, data, disk)
      ensures !stop ==> Halfway(config, m, model, id, data, i + 1, disk)
    {
      StepsAhead(config, model, id, data, i, disk);
      stop := TakeByte(id, data[i], disk);
      if halted {
        stop := true;
      }
    }

    // The data that the socket of a connection holds.
    method ReadyReadData(id: Int32, data: string, disk: Disk)
      requires Valid() && Inv(config, model) && !halted && id > 0 && id in model.connections
      modifies this, server, driver, driver.streams, driver.ports, record, objects
      ensures Valid() && fresh(objects - old(objects))
      ensures Inv(config, model) && model == Feed(config, old(model), id, data, disk)
    {
      if server.connections[id].open {
        ghost var m := model;
        var i, stop := 0, false;
        while i < |data| && !stop
          invariant i <= |data| && Valid() && fresh(objects - old(objects))
          invariant if stop then Inv(config, model) && model == Feed(config, m, id, data, disk)
                    else Halfway(config, m, model, id, data, i, disk)
          decreases |data| - i
        {
          stop := ReadOne(m, id, data, i, disk);
          i := i + 1;
        }
      }
    }

    // ----- Driver events -------------------------------------------------------------

    method TickStream(card: nat, stream: nat) returns (stopped: bool, fault: bool)
      requires Valid() && IsSlot(config, Key(card, stream))
      modifies driver.streams, driver`slots, `model
      ensures Valid() && stopped == SlotAt(old(model), Key(card, stream)).stopping
      ensures fault == StepFaults(config.formats[card], SlotAt(old(model), Key(card, stream)), Tick)
      ensures model ==
        if fault then old(model)
        else WithSlot(old(model), Key(card, stream),
            AfterTick(config.formats[card], SlotAt(old(model), Key(card, stream))))
    {
      stopped, fault := driver.ProcessStream(card, stream);
      model := model.(slots := driver.slots);
    }

    // Once the daemon has halted nothing is served.
    method ServeSlot(card: nat, stream: nat)
      requires Valid() && IsSlot(config, Key(card, stream)) && Inv(config, model)
      modifies driver.streams, driver`slots, `halted, `model, server`sent
      ensures Valid() && Inv(config, model) && model == Next(config, old(model), AtSlot(Key(card, stream), Tick))
    {
      if !halted {
        SlotServed(config, model, Key(card, stream), Tick);
        TickIs(config, model, Key(card, stream));
        TickAndAnnounce(card, stream);
      }
    }

    method TickAndAnnounce(card: nat, stream: nat)
      requires Valid() && IsSlot(config, Key(card, stream)) && OneOwner(model, Key(card, stream))
      modifies driver.streams, driver`slots, `halted, `model, server`sent
      ensures Valid()
      ensures model == Ticked(config, old(model), Key(card, stream))
    {
      var stopped, fault := TickStream(card, stream);
      if fault {
        Halt();
      } else {
        Announce(card, stream, false, stopped);
      }
    }

    method TickPort(card: nat, port: nat)
      requires Valid() && IsPort(config, Key(card, port))
      modifies driver.ports, driver`recorders, `model
      ensures Valid()
      ensures model == WithPort(old(model), Key(card, port), CaptureStep(PortAt(old(model), Key(card, port)), Service))
    {
      driver.ProcessPort(card, port);
      model := model.(ports := driver.recorders);
    }

    method ServePort(card: nat, port: nat)
      requires Valid() && IsPort(config, Key(card, port)) && Inv(config, model)
      modifies driver.ports, driver`recorders, `model
      ensures Valid() && Inv(config, model) && model == Next(config, old(model), AtPort(Key(card, port), Service))
    {
      if !halted {
        ServiceIs(config, model, Key(card, port));
        PortServed(config, model, Key(card, port), Service);
        TickPort(card, port);
      }
    }

    // The next service of a run from m.
    method ServeNextSlot(ghost m: State, i: nat, j: nat)
      requires Valid() && IsSlot(config, Key(i, j)) && Inv(config, model)
      requires model == Trace(config, m, Services(config, i, j, 0))
      modifies driver.streams, driver`slots, `halted, `model, server`sent
      ensures Valid() && Inv(config, model) && model == Trace(config, m, Services(config, i, j + 1, 0))
    {
      TraceAppend(config, m, Services(config, i, j, 0), AtSlot(Key(i, j), Tick));
      ServeSlot(i, j);
    }

    method ServeNextPort(ghost m: State, i: nat, p: nat)
      requires Valid() && IsPort(config, Key(i, p)) && Inv(config, model)
      requires model == Trace(config, m, Services(config, i, config.streams, p))
      modifies driver.ports, driver`recorders, `model
      ensures Valid() && Inv(config, model) && model == Trace(config, m, Services(config, i, config.streams, p + 1))
    {
      TraceAppend(config, m, Services(config, i, config.streams, p), AtPort(Key(i, p), Service));
      ServePort(i, p);
    }

    // processBuffers: every stream and then every port of every card.
    method ProcessBuffers()
      requires Valid() && Inv(config, model)
      modifies driver.streams, driver`slots, driver.ports, driver`recorders, `halted, `model, server`sent
      ensures Valid() && Inv(config, model)
      ensures model == Trace(config, old(model), Services(config, |config.formats|, 0, 0))
    {
      ghost var m := model;
      for i := 0 to |config.formats|
        invariant Valid() && Inv(config, model) && model == Trace(config, m, Services(config, i, 0, 0))
      {
        ProcessCard(m, i);
      }
    }

    // The streams and then the ports of one card.
    method ProcessCard(ghost m: State, i: nat)
      requires Valid() && i < |config.formats| && Inv(config, model)
      requires model == Trace(config, m, Services(config, i, 0, 0))
      modifies driver.streams, driver`slots, driver.ports, driver`recorders, `halted, `model, server`sent
      ensures Valid() && Inv(config, model) && model == Trace(config, m, Services(config, i + 1, 0, 0))
    {
      ProcessStreams(m, i);
      for p := 0 to config.ports
        invariant Valid() && Inv(config, model)
        invariant model == Trace(config, m, Services(config, i, config.streams, p))
      {
        ServeNextPort(m, i, p);
      }
    }

    method ProcessStreams(ghost m: State, i: nat)
      requires Valid() && i < |config.formats| && Inv(config, model)
      requires model == Trace(config, m, Services(config, i, 0, 0))
      modifies driver.streams, driver`slots, `halted, `model, server`sent
      ensures Valid() && Inv(config, model) && model == Trace(config, m, Services(config, i, config.streams, 0))
    {
      for j := 0 to config.streams
        invariant Valid() && Inv(config, model) && model == Trace(config, m, Services(config, i, j, 0))
      {
        ServeNextSlot(m, i, j);
      }
    }

    // getOutputPosition for one stream.
    method ReportStream(card: nat, stream: nat) returns (position: nat)
      requires Valid() && IsSlot(config, Key(card, stream)) && Inv(config, model)
      modifies driver`slots, `halted, `model
      ensures Valid() && Inv(config, model) && model == Next(config, old(model), AtSlot(Key(card, stream), Report))
      ensures !halted ==> Reports(config, old(model), Key(card, stream), position)
    {
      position := 0;
      if !halted {
        SlotServed(config, model, Key(card, stream), Report);
        ReportIs(config, model, Key(card, stream));
        position := ReadPosition(card, stream);
      }
    }

    method ReadPosition(card: nat, stream: nat) returns (position: nat)
      requires Valid() && !halted && IsSlot(config, Key(card, stream))
      modifies driver`slots, `halted, `model
      ensures Valid() && (!halted ==> Reports(config, old(model), Key(card, stream), position))
      ensures model == Reported(config, old(model), Key(card, stream))
    {
      var fault;
      position, fault := driver.ReportStream(card, stream);
      model := model.(slots := driver.slots);
      if fault {
        Halt();
      }
    }

    // The positions of all streams of a card, up to one that faults.
    method GetOutputPosition(card: nat) returns (positions: seq<nat>)
      requires Valid() && card < |config.formats| && Inv(config, model)
      modifies driver`slots, `halted, `model
      ensures Valid() && Inv(config, model) && |positions| == config.streams
      ensures model == Trace(config, old(model), AllOf(card, config.streams, Report))
      ensures !halted ==> ReportsAll(config, model, card, positions)
    {
      ghost var m := model;
      positions := [];
      for j := 0 to config.streams
        invariant Valid() && Inv(config, model) && |positions| == j
        invariant model == Trace(config, m, AllOf(card, j, Report))
        invariant !halted ==> ReportsAll(config, model, card, positions)
      {
        positions := ReportNext(m, card, positions);
      }
    }

    method ReportNext(ghost m: State, card: nat, positions: seq<nat>) returns (more: seq<nat>)
      requires Valid() && IsSlot(config, Key(card, |positions|)) && Inv(config, model)
      requires model == Trace(config, m, AllOf(card, |positions|, Report))
      requires !halted ==> ReportsAll(config, model, card, positions)
      modifies driver`slots, `halted, `model
      ensures Valid() && Inv(config, model) && |more| == |positions| + 1
      ensures model == Trace(config, m, AllOf(card, |more|, Report))
      ensures !halted ==> ReportsAll(config, model, card, more)
    {
      var j := |positions|;
      TraceAppend(config, m, AllOf(card, j, Report), AtSlot(Key(card, j), Report));
      ghost var before := model;
      var position := ReportStream(card, j);
      more := positions + [position];
      if !halted {
        ReportsMore(config, before, card, positions, position);
      }
    }

    // updateMeters: the buffers are serviced, and then the positions of every card read.
    method UpdateMeters()
      requires Valid() && Inv(config, model)
      modifies driver.streams, driver`slots, driver.ports, driver`recorders, `halted, `model, server`sent
      ensures Valid() && Inv(config, model)
      ensures model == Trace(config, old(model), MeterUpdates(config, |config.formats|))
    {
      ghost var m := model;
      ProcessBuffers();
      ReadPositions(m);
    }

    method ReadPositions(ghost m: State)
      requires Valid() && Inv(config, model) && model == Trace(config, m, MeterUpdates(config, 0))
      modifies driver`slots, `halted, `model
      ensures Valid() && Inv(config, model) && model == Trace(config, m, MeterUpdates(config, |config.formats|))
    {
      for i := 0 to |config.formats|
        invariant Valid() && Inv(config, model) && model == Trace(config, m, MeterUpdates(config, i))
      {
        UpdateNext(m, i);
      }
    }

    // The positions of the next card.
    method UpdateNext(ghost m: State, i: nat)
      requires Valid() && i < |config.formats| && Inv(config, model)
      requires model == Trace(config, m, MeterUpdates(config, i))
      modifies driver`slots, `halted, `model
      ensures Valid() && Inv(config, model) && model == Trace(config, m, MeterUpdates(config, i + 1))
    {
      TraceConcat(config, m, MeterUpdates(config, i), AllOf(i, config.streams, Report));
      var positions := GetOutputPosition(i);
    }

    // The stop timer of a stream fires.
    method StopTimerData(card: nat, stream: nat)
      requires Valid() && IsSlot(config, Key(card, stream)) && Inv(config, model) && !halted
      requires SlotAt(model, Key(card, stream)).timer
      modifies driver.streams, driver`slots, `model, server`sent
      ensures Valid() && Inv(config, model) && !halted &&
          model == Next(config, old(model), AtSlot(Key(card, stream), Timer))
    {
      TimerServed(config, model, Key(card, stream));
      TimerAndAnnounce(card, stream);
    }

    method TimerAndAnnounce(card: nat, stream: nat)
      requires Valid() && IsSlot(config, Key(card, stream)) && OneOwner(model, Key(card, stream))
      requires SlotAt(model, Key(card, stream)).timer
      modifies driver.streams, driver`slots, `model, server`sent
      ensures Valid()
      ensures model == TimedOut(config, old(model), Key(card, stream))
    {
      var stopped := TimeStream(card, stream);
      Announce(card, stream, false, stopped);
    }

    method TimeStream(card: nat, stream: nat) returns (stopped: bool)
      requires Valid() && IsSlot(config, Key(card, stream)) && SlotAt(model, Key(card, stream)).timer
      modifies driver.streams, driver`slots, `model
      ensures Valid() && stopped == CanStop(SlotAt(old(model), Key(card, stream)))
      ensures model == WithSlot(old(model), Key(card, stream),
          Step(config.formats[card], SlotAt(old(model), Key(card, stream)), Timer).stream)
    {
      stopped := driver.StopTimerData(card, stream);
      model := model.(slots := driver.slots);
    }

    // The record timer of a port fires.
    method RecordTimerData(card: nat, port: nat)
      requires Valid() && IsPort(config, Key(card, port)) && Inv(config, model) && !halted
      requires PortAt(model, Key(card, port)).timer
      modifies driver.ports, driver`recorders, `model, server`sent
      ensures Valid() && Inv(config, model) && !halted &&
          model == Next(config, old(model), AtPort(Key(card, port), RecordTimer))
    {
      PortTimerIs(config, model, Key(card, port));
      PortServed(config, model, Key(card, port), RecordTimer);
      var stopped := TimePort(card, port);
      if stopped {
        StateRecordUpdate(card, port, false);
      }
    }

    method TimePort(card: nat, port: nat) returns (stopped: bool)
      requires Valid() && IsPort(config, Key(card, port)) && PortAt(model, Key(card, port)).timer
      modifies driver.ports, driver`recorders, `model
      ensures Valid() && stopped == PortAt(old(model), Key(card, port)).recording
      ensures model == WithPort(old(model), Key(card, port),
          CaptureStep(PortAt(old(model), Key(card, port)), RecordTimer))
    {
      stopped := driver.RecordTimerData(card, port);
      model := model.(ports := driver.recorders);
    }

    // One round of the playback callback of a card.
    method PlayCallback(card: nat)
      requires Valid() && card < |config.formats| && Inv(config, model) && !halted
      modifies driver.streams, driver`slots, `model
      ensures Valid() && Inv(config, model) && !halted &&
          model == Trace(config, old(model), AllOf(card, config.streams, Round))
    {
      ghost var m := model;
      for j := 0 to config.streams
        invariant Valid() && Inv(config, model) && !halted && model == Trace(config, m, AllOf(card, j, Round))
      {
        RoundIs(config, model, Key(card, j));
        SlotServed(config, model, Key(card, j), Round);
        RoundStream(card, j);
        TraceAppend(config, m, AllOf(card, j, Round), AtSlot(Key(card, j), Round));
      }
    }

    method RoundStream(card: nat, stream: nat)
      requires Valid() && IsSlot(config, Key(card, stream))
      modifies driver.streams, driver`slots, `model
      ensures Valid()
      ensures model == WithSlot(old(model), Key(card, stream),
          AfterRound(config.formats[card], SlotAt(old(model), Key(card, stream))))
    {
      var bytes := driver.PlayStream(card, stream);
      model := model.(slots := driver.slots);
    }

    method CaptureCallback(card: nat, port: nat, frames: seq<Byte>, muted: bool)
      requires Valid() && IsPort(config, Key(card, port)) && Inv(config, model) && !halted
      modifies driver.ports, driver`recorders, `model
      ensures Valid() && Inv(config, model) && !halted
      ensures model == Next(config, old(model), AtPort(Key(card, port), Capture(frames, muted)))
    {
      CaptureIs(config, model, Key(card, port), frames, muted);
      PortServed(config, model, Key(card, port), Capture(frames, muted));
      CaptureInto(card, port, frames, muted);
    }

    method CaptureInto(card: nat, port: nat, frames: seq<Byte>, muted: bool)
      requires Valid() && IsPort(config, Key(card, port))
      modifies driver.ports, driver`recorders, `model
      ensures Valid()
      ensures model == WithPort(old(model), Key(card, port),
          AfterCapture(PortAt(old(model), Key(card, port)), frames, muted))
    {
      driver.CapturePort(card, port, frames, muted);
      model := model.(ports := driver.recorders);
    }

    // The socket of a connection has disconnected.
    method Disconnected(id: Descriptor)
      requires Valid() && Inv(config, model) && !halted && id in model.connections
      modifies `playSessions, `objects, `model, server`connections, record, driver.streams, driver`slots, driver.ports,
          driver`recorders
      ensures Valid() && Inv(config, model) && model == Next(config, old(model), Disconnect(id))
    {
      CloseInv(config, model, id);
      DroppableAlways(config, model, id);
      NextIsClose(config, model, id);
      ConnectionClosedData(id);
    }
  }

  // The event at the first j streams of a card, one after the other.
  ghost function AllOf(card: nat, j: nat, e: Event): seq<Happening> {
    if j == 0 then [] else AllOf(card, j - 1, e) + [AtSlot(Key(card, j - 1), e)]
  }

  // What the report of a slot leads to, and what it says.
  ghost function Reported(c: Config, m: State, k: Key): State
    requires IsSlot(c, k)
  {
    if StepFaults(c.formats[k.card], SlotAt(m, k), Report) then m.(fault := true) else WithSlot(m, k, SlotAt(m, k))
  }

  ghost predicate Reports(c: Config, m: State, k: Key, position: nat)
    requires IsSlot(c, k)
  {
    var f, s := c.formats[k.card], SlotAt(m, k);
    !StepFaults(f, s, Report) && position == Position(f, s)
  }

  lemma ReportIs(c: Config, m: State, k: Key)
    requires IsSlot(c, k)
    ensures SlotStep(c, m, k, Report) == Reported(c, m, k)
  {
  }

  ghost predicate ReportsAll(c: Config, m: State, card: nat, positions: seq<nat>)
    requires card < |c.formats|
  {
    && |positions| <= c.streams
    && (forall j :: 0 <= j < |positions| ==> Reports(c, m, Key(card, j), positions[j]))
  }

  // Reports change no slot.
  lemma ReportsMore(c: Config, m: State, card: nat, positions: seq<nat>, position: nat)
    requires IsSlot(c, Key(card, |positions|)) && !m.fault && ReportsAll(c, m, card, positions)
    requires Reports(c, m, Key(card, |positions|), position)
    ensures ReportsAll(c, Next(c, m, AtSlot(Key(card, |positions|), Report)), card, positions + [position])
  {
    var k := Key(card, |positions|);
    ReportIs(c, m, k);
    var next := WithSlot(m, k, SlotAt(m, k));
    forall j | 0 <= j <= |positions| ensures Reports(c, next, Key(card, j), (positions + [position])[j]) {
      assert SlotAt(next, Key(card, j)) == SlotAt(m, Key(card, j));
    }
  }

  ghost function TimedOut(c: Config, m: State, k: Key): State
    requires IsSlot(c, k)
  {
    var st1 := WithSlot(m, k, Step(c.formats[k.card], SlotAt(m, k), Timer).stream);
    if CanStop(SlotAt(m, k)) then CaeModel.StatePlayUpdate(st1, k, false) else st1
  }

  lemma TimerIs(c: Config, m: State, k: Key)
    requires IsSlot(c, k) && SlotAt(m, k).timer
    ensures SlotStep(c, m, k, Timer) == TimedOut(c, m, k)
  {
    var o := Step(c.formats[k.card], SlotAt(m, k), Timer);
    assert o.notes == if CanStop(SlotAt(m, k)) then [Stopped] else [];
  }

  lemma TimerServed(c: Config, m: State, k: Key)
    requires Inv(c, m) && !m.fault && IsSlot(c, k) && SlotAt(m, k).timer
    ensures OneOwner(m, k)
    ensures var next := TimedOut(c, m, k); next == Next(c, m, AtSlot(k, Timer)) && Inv(c, next) && !next.fault
  {
    SlotServed(c, m, k, Timer);
    TimerIs(c, m, k);
  }

  lemma RoundIs(c: Config, m: State, k: Key)
    requires IsSlot(c, k)
    ensures SlotStep(c, m, k, Round) == WithSlot(m, k, AfterRound(c.formats[k.card], SlotAt(m, k)))
  {
  }

  lemma PortTimerIs(c: Config, m: State, k: Key)
    requires PortAt(m, k).timer
    ensures var st1 := WithPort(m, k, CaptureStep(PortAt(m, k), RecordTimer));
            PortStep(c, m, k, RecordTimer) ==
            if PortAt(m, k).recording then CaeModel.StateRecordUpdate(st1, k, false) else st1
  {
  }

  lemma CaptureIs(c: Config, m: State, k: Key, frames: seq<Byte>, muted: bool)
    ensures PortStep(c, m, k, Capture(frames, muted)) == WithPort(m, k, AfterCapture(PortAt(m, k), frames, muted))
  {
  }

  // The driver events of processBuffers before port p of card i, after j of its streams.
  ghost function Services(c: Config, i: nat, j: nat, p: nat): seq<Happening>
    requires p > 0 ==> j == c.streams
    decreases i, p, j
  {
    if p > 0 then Services(c, i, j, p - 1) + [AtPort(Key(i, p - 1), Service)]
    else if j > 0 then Services(c, i, j - 1, 0) + [AtSlot(Key(i, j - 1), Tick)]
    else if i > 0 then Services(c, i - 1, c.streams, c.ports)
    else []
  }

  // Every stream and every port of every card is serviced, each once.
  lemma EveryoneIsServed(c: Config)
    ensures forall k :: AtSlot(k, Tick) in Services(c, |c.formats|, 0, 0) <==> IsSlot(c, k)
    ensures forall k :: AtPort(k, Service) in Services(c, |c.formats|, 0, 0) <==> IsPort(c, k)
    ensures |Services(c, |c.formats|, 0, 0)| == |c.formats| * (c.streams + c.ports)
  {
    ServicesAre(c, |c.formats|, 0, 0);
    ServicesCount(c, |c.formats|, 0, 0);
  }

  lemma {:induction false} ServicesCount(c: Config, i: nat, j: nat, p: nat)
    requires p > 0 ==> j == c.streams
    ensures |Services(c, i, j, p)| == i * (c.streams + c.ports) + j + p
    decreases i, p, j
  {
    if p > 0 {
      ServicesCount(c, i, j, p - 1);
    } else if j > 0 {
      ServicesCount(c, i, j - 1, 0);
    } else if i > 0 {
      ServicesCount(c, i - 1, c.streams, c.ports);
      assert i * (c.streams + c.ports) == (i - 1) * (c.streams + c.ports) + (c.streams + c.ports);
    }
  }

  lemma {:induction false} ServicesAre(c: Config, i: nat, j: nat, p: nat)
    requires p > 0 ==> j == c.streams
    ensures forall k :: AtSlot(k, Tick) in Services(c, i, j, p) <==>
              (k.card < i && k.index < c.streams) || (k.card == i && k.index < j)
    ensures forall k :: AtPort(k, Service) in Services(c, i, j, p) <==>
              (k.card < i && k.index < c.ports) || (k.card == i && k.index < p)
    decreases i, p, j
  {
    if p > 0 {
      ServicesAre(c, i, j, p - 1);
    } else if j > 0 {
      ServicesAre(c, i, j - 1, 0);
    } else if i > 0 {
      ServicesAre(c, i - 1, c.streams, c.ports);
    }
  }

  // And every stream of a card has its callback round or its report, in order.
  lemma {:induction false} AllOfAre(card: nat, n: nat, e: Event)
    ensures |AllOf(card, n, e)| == n && forall j: nat :: j < n ==> AllOf(card, n, e)[j] == AtSlot(Key(card, j), e)
  {
    if n > 0 {
      AllOfAre(card, n - 1, e);
    }
  }

  // The driver events of updateMeters before the positions of card i.
  ghost function MeterUpdates(c: Config, i: nat): seq<Happening> {
    if i == 0 then Services(c, |c.formats|, 0, 0) else MeterUpdates(c, i - 1) + AllOf(i - 1, c.streams, Report)
  }

  lemma {:induction false} TraceConcat(c: Config, m: State, a: seq<Happening>, b: seq<Happening>)
    ensures Trace(c, m, a + b) == Trace(c, Trace(c, m, a), b)
    decreases |a|
  {
    if a == [] {
      assert a + b == b;
    } else {
      assert (a + b)[1..] == a[1..] + b;
      TraceConcat(c, Next(c, m, a[0]), a[1..], b);
    }
  }

  lemma {:induction false} TraceAppend(c: Config, m: State, events: seq<Happening>, e: Happening)
    ensures Trace(c, m, events + [e]) == Next(c, Trace(c, m, events), e)
    decreases |events|
  {
    if events == [] {
      assert [e][1..] == [];
    } else {
      assert (events + [e])[1..] == events[1..] + [e];
      TraceAppend(c, Next(c, m, events[0]), events[1..], e);
    }
  }

  ghost function Ticked(c: Config, m: State, k: Key): State
    requires IsSlot(c, k)
  {
    if StepFaults(c.formats[k.card], SlotAt(m, k), Tick) then m.(fault := true)
    else
      var st1 := WithSlot(m, k, AfterTick(c.formats[k.card], SlotAt(m, k)));
      if SlotAt(m, k).stopping then CaeModel.StatePlayUpdate(st1, k, false) else st1
  }

  lemma TickIs(c: Config, m: State, k: Key)
    requires IsSlot(c, k)
    ensures SlotStep(c, m, k, Tick) == Ticked(c, m, k)
  {
    var s := SlotAt(m, k);
    assert Step(c.formats[k.card], s, Tick) == Outcome(AfterTick(c.formats[k.card], s), [],
        if s.stopping then [Stopped] else []);
  }

  lemma ServiceIs(c: Config, m: State, k: Key)
    ensures PortStep(c, m, k, Service) == WithPort(m, k, CaptureStep(PortAt(m, k), Service))
  {
  }

  // A driver event is one step that keeps the invariant.
  lemma SlotServed(c: Config, m: State, k: Key, e: Event)
    requires Inv(c, m) && !m.fault && IsSlot(c, k) && FromDriver(e)
    ensures OneOwner(m, k)
    ensures var next := Next(c, m, AtSlot(k, e));
      && next == SlotStep(c, m, k, e) && Inv(c, next)
      && (next.fault <==> StepFaults(c.formats[k.card], SlotAt(m, k), e))
  {
    OwnersFound(c, m, k);
    SlotStepFollows(c, m, k, e);
  }

  lemma PortServed(c: Config, m: State, k: Key, e: CaptureEvent)
    requires Inv(c, m) && !m.fault && IsPort(c, k) && FromPort(e)
    ensures LockAt(m, k).owner != NOBODY ==> LockAt(m, k).owner in m.connections
    ensures var next := Next(c, m, AtPort(k, e)); next == PortStep(c, m, k, e) && Inv(c, next) && !next.fault
  {
    PortFound(c, m, k);
    PortStepFollows(c, m, k, e);
  }

  // The state after i bytes of data, when the rest will be read.
  ghost predicate Halfway(c: Config, m: State, now: State, id: Int32, data: string, i: nat, disk: Disk)
    requires i <= |data|
  {
    Inv(c, now) && Reading(now, id) && Feed(c, now, id, data[i..], disk) == Feed(c, m, id, data, disk)
  }

  // What the next byte of the data does.
  lemma StepsAhead(c: Config, m: State, id: Int32, data: string, i: nat, disk: Disk)
    requires i < |data| && Inv(c, m) && id > 0 && Reading(m, id)
    ensures var (next, closing) := CaeModel.TakeByte(c, m, id, data[i], disk);
      && Inv(c, next) && (!closing && !next.fault ==> Reading(next, id))
      && Feed(c, m, id, data[i..], disk) == if closing || next.fault then next
          else Feed(c, next, id, data[i + 1..], disk)
  {
    ByteGood(c, m, id, data[i], disk);
    StillReading(c, m, id, data[i], disk);
    assert data[i..][0] == data[i] && data[i..][1..] == data[i + 1..];
  }

  lemma StillReading(c: Config, m: State, id: Int32, ch: char, disk: Disk)
    requires Reading(m, id)
    ensures var (next, closing) := CaeModel.TakeByte(c, m, id, ch, disk); !closing && !next.fault ==> Reading(next, id)
  {
    var t := Tokens(m.connections[id].accum);
    if ch == '!' && t != [] {
      StillThere(c, Received(m, id, t), id, t, disk);
    }
  }

  lemma StillThere(c: Config, m: State, id: Int32, t: seq<string>, disk: Disk)
    requires id in m.connections && m.connections[id].open && t != []
    ensures var (next, closing) := Perform(c, m, id, t, disk);
            !closing ==> id in next.connections && next.connections[id].open
  {
  }

  lemma ReceivedGood(c: Config, m: State, id: Int32, t: seq<string>)
    requires Inv(c, m) && id in m.connections
    ensures Inv(c, Received(m, id, t))
  {
    ConnectionKept(c, m, id, m.connections[id].(accum := ""));
  }

  lemma NextIsClose(c: Config, m: State, id: Descriptor)
    requires !m.fault && id in m.connections
    ensures Next(c, m, Disconnect(id)) == CloseConnection(m, id)
  {
  }

  lemma CloseInv(c: Config, m: State, id: Int32)
    requires Inv(c, m)
    ensures Inv(c, CloseConnection(m, id))
  {
    CloseKept(c, m, id);
  }

  lemma DroppableAlways(c: Config, m: State, id: Int32)
    requires Inv(c, m) && id != NOBODY
    ensures Droppable(c, m, id)
  {
  }

  // The bounds that ProcessCommand checks.
  predicate Within(c: Config, cmd: Command) {
    && (cmd.LR? ==> cmd.card < c.maxCards && cmd.port < c.ports)
    && (cmd.UR? || cmd.RD? || cmd.SR? ==> cmd.card < c.maxCards && cmd.stream < c.streams)
  }

  lemma ParsedWithin(c: Config, t: seq<string>)
    requires t != []
    ensures Within(c, Parse(c, t))
  {
  }

  // What the commands on a session and on a port rely on.
  ghost predicate Found(c: Config, m: State, h: UInt64) {
    h in m.sessions ==>
      && m.sessions[h].stream < c.streams && SlotAt(m, Place(m.sessions[h])).ring.Some?
      && OneOwner(m, Place(m.sessions[h]))
  }

  ghost predicate Reachable(c: Config, m: State, k: Key) {
    LockAt(m, k).owner != NOBODY ==> IsPort(c, k) && LockAt(m, k).owner in m.connections
  }

  lemma OwnerReachable(c: Config, m: State, k: Key)
    requires Inv(c, m)
    ensures Reachable(c, m, k)
  {
    PortFound(c, m, k);
  }

  lemma PlaceFound(c: Config, m: State, h: UInt64)
    requires Inv(c, m)
    ensures Found(c, m, h)
  {
    if h in m.sessions {
      OwnersFound(c, m, Place(m.sessions[h]));
    }
  }

  lemma OwnersFound(c: Config, m: State, k: Key)
    requires Inv(c, m)
    ensures OneOwner(m, k)
  {
    forall g | g in m.sessions ensures SocketDescriptor(g) in m.connections && g != 0 {
      OwnerOf(c, m, g);
    }
  }

  // What dropping a connection relies on.
  ghost predicate SockLocked(c: Config, locks: map<Key, Lock>, ports: map<Key, RecordPort>, sock: Int32) {
    forall k :: k in locks && locks[k].owner == sock ==> IsPort(c, k) && k in ports && ports[k].ring.Some?
  }

  ghost predicate Droppable(c: Config, m: State, sock: Int32) {
    Apart(m.sessions) && Housed(c, m.sessions, m.slots) && SockLocked(c, m.locks, m.ports, sock)
  }

  // The state when the locks before stream j of card i have been released, and the
  // sessions have been walked over or not.
  ghost function Killed(m: State, i: nat, j: nat, walked: bool, sock: Int32): State {
    m.(sessions := if walked then Remaining(m.sessions, sock) else m.sessions,
       slots := if walked then Vacated(m.slots, m.sessions, sock) else m.slots,
       locks := LocksKilled(m.locks, i, j, sock), ports := PortsKilled(m.locks, m.ports, i, j, sock))
  }

  predicate Before(k: Key, i: nat, j: nat) {
    k.card < i || (k.card == i && k.index < j)
  }

  // The state when the sessions in rest have not been visited.
  ghost function Walked(m: State, rest: set<UInt64>, sock: Int32): State {
    m.(sessions := Unerased(m.sessions, rest, sock), slots := Vacated(m.slots, m.sessions - rest, sock))
  }

  lemma VisitNext(c: Config, m: State, rest: set<UInt64>, h: UInt64, sock: Int32)
    requires Apart(m.sessions) && Housed(c, m.sessions, m.slots) && rest <= m.sessions.Keys && h in rest
    ensures var w, s := Walked(m, rest, sock), m.sessions[h];
            && h in w.sessions && w.sessions[h] == s && IsSlot(c, Place(s)) && SlotAt(w, Place(s)).ring.Some?
            && Walked(m, rest - {h}, sock) ==
               if s.sock == sock then WithoutSession(WithSlot(w, Place(s), Dropped(SlotAt(w, Place(s)))), h) else w
  {
    Visit(m.sessions, m.slots, rest, h, sock);
  }

  // The sessions when those in rest have not been visited.
  ghost function Unerased(sessions: map<UInt64, Session>, rest: set<UInt64>, sock: Int32): map<UInt64, Session> {
    map h | h in sessions && (h in rest || sessions[h].sock != sock) :: sessions[h]
  }

  lemma NoneVisited(sessions: map<UInt64, Session>, slots: map<Key, Slot>, sock: Int32)
    ensures Unerased(sessions, sessions.Keys, sock) == sessions
    ensures Vacated(slots, sessions - sessions.Keys, sock) == slots
  {
    assert sessions - sessions.Keys == map[];
  }

  lemma AllVisited(m: State, sock: Int32)
    ensures Walked(m, {}, sock) == m.(sessions := Remaining(m.sessions, sock),
        slots := Vacated(m.slots, m.sessions, sock))
  {
    assert m.sessions - {} == m.sessions;
    assert Unerased(m.sessions, {}, sock) == Remaining(m.sessions, sock);
  }

  // The next session of the walk.
  lemma Visit(sessions: map<UInt64, Session>, slots: map<Key, Slot>, rest: set<UInt64>, h: UInt64, sock: Int32)
    requires Apart(sessions) && rest <= sessions.Keys && h in rest
    requires Place(sessions[h]) in slots && slots[Place(sessions[h])].ring.Some?
    ensures var seen, k := Vacated(slots, sessions - rest, sock), Place(sessions[h]);
            SlotIn(seen, k) == slots[k] &&
            (sessions[h].sock == sock ==> Vacated(slots, sessions - (rest - {h}), sock) == seen[k := Dropped(slots[k])])
            && (sessions[h].sock != sock ==> Vacated(slots, sessions - (rest - {h}), sock) == seen)
    ensures Unerased(sessions, rest - {h}, sock) ==
            if sessions[h].sock == sock then Unerased(sessions, rest, sock) - {h} else Unerased(sessions, rest, sock)
  {
    forall p ensures Occupies(sessions - (rest - {h}), sock, p) <==>
                     Occupies(sessions - rest, sock, p) || (p == Place(sessions[h]) && sessions[h].sock == sock)
    {
      VisitPlace(sessions, rest, h, sock, p);
    }
    forall g | g in sessions - rest ensures Place(sessions[g]) != Place(sessions[h]) {
    }
  }

  lemma VisitPlace(sessions: map<UInt64, Session>, rest: set<UInt64>, h: UInt64, sock: Int32, p: Key)
    requires rest <= sessions.Keys && h in rest
    ensures Occupies(sessions - (rest - {h}), sock, p) <==>
            Occupies(sessions - rest, sock, p) || (p == Place(sessions[h]) && sessions[h].sock == sock)
  {
    var past, next := sessions - rest, sessions - (rest - {h});
    if Occupies(past, sock, p) {
      var g :| g in past && past[g].sock == sock && Place(past[g]) == p;
      assert g in next && next[g] == past[g];
    }
    if p == Place(sessions[h]) && sessions[h].sock == sock {
      assert h in next && next[h] == sessions[h];
    }
    if Occupies(next, sock, p) {
      var g :| g in next && next[g].sock == sock && Place(next[g]) == p;
      assert g == h || (g in past && past[g] == next[g]);
    }
  }

  // At most one session is at the place, and its connection is there.
  ghost predicate OneOwner(m: State, k: Key) {
    && (forall h, g :: h in m.sessions && g in m.sessions && Place(m.sessions[h]) == k && Place(m.sessions[g]) == k ==>
        h == g)
    && (forall h :: h in m.sessions && Place(m.sessions[h]) == k ==> SocketDescriptor(h) in m.connections)
    && 0 !in m.sessions
  }

  // Whether a load found a stream and which one, whether it faulted, and the
  // state with its slot loaded.
  datatype LoadResult = LoadResult(ok: bool, stream: int, fault: bool, next: State)

  ghost predicate CanLoad(c: Config, m: State, card: nat, wave: Option<Wave>, load: LoadResult)
    requires card < |c.formats|
  {
    var j := load.stream;
    if load.ok || load.fault then
      && 0 <= j < c.streams && !c.formats[card].exiting && wave.Some?
      && (forall i :: 0 <= i < j ==> SlotIn(m.slots, Key(card, i)).ring.Some?)
      && SlotIn(m.slots, Key(card, j)).ring.None?
      && load.fault == FaultsAtLoad(c.formats[card], wave.value)
      && load.next ==
        if load.fault then m
        else WithSlot(m, Key(card, j), Loaded(c.formats[card], SlotIn(m.slots, Key(card, j)), wave.value))
    else
      && load.next == m
      && (c.formats[card].exiting || wave.None? || forall i :: 0 <= i < c.streams ==>
          SlotIn(m.slots, Key(card, i)).ring.Some?)
  }

  // The session filed and the reply sent.
  ghost function Answered(load: LoadResult, h: UInt64, card: nat, port: nat, name: string): State
    requires load.ok ==> load.stream >= 0
  {
    if load.fault then load.next.(fault := true)
    else
      Send(if load.ok then Enlist(load.next, h, NewSession(h, card, port, load.stream)) else load.next,
           SocketDescriptor(h), Echo(LP(SerialNumber(h), card, port, name), load.ok))
  }

  lemma LoadPlaybackIs(c: Config, m: State, h: UInt64, card: nat, port: nat, name: string, disk: Disk,
      load: LoadResult, next: State)
    requires card < |c.formats|
    requires CanLoad(c, m, card, if name in disk.waves then Some(disk.waves[name]) else None, load)
    requires next == Answered(load, h, card, port, name)
    ensures next == LoadPlayback(c, m, SocketDescriptor(h), LP(SerialNumber(h), card, port, name), disk)
  {
    FreeStreamIsFirst(c, m.slots, card, 0);
    PairOfHandle(h);
  }

  lemma NothingKilled(m: State, sock: Int32)
    ensures Killed(m, 0, 0, false, sock) == m
  {
    assert Killed(m, 0, 0, false, sock).locks == m.locks && Killed(m, 0, 0, false, sock).ports == m.ports;
  }

  ghost function RecordKilled(m: State, k: Key, sock: Int32): State {
    if LockAt(m, k).owner == sock then WithLock(WithPort(m, k, Closed(PortAt(m, k))), k, UNLOCKED) else m
  }

  lemma KillNext(c: Config, m: State, i: nat, j: nat, walked: bool, sock: Int32)
    requires Droppable(c, m, sock) && sock != NOBODY
    ensures var w, k := Killed(m, i, j, walked, sock), Key(i, j);
            && (LockAt(w, k).owner == sock ==> IsPort(c, k) && PortAt(w, k).ring.Some?)
            && Apart(w.sessions) && Housed(c, w.sessions, w.slots)
            && Killed(m, i, j + 1, true, sock) ==
               RecordKilled(w, k, sock).(sessions := Remaining(w.sessions, sock),
                   slots := Vacated(w.slots, w.sessions, sock))
  {
    KillSessionsAgain(m.sessions, m.slots, sock);
    KillHoused(c, m.sessions, m.slots, sock);
    LocksNext(m.locks, i, j, sock);
    PortsNext(m.locks, m.ports, i, j, sock);
  }

  lemma KillHoused(c: Config, sessions: map<UInt64, Session>, slots: map<Key, Slot>, sock: Int32)
    requires Housed(c, sessions, slots) && Apart(sessions)
    ensures Housed(c, Remaining(sessions, sock), Vacated(slots, sessions, sock)) && Apart(Remaining(sessions, sock))
  {
    forall h | h in sessions && sessions[h].sock != sock
      ensures SlotIn(Vacated(slots, sessions, sock), Place(sessions[h])) == SlotIn(slots, Place(sessions[h]))
    {
      OtherPlace(sessions, slots, sock, h);
    }
  }

  lemma KillSessionsAgain(sessions: map<UInt64, Session>, slots: map<Key, Slot>, sock: Int32)
    ensures Remaining(Remaining(sessions, sock), sock) == Remaining(sessions, sock)
    ensures Vacated(Vacated(slots, sessions, sock), Remaining(sessions, sock), sock) == Vacated(slots, sessions, sock)
  {
  }

  // The locks and ports after the records before stream j of card i.
  ghost function LocksKilled(locks: map<Key, Lock>, i: nat, j: nat, sock: Int32): map<Key, Lock> {
    map k | k in locks :: if Before(k, i, j) && locks[k].owner == sock then UNLOCKED else locks[k]
  }

  ghost function PortsKilled(locks: map<Key, Lock>, ports: map<Key, RecordPort>, i: nat, j: nat,
                             sock: Int32): map<Key, RecordPort>
  {
    map k | k in ports :: if Before(k, i, j) && LockIn(locks, k).owner == sock then Closed(ports[k]) else ports[k]
  }

  lemma LocksNext(locks: map<Key, Lock>, i: nat, j: nat, sock: Int32)
    ensures var k, past := Key(i, j), LocksKilled(locks, i, j, sock);
            && LockIn(past, k) == LockIn(locks, k)
            && LocksKilled(locks, i, j + 1, sock) ==
               if k in locks && locks[k].owner == sock then past[k := UNLOCKED] else past
  {
  }

  lemma PortsNext(locks: map<Key, Lock>, ports: map<Key, RecordPort>, i: nat, j: nat, sock: Int32)
    requires sock != NOBODY && (LockIn(locks, Key(i, j)).owner == sock ==> Key(i, j) in ports)
    ensures var k, past := Key(i, j), PortsKilled(locks, ports, i, j, sock);
            && PortIn(past, k) == PortIn(ports, k)
            && PortsKilled(locks, ports, i, j + 1, sock) ==
               if k in locks && locks[k].owner == sock then past[k := Closed(PortIn(ports, k))] else past
  {
    var k, past, next := Key(i, j), PortsKilled(locks, ports, i, j, sock), PortsKilled(locks, ports, i, j + 1, sock);
    forall p | p in ports && p != k ensures next[p] == past[p] {
      assert Before(p, i, j + 1) <==> Before(p, i, j);
    }
    ReplacedAt(past, next, k, if LockIn(locks, k).owner == sock then Closed(PortIn(ports, k)) else PortIn(ports, k));
  }

  lemma ReplacedAt(past: map<Key, RecordPort>, next: map<Key, RecordPort>, k: Key, p: RecordPort)
    requires next.Keys == past.Keys && (k in next ==> next[k] == p)
    requires forall q :: q in past && q != k ==> next[q] == past[q]
    ensures k in next ==> next == past[k := p]
    ensures k in next && past[k] == p ==> next == past
    ensures k !in next ==> next == past
  {
  }

  lemma RowKilled(c: Config, m: State, i: nat, walked: bool, sock: Int32)
    requires Droppable(c, m, sock) && sock != NOBODY
    ensures Killed(m, i, c.streams, walked, sock) == Killed(m, i + 1, 0, walked, sock)
  {
    RecordsKilled(c, m.locks, m.ports, i, sock);
  }

  lemma RecordsKilled(c: Config, locks: map<Key, Lock>, ports: map<Key, RecordPort>, i: nat, sock: Int32)
    requires SockLocked(c, locks, ports, sock) && sock != NOBODY
    ensures LocksKilled(locks, i, c.streams, sock) == LocksKilled(locks, i + 1, 0, sock)
    ensures PortsKilled(locks, ports, i, c.streams, sock) == PortsKilled(locks, ports, i + 1, 0, sock)
  {
    forall p | p in locks && locks[p].owner == sock ensures Before(p, i, c.streams) <==> Before(p, i + 1, 0) {
      assert IsPort(c, p);
    }
  }

  lemma AllKilled(c: Config, m: State, walked: bool, sock: Int32)
    requires Droppable(c, m, sock) && sock != NOBODY && (walked || c.maxCards == 0 || c.streams == 0)
    ensures Killed(m, c.maxCards, 0, walked, sock) == CaeModel.KillSocket(m, sock)
  {
    AllRecordsKilled(c, m.locks, m.ports, sock);
    if !walked {
      assert m.sessions == map[];
      assert Remaining(m.sessions, sock) == m.sessions && Vacated(m.slots, m.sessions, sock) == m.slots;
    }
  }

  lemma AllRecordsKilled(c: Config, locks: map<Key, Lock>, ports: map<Key, RecordPort>, sock: Int32)
    requires SockLocked(c, locks, ports, sock) && sock != NOBODY
    ensures LocksKilled(locks, c.maxCards, 0, sock) == Released(locks, sock)
    ensures PortsKilled(locks, ports, c.maxCards, 0, sock) == Abandoned(ports, locks, sock)
  {
  }
}
