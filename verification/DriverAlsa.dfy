// The ALSA driver of caed (cae/driver_alsa.cpp) over its arrays of streams and ports.
// The alsa_* arrays of the driver are kept as one array of records per stream, and one
// per record port.
module AlsaDriver {
  import opened Wrappers
  import opened RingBuffer
  import opened AlsaStream
  import opened AlsaCapture
  import opened CaeModel

  class DriverAlsa {
    const formats: seq<Format>
    const maxCards: nat
    const maxStreams: nat
    const maxPorts: nat
    const streams: array2<Stream>
    const ports: array2<Port>
    ghost var slots: map<Key, Slot>         // what the arrays stand for
    ghost var recorders: map<Key, RecordPort>

    ghost predicate Sized() {
      && |formats| <= maxCards
      && streams.Length0 == maxCards && streams.Length1 == maxStreams
      && ports.Length0 == maxCards && ports.Length1 == maxPorts
    }

    ghost predicate StreamsShow()
      reads streams, `slots
    {
      && Sized()
      && (forall i, j :: 0 <= i < maxCards && 0 <= j < maxStreams ==> streams[i, j] == SlotIn(slots, Key(i, j)))
    }

    ghost predicate PortsShow()
      reads ports, `recorders
    {
      && Sized()
      && (forall i, j :: 0 <= i < maxCards && 0 <= j < maxPorts ==> ports[i, j] == PortIn(recorders, Key(i, j)))
    }

    ghost predicate Valid()
      reads this, streams, ports
    {
      StreamsShow() && PortsShow()
    }

    // Only stream j of card i may have changed.
    twostate predicate OnlyStream(i: nat, j: nat)
      reads streams
    {
      && Sized()
      && (forall m, n :: 0 <= m < maxCards && 0 <= n < maxStreams && (m != i || n != j) ==>
          streams[m, n] == old(streams[m, n]))
    }

    twostate predicate OnlyPort(i: nat, j: nat)
      reads ports
    {
      && Sized()
      && (forall m, n :: 0 <= m < maxCards && 0 <= n < maxPorts && (m != i || n != j) ==>
          ports[m, n] == old(ports[m, n]))
    }

    constructor (cards: seq<Format>, cardCount: nat, streamCount: nat, portCount: nat)
      requires |cards| <= cardCount
      ensures Valid() && formats == cards && maxCards == cardCount && maxStreams == streamCount && maxPorts == portCount
      ensures fresh(streams) && fresh(ports) && slots == map[] && recorders == map[]
    {
      formats, maxCards, maxStreams, maxPorts := cards, cardCount, streamCount, portCount;
      streams := new Stream[cardCount, streamCount]((_, _) => IDLE);
      ports := new Port[cardCount, portCount]((_, _) => UNUSED);
      slots, recorders := map[], map[];
    }

    // Allocate the first ring that is free, or answer -1.
    method GetAlsaOutputStream(card: nat) returns (stream: int)
      requires Sized() && card < |formats|
      modifies streams
      ensures -1 <= stream < maxStreams
      ensures forall i :: 0 <= i < (if stream == -1 then maxStreams else stream) ==> old(streams[card, i]).ring.Some?
      ensures stream == -1 ==> forall m, n :: 0 <= m < maxCards && 0 <= n < maxStreams ==>
          streams[m, n] == old(streams[m, n])
      ensures stream >= 0 ==>
        && old(streams[card, stream]).ring.None? && OnlyStream(card, stream)
        && streams[card, stream] == old(streams[card, stream]).(ring := Some([]))
    {
      stream := 0;
      while stream < maxStreams
        invariant 0 <= stream <= maxStreams
        invariant forall i :: 0 <= i < stream ==> streams[card, i].ring.Some?
        invariant forall m, n :: 0 <= m < maxCards && 0 <= n < maxStreams ==> streams[m, n] == old(streams[m, n])
      {
        if streams[card, stream].ring.None? {
          streams[card, stream] := streams[card, stream].(ring := Some([]));
          return;
        }
        stream := stream + 1;
      }
      return -1;
    }

    method FreeAlsaOutputStream(card: nat, stream: nat)
      requires Sized() && card < |formats| && stream < maxStreams
      modifies streams
      ensures streams[card, stream] == old(streams[card, stream]).(ring := None) && OnlyStream(card, stream)
    {
      streams[card, stream] := streams[card, stream].(ring := None);
    }

    // A read that does not fit the transfer buffer is reported, and nothing is changed.
    method FillAlsaOutputStream(card: nat, stream: nat) returns (overrun: bool)
      requires Sized() && card < |formats| && stream < maxStreams
      requires Consistent(streams[card, stream]) && streams[card, stream].ring.Some?
      modifies streams
      ensures var s := old(streams[card, stream]);
        && overrun == Overruns(formats[card], s.wave.value, |s.ring.value|, s.cursor)
        && streams[card, stream] == (if overrun then s else Fill(formats[card], s))
      ensures OnlyStream(card, stream)
    {
      var s := streams[card, stream];
      var w := s.wave.value;
      var free := CAPACITY - |s.ring.value| - 1;
      if free <= 0 {
        return false;
      }
      var wanted := Wanted(formats[card], w, free);
      var n := if wanted < |w.data| - s.cursor then wanted else |w.data| - s.cursor;
      if n > TRANSFER {
        return true;
      }
      FillIs(formats[card], s, wanted, n);
      var data := w.data[s.cursor..s.cursor + n];
      if n != wanted {
        s := s.(eof := true, timer := false);
      }
      streams[card, stream] := s.(ring := Some(Stored(s.ring.value, CAPACITY, data)), cursor := s.cursor + n);
      return false;
    }

    // The first stream of a card without a ring.
    ghost predicate FirstFree(card: nat, stream: int, ss: map<Key, Slot>) {
      && 0 <= stream < maxStreams && SlotIn(ss, Key(card, stream)).ring.None?
      && (forall i :: 0 <= i < stream ==> SlotIn(ss, Key(card, i)).ring.Some?)
    }

    method LoadPlayback(card: nat, wave: Option<Wave>) returns (ok: bool, stream: int, fault: bool)
      requires Valid() && card < |formats|
      modifies streams, `slots
      ensures Valid()
      ensures ok || fault ==>
        && !formats[card].exiting && wave.Some? && FirstFree(card, stream, old(slots))
        && fault == FaultsAtLoad(formats[card], wave.value)
      ensures slots == if !ok || fault then old(slots)
        else old(slots)[Key(card, stream) := Loaded(formats[card], SlotIn(old(slots), Key(card, stream)), wave.value)]
      ensures !ok && !fault ==>
          formats[card].exiting || wave.None? || forall i :: 0 <= i < maxStreams ==>
            SlotIn(slots, Key(card, i)).ring.Some?
    {
      if formats[card].exiting {
        return false, -1, false;
      }
      stream := GetAlsaOutputStream(card);
      if stream < 0 {
        return false, stream, false;
      }
      if wave.None? {
        FreeAlsaOutputStream(card, stream);
        return false, -1, false;
      }
      fault := OpenAndFill(card, stream, wave.value);
      if fault {
        FreeAlsaOutputStream(card, stream);
        return false, stream, true;
      }
      slots := slots[Key(card, stream) := streams[card, stream]];
      return true, stream, false;
    }

    // The wave is opened and the empty ring filled.
    method OpenAndFill(card: nat, stream: nat, wave: Wave) returns (fault: bool)
      requires Sized() && card < |formats| && stream < maxStreams
      requires streams[card, stream].ring == Some([]) && Consistent(streams[card, stream].(ring := None))
      modifies streams
      ensures OnlyStream(card, stream) && fault == FaultsAtLoad(formats[card], wave)
      ensures streams[card, stream] ==
        if fault then old(streams[card, stream])
        else Loaded(formats[card], old(streams[card, stream]).(ring := None), wave)
    {
      if wave.counted && wave.rate == 0 {
        return true;
      }
      var s := streams[card, stream];
      streams[card, stream] := s.(wave := Some(wave), cursor := 0, stopping := false, offset := 0, pos := 0,
          eof := false, ring := Some([]));
      fault := FillAlsaOutputStream(card, stream);
      if fault {
        streams[card, stream] := s;
      }
    }

    method UnloadPlayback(card: nat, stream: nat) returns (ok: bool)
      requires Valid() && card < |formats| && stream < maxStreams
      modifies streams, `slots
      ensures Valid() && ok == SlotIn(old(slots), Key(card, stream)).ring.Some?
      ensures slots ==
        if ok then old(slots)[Key(card, stream) := AfterUnload(SlotIn(old(slots), Key(card, stream)))] else old(slots)
    {
      if streams[card, stream].ring.None? {
        return false;
      }
      streams[card, stream] := streams[card, stream].(playing := false);
      streams[card, stream] := streams[card, stream].(wave := None);
      FreeAlsaOutputStream(card, stream);
      slots := slots[Key(card, stream) := streams[card, stream]];
      return true;
    }

    method PlaybackPosition(card: nat, stream: nat, pos: nat) returns (ok: bool, overrun: bool)
      requires Valid() && card < |formats| && stream < maxStreams && SlotIn(slots, Key(card, stream)).ring.Some?
      modifies streams, `slots
      ensures Valid() && ok == CanSeek(formats[card], SlotIn(old(slots), Key(card, stream)), pos)
      ensures overrun == StepFaults(formats[card], SlotIn(old(slots), Key(card, stream)), Seek(pos))
      ensures slots == if overrun then old(slots) else old(slots)[Key(card, stream) :=
          Step(formats[card], SlotIn(old(slots), Key(card, stream)), Seek(pos)).stream]
    {
      ghost var before := streams[card, stream];
      ok, overrun := SeekStream(card, stream, pos);
      if !overrun {
        slots := slots[Key(card, stream) := streams[card, stream]];
      }
    }

    method SeekStream(card: nat, stream: nat, pos: nat) returns (ok: bool, overrun: bool)
      requires Sized() && card < |formats| && stream < maxStreams
      requires Consistent(streams[card, stream]) && streams[card, stream].ring.Some?
      modifies streams
      ensures OnlyStream(card, stream) && ok == CanSeek(formats[card], old(streams[card, stream]), pos)
      ensures overrun == StepFaults(formats[card], old(streams[card, stream]), Seek(pos))
      ensures streams[card, stream] ==
        if overrun then old(streams[card, stream])
        else Step(formats[card], old(streams[card, stream]), Seek(pos)).stream
    {
      if formats[card].exiting {
        return false, false;
      }
      var s := streams[card, stream];
      var w := s.wave.value;
      var offset := SeekFrame(w, pos);
      streams[card, stream] := s.(offset := offset);
      if offset > Blocks(w, |w.data|) {
        return false, false;
      }
      streams[card, stream] := s.(offset := offset, pos := 0, cursor := BlockBytes(w, offset), eof := false,
          ring := Some([]));
      overrun := FillAlsaOutputStream(card, stream);
      if overrun {
        streams[card, stream] := s;
      } else if s.playing {
        streams[card, stream] := streams[card, stream].(timer := true);
      }
      return true, overrun;
    }

    // A stream that starts to play is announced by the caller.
    method Play(card: nat, stream: nat, length: int, speed: nat) returns (ok: bool)
      requires Valid() && card < |formats| && stream < maxStreams
      modifies streams, `slots
      ensures Valid() && ok == CanPlay(SlotIn(old(slots), Key(card, stream)), speed)
      ensures slots == if ok then old(slots)[Key(card, stream) := AfterPlay(SlotIn(old(slots), Key(card, stream)),
          length)] else old(slots)
    {
      var s := streams[card, stream];
      if s.ring.None? || s.playing || speed != NORMAL_SPEED {
        return false;
      }
      streams[card, stream] := s.(playing := true);
      if length > 0 {
        streams[card, stream] := s.(playing := true, timer := true);
      }
      slots := slots[Key(card, stream) := streams[card, stream]];
      return true;
    }

    method StopPlayback(card: nat, stream: nat) returns (ok: bool)
      requires Valid() && card < |formats| && stream < maxStreams
      modifies streams, `slots
      ensures Valid() && ok == CanStop(SlotIn(old(slots), Key(card, stream)))
      ensures slots ==
        if ok then old(slots)[Key(card, stream) := AfterStop(SlotIn(old(slots), Key(card, stream)))] else old(slots)
    {
      var s := streams[card, stream];
      if s.ring.None? || !s.playing {
        return false;
      }
      streams[card, stream] := s.(playing := false, ring := Some([]), timer := false);
      slots := slots[Key(card, stream) := streams[card, stream]];
      return true;
    }

    // The single-shot stop timer of a stream fires.
    method StopTimerData(card: nat, stream: nat) returns (stopped: bool)
      requires Valid() && card < |formats| && stream < maxStreams && streams[card, stream].timer
      modifies streams, `slots
      ensures Valid() && stopped == CanStop(SlotIn(old(slots), Key(card, stream)))
      ensures slots == old(slots)[Key(card, stream) := Step(formats[card], SlotIn(old(slots), Key(card, stream)),
          Timer).stream]
    {
      streams[card, stream] := streams[card, stream].(timer := false);
      slots := slots[Key(card, stream) := streams[card, stream]];
      stopped := StopPlayback(card, stream);
    }

    method LoadRecord(card: nat, port: nat, coding: nat, channels: nat, rate: nat, writable: bool) returns (ok: bool)
      requires Valid() && card < |formats| && port < maxPorts
      modifies ports, `recorders
      ensures Valid() && ok == (coding == 0 && 1 <= channels <= 2 && rate > 0 && writable)
      ensures recorders ==
        if ok
        then old(recorders)[Key(card, port) := AfterLoadRecord(PortIn(old(recorders), Key(card, port)), channels)]
        else old(recorders)
    {
      if coding != 0 || channels < 1 || channels > 2 || rate == 0 || !writable {
        return false;
      }
      ports[card, port] := ports[card, port].(channels := channels, written := []);
      ports[card, port] := ports[card, port].(ring := Some([]), ready := true);
      recorders := recorders[Key(card, port) := ports[card, port]];
      return true;
    }

    method EmptyAlsaInputStream(card: nat, port: nat)
      requires Sized() && card < |formats| && port < maxPorts
      requires ports[card, port].ring.Some? && 1 <= ports[card, port].channels <= 2
      modifies ports
      ensures OnlyPort(card, port) && ports[card, port] == Filed(old(ports[card, port]))
    {
      var p := ports[card, port];
      var buffer := p.ring.value;
      ports[card, port] := p.(ring := Some([]));
      var frames := |buffer| / (2 * p.channels);
      ports[card, port] := ports[card, port].(samples := p.samples + frames, written := p.written + buffer);
    }

    method UnloadRecord(card: nat, port: nat) returns (length: nat)
      requires Valid() && card < |formats| && port < maxPorts && PortIn(recorders, Key(card, port)).ring.Some?
      modifies ports, `recorders
      ensures Valid() && length == RecordedLength(PortIn(old(recorders), Key(card, port)))
      ensures recorders == old(recorders)[Key(card, port) := AfterUnloadRecord(PortIn(old(recorders), Key(card, port)))]
    {
      ports[card, port] := ports[card, port].(recording := false, ready := false);
      EmptyAlsaInputStream(card, port);
      length := ports[card, port].samples;
      ports[card, port] := ports[card, port].(samples := 0, ring := None);
      recorders := recorders[Key(card, port) := ports[card, port]];
    }

    // A recording that starts or stops is announced by the caller.
    method Record(card: nat, port: nat, length: int) returns (ok: bool)
      requires Valid() && card < |formats| && port < maxPorts
      modifies ports, `recorders
      ensures Valid() && ok == PortIn(old(recorders), Key(card, port)).ready
      ensures recorders ==
        if ok then old(recorders)[Key(card, port) := AfterRecord(PortIn(old(recorders), Key(card, port)), length)]
        else old(recorders)
    {
      if !ports[card, port].ready {
        return false;
      }
      ports[card, port] := ports[card, port].(recording := true);
      if length > 0 {
        ports[card, port] := ports[card, port].(timer := true);
      }
      recorders := recorders[Key(card, port) := ports[card, port]];
      return true;
    }

    method StopRecord(card: nat, port: nat) returns (ok: bool)
      requires Valid() && card < |formats| && port < maxPorts
      modifies ports, `recorders
      ensures Valid() && ok == PortIn(old(recorders), Key(card, port)).recording
      ensures recorders ==
        if ok then old(recorders)[Key(card, port) := PortIn(old(recorders), Key(card, port)).(recording := false)]
        else old(recorders)
    {
      if !ports[card, port].recording {
        return false;
      }
      ports[card, port] := ports[card, port].(recording := false);
      recorders := recorders[Key(card, port) := ports[card, port]];
      return true;
    }

    // The single-shot record timer of a port fires.
    method RecordTimerData(card: nat, port: nat) returns (stopped: bool)
      requires Valid() && card < |formats| && port < maxPorts && ports[card, port].timer
      modifies ports, `recorders
      ensures Valid() && stopped == PortIn(old(recorders), Key(card, port)).recording
      ensures recorders == old(recorders)[Key(card, port) := CaptureStep(PortIn(old(recorders), Key(card, port)),
          RecordTimer)]
    {
      ports[card, port] := ports[card, port].(timer := false);
      recorders := recorders[Key(card, port) := ports[card, port]];
      stopped := StopRecord(card, port);
    }

    // What processBuffers does for one stream; a stream that stops is announced by the
    // caller.
    method ProcessStream(card: nat, stream: nat) returns (stopped: bool, overrun: bool)
      requires Valid() && card < |formats| && stream < maxStreams
      modifies streams, `slots
      ensures Valid() && stopped == SlotIn(old(slots), Key(card, stream)).stopping
      ensures overrun == StepFaults(formats[card], SlotIn(old(slots), Key(card, stream)), Tick)
      ensures slots == if overrun then old(slots)
        else old(slots)[Key(card, stream) := AfterTick(formats[card], SlotIn(old(slots), Key(card, stream)))]
    {
      overrun := false;
      stopped := streams[card, stream].stopping;
      if stopped {
        streams[card, stream] := streams[card, stream].(stopping := false, eof := false, playing := false);
      }
      if streams[card, stream].playing {
        overrun := FillAlsaOutputStream(card, stream);
      }
      if !overrun {
        slots := slots[Key(card, stream) := streams[card, stream]];
      }
    }

    // What processBuffers does for one record port.
    method ProcessPort(card: nat, port: nat)
      requires Valid() && card < |formats| && port < maxPorts
      modifies ports, `recorders
      ensures Valid()
      ensures recorders == old(recorders)[Key(card, port) := CaptureStep(PortIn(old(recorders), Key(card, port)),
          Service)]
    {
      if ports[card, port].recording {
        EmptyAlsaInputStream(card, port);
      }
      recorders := recorders[Key(card, port) := ports[card, port]];
    }

    // What one round of the playback callback does for one stream.
    method PlayStream(card: nat, stream: nat) returns (bytes: seq<Byte>)
      requires Valid() && card < |formats| && stream < maxStreams
      modifies streams, `slots
      ensures Valid()
      ensures slots == old(slots)[Key(card, stream) := AfterRound(formats[card], SlotIn(old(slots), Key(card, stream)))]
      ensures bytes == RoundBytes(formats[card], SlotIn(old(slots), Key(card, stream)))
    {
      bytes := [];
      var s := streams[card, stream];
      if s.playing {
        var period := Period(formats[card], s.wave.value);
        bytes := Taken(s.ring.value, period);
        var n := FramesGot(s.wave.value, |bytes|);
        streams[card, stream] := s.(ring := Some(Left(s.ring.value, period)), pos := s.pos + n);
        if n == 0 && s.eof {
          streams[card, stream] := streams[card, stream].(stopping := true);
        }
      }
      slots := slots[Key(card, stream) := streams[card, stream]];
    }

    // What getOutputPosition does for one stream; dividing by the rate 0 is reported.
    method ReportStream(card: nat, stream: nat) returns (position: nat, fault: bool)
      requires Valid() && card < |formats| && stream < maxStreams
      modifies `slots
      ensures Valid() && fault == StepFaults(formats[card], SlotIn(old(slots), Key(card, stream)), Report)
      ensures !fault ==> position == Position(formats[card], SlotIn(old(slots), Key(card, stream)))
      ensures slots == if fault then old(slots)
        else old(slots)[Key(card, stream) := SlotIn(old(slots), Key(card, stream))]
    {
      var s := streams[card, stream];
      if !formats[card].exiting && s.wave.Some? {
        if s.wave.value.rate == 0 {
          return 0, true;
        }
        position := 1000 * (s.offset + s.pos) / s.wave.value.rate;
      } else {
        position := 0;
      }
      slots := slots[Key(card, stream) := s];
      return position, false;
    }

    // What one round of the capture callback does for one port.
    method CapturePort(card: nat, port: nat, frames: seq<Byte>, muted: bool)
      requires Valid() && card < |formats| && port < maxPorts
      modifies ports, `recorders
      ensures Valid()
      ensures recorders == old(recorders)[Key(card, port) := AfterCapture(PortIn(old(recorders), Key(card, port)),
          frames, muted)]
    {
      var p := ports[card, port];
      if p.recording {
        if !muted {
          ports[card, port] := p.(ring := Some(Stored(p.ring.value, CAPACITY, frames)));
        }
      }
      recorders := recorders[Key(card, port) := ports[card, port]];
    }
  }
}
