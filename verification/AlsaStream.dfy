// One playback stream of the ALSA driver (cae/driver_alsa.cpp): the state kept in the
// alsa_* arrays for a card and stream number, and what each operation does to it.
// Waves are 16-bit PCM.
module AlsaStream {
  import opened Wrappers
  import opened Arithmetic
  import opened RingBuffer

  // A wave file: its sample data, sample rate and channel count, and whether its header
  // gives the number of samples.
  datatype WaveFile = WaveFile(data: seq<Byte>, rate: nat, channels: nat, counted: bool)
  {
    function BlockAlign(): nat {
      2 * channels
    }
  }

  type Wave = w: WaveFile | w.rate < WORD && 1 <= w.channels <= 2 witness WaveFile([], 1, 1, false)

  // The playback side of a card.  buffer counts frames.
  datatype PlayFormat = PlayFormat(rate: nat, buffer: nat, periods: nat, exiting: bool)

  type Format = f: PlayFormat | f.rate >= 1 && f.periods >= 1 witness PlayFormat(1, 0, 1, false)

  const CAPACITY: nat := 262144 - 1

  // The bytes of the buffer between file and ring.
  const TRANSFER: nat := 2 * 262144

  const NORMAL_SPEED: nat := 100000

  datatype Stream = Stream(
    ring: Option<seq<Byte>>,
    wave: Option<Wave>,
    cursor: nat,
    playing: bool,
    stopping: bool,
    eof: bool,
    offset: nat,
    pos: nat,
    timer: bool)

  const IDLE := Stream(None, None, 0, false, false, false, 0, 0, false)

  // What the arrays always satisfy for one stream.
  predicate Consistent(s: Stream) {
    && (s.ring.Some? <==> s.wave.Some?)
    && (s.ring.Some? ==> |s.ring.value| <= CAPACITY && s.cursor <= |s.wave.value.data|)
    && (s.playing ==> s.ring.Some?)
  }

  // ----- Filling and draining the ring -----------------------------------------

  // The whole blocks in n bytes, and their bytes.
  function Blocks(w: Wave, n: nat): nat {
    if w.channels == 1 then n / 2 else n / 4
  }

  function BlockBytes(w: Wave, blocks: nat): nat {
    if w.channels == 1 then 2 * blocks else 4 * blocks
  }

  lemma BlocksAreAligned(w: Wave, n: nat)
    ensures Blocks(w, n) == n / w.BlockAlign() && BlockBytes(w, n) == n * w.BlockAlign()
  {
  }

  // The number of bytes to ask of the wave when free bytes fit in the ring.
  function Wanted(f: Format, w: Wave, free: nat): nat {
    BlockBytes(w, Blocks(w, Scaled(free, w.rate, f.rate)))
  }

  // A fill that reads more than the transfer buffer holds writes past its end.
  predicate Overruns(f: Format, w: Wave, held: nat, cursor: nat) {
    var free := CAPACITY - held - 1;
    free > 0 && Wanted(f, w, free) > TRANSFER && |w.data| - cursor > TRANSFER
  }

  // Opening a file whose header gives the number of samples divides it by the rate, and
  // a load fills the empty ring.
  predicate FaultsAtLoad(f: Format, w: Wave) {
    (w.counted && w.rate == 0) || Overruns(f, w, 0, 0)
  }

  function Fill(f: Format, s: Stream): (t: Stream)
    requires Consistent(s) && s.ring.Some?
    ensures Consistent(t) && t.ring.Some?
  {
    var w, ring := s.wave.value, s.ring.value;
    var free := CAPACITY - |ring| - 1;
    if free <= 0 then s
    else
      var wanted := Wanted(f, w, free);
      var n := Min(wanted, |w.data| - s.cursor);
      s.(ring := Some(Stored(ring, CAPACITY, w.data[s.cursor..s.cursor + n])),
         cursor := s.cursor + n,
         eof := s.eof || n != wanted,
         timer := s.timer && n == wanted)
  }

  lemma FillIs(f: Format, s: Stream, wanted: nat, n: nat)
    requires Consistent(s) && s.ring.Some? && CAPACITY - |s.ring.value| - 1 > 0
    requires wanted == Wanted(f, s.wave.value, CAPACITY - |s.ring.value| - 1)
    requires n == Min(wanted, |s.wave.value.data| - s.cursor)
    ensures var data := s.wave.value.data[s.cursor..s.cursor + n];
            Fill(f, s) == s.(ring := Some(Stored(s.ring.value, CAPACITY, data)), cursor := s.cursor + n,
                             eof := s.eof || n != wanted, timer := s.timer && n == wanted)
  {
  }

  // The number of bytes one callback round asks of the ring.
  function Period(f: Format, w: Wave): nat {
    if w.channels == 1 then f.buffer / f.periods else f.buffer * 2 / f.periods
  }

  // The frames counted for the bytes got.
  function FramesGot(w: Wave, got: nat): nat {
    if w.channels == 1 then got / 4 * 2 else got / 4
  }

  // ----- The operations ----------------------------------------------------------

  datatype Note = Playing | Stopped | Unloaded

  // The new state, the bytes taken from the ring, and the state changes announced.
  // Unloading announces nothing to clients; it is noted for the record.
  datatype Outcome = Outcome(stream: Stream, bytes: seq<Byte>, notes: seq<Note>)

  datatype Event =
    | Load(wave: Wave)
    | Unload
    | Seek(ms: nat)
    | Play(length: int, speed: nat)
    | Stop
    | Timer
    | Tick
    | Round
    | Report

  function Loaded(f: Format, s: Stream, w: Wave): (t: Stream)
    requires Consistent(s) && s.ring.None?
    ensures Consistent(t) && t.ring.Some? && !t.playing
  {
    Fill(f, Stream(Some([]), Some(w), 0, s.playing, false, false, 0, 0, s.timer))
  }

  function AfterUnload(s: Stream): (t: Stream)
    ensures Consistent(s) ==> Consistent(t)
  {
    s.(ring := None, wave := None, playing := false)
  }

  predicate CanPlay(s: Stream, speed: nat) {
    s.ring.Some? && !s.playing && speed == NORMAL_SPEED
  }

  function AfterPlay(s: Stream, length: int): (t: Stream)
    ensures Consistent(s) && s.ring.Some? ==> Consistent(t)
  {
    s.(playing := true, timer := s.timer || length > 0)
  }

  predicate CanStop(s: Stream) {
    s.ring.Some? && s.playing
  }

  function AfterStop(s: Stream): (t: Stream)
    ensures Consistent(s) && s.ring.Some? ==> Consistent(t)
  {
    s.(playing := false, ring := Some([]), timer := false)
  }

  // The frame that a position in milliseconds stands for.  The byte offset goes
  // through an unsigned, which keeps its low 32 bits.
  function SeekFrame(w: Wave, ms: nat): nat {
    Blocks(w, Low(BlockBytes(w, w.rate) * ms / 1000))
  }

  predicate CanSeek(f: Format, s: Stream, ms: nat)
    requires s.wave.Some?
  {
    !f.exiting && SeekFrame(s.wave.value, ms) <= Blocks(s.wave.value, |s.wave.value.data|)
  }

  function AfterSeek(f: Format, s: Stream, ms: nat): (t: Stream)
    requires Consistent(s) && s.ring.Some? && CanSeek(f, s, ms)
    ensures Consistent(t) && t.ring.Some? && t.playing == s.playing
  {
    var w := s.wave.value;
    var frame := SeekFrame(w, ms);
    var s1 := Fill(f, s.(offset := frame, pos := 0, cursor := BlockBytes(w, frame), eof := false, ring := Some([])));
    s1.(timer := s1.timer || s.playing)
  }

  // processBuffers for one stream.
  function AfterTick(f: Format, s: Stream): (t: Stream)
    requires Consistent(s)
    ensures Consistent(t)
  {
    var s1 := if s.stopping then s.(stopping := false, eof := false, playing := false) else s;
    if s1.playing then Fill(f, s1) else s1
  }

  // One round of the playback callback for one stream.
  function AfterRound(f: Format, s: Stream): (t: Stream)
    requires Consistent(s)
    ensures Consistent(t)
  {
    if !s.playing then s
    else
      var w, ring := s.wave.value, s.ring.value;
      var n := FramesGot(w, |Taken(ring, Period(f, w))|);
      s.(ring := Some(Left(ring, Period(f, w))), pos := s.pos + n, stopping := s.stopping || (n == 0 && s.eof))
  }

  function RoundBytes(f: Format, s: Stream): seq<Byte>
    requires Consistent(s)
  {
    if s.playing then Taken(s.ring.value, Period(f, s.wave.value)) else []
  }

  function Step(f: Format, s: Stream, e: Event): (o: Outcome)
    requires Consistent(s)
    ensures Consistent(o.stream)
  {
    match e
    case Load(w) => Outcome(if s.ring.None? then Loaded(f, s, w) else s, [], [])
    case Unload => if s.ring.Some? then Outcome(AfterUnload(s), [], [Unloaded]) else Outcome(s, [], [])
    case Seek(ms) =>
      if s.ring.None? then Outcome(s, [], [])
      else if CanSeek(f, s, ms) then Outcome(AfterSeek(f, s, ms), [], [])
      else Outcome(if f.exiting then s else s.(offset := SeekFrame(s.wave.value, ms)), [], [])
    case Play(length, speed) =>
      if CanPlay(s, speed) then Outcome(AfterPlay(s, length), [], [Playing]) else Outcome(s, [], [])
    case Stop => if CanStop(s) then Outcome(AfterStop(s), [], [Stopped]) else Outcome(s, [], [])
    case Timer =>
      var s1 := s.(timer := false);
      if s.timer && CanStop(s) then Outcome(AfterStop(s1), [], [Stopped]) else Outcome(s1, [], [])
    case Tick => Outcome(AfterTick(f, s), [], if s.stopping then [Stopped] else [])
    case Round => Outcome(AfterRound(f, s), RoundBytes(f, s), [])
    case Report => Outcome(s, [], [])
  }

  // Whether an event asks for a fill that writes past the transfer buffer, or divides by
  // the rate 0.  Step says what the others do.
  predicate StepFaults(f: Format, s: Stream, e: Event)
    requires Consistent(s)
  {
    match e
    case Load(w) => s.ring.None? && FaultsAtLoad(f, w)
    case Seek(ms) =>
      && s.ring.Some? && CanSeek(f, s, ms)
      && Overruns(f, s.wave.value, 0, BlockBytes(s.wave.value, SeekFrame(s.wave.value, ms)))
    case Tick => s.playing && !s.stopping && Overruns(f, s.wave.value, |s.ring.value|, s.cursor)
    case Report => !f.exiting && s.wave.Some? && s.wave.value.rate == 0
    case _ => false
  }

  // What getOutputPosition reports for a stream, in milliseconds.
  function Position(f: Format, s: Stream): nat
    requires Consistent(s) && !StepFaults(f, s, Report)
  {
    if f.exiting || s.wave.None? then 0 else 1000 * (s.offset + s.pos) / s.wave.value.rate
  }

  // ----- Runs ----------------------------------------------------------------------

  function Run(f: Format, s: Stream, events: seq<Event>): (r: Outcome)
    requires Consistent(s)
    ensures Consistent(r.stream)
    decreases |events|
  {
    if events == [] then Outcome(s, [], [])
    else
      var o := Step(f, s, events[0]);
      var r := Run(f, o.stream, events[1..]);
      Outcome(r.stream, o.bytes + r.bytes, o.notes + r.notes)
  }
}
