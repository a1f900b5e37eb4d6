// What holds over whole runs of one ALSA playback stream.
module AlsaRuns {
  import opened Wrappers
  import opened Arithmetic
  import opened RingBuffer
  import opened AlsaStream

  // ----- Playback is a FIFO ----------------------------------------------------

  // Events that neither discard the ring nor move the file cursor by hand.
  predicate Streaming(e: Event) {
    e.Play? || e.Tick? || e.Round? || e.Report?
  }

  // The first fill of an empty ring from the cursor on takes no more than the ring does.
  predicate FirstFits(f: Format, w: Wave, cursor: nat)
    requires cursor <= |w.data|
  {
    Min(Wanted(f, w, CAPACITY - 1), |w.data| - cursor) <= CAPACITY
  }

  // Then it leaves the file read to its end, or a fill never takes more.
  predicate Roomy(f: Format, w: Wave, cursor: nat) {
    Wanted(f, w, CAPACITY - 1) <= CAPACITY || cursor == |w.data|
  }

  lemma SlowIsRoomy(f: Format, w: Wave)
    requires w.rate <= f.rate
    ensures Wanted(f, w, CAPACITY - 1) <= CAPACITY
  {
    ScaledAtMost(CAPACITY - 1, w.rate, f.rate, 1);
  }

  // What the largest fill has room for, every fill has.
  lemma WantedFits(f: Format, w: Wave, free: nat)
    requires Wanted(f, w, CAPACITY - 1) <= CAPACITY && free <= CAPACITY - 1
    ensures Wanted(f, w, free) <= free + 1
  {
    var most, scaled := Scaled(CAPACITY - 1, w.rate, f.rate), Scaled(free, w.rate, f.rate);
    assert most <= CAPACITY;
    Division((CAPACITY - 1) * w.rate, f.rate);
    AtMost(most + 1, CAPACITY + 1, f.rate);
    InProportion(CAPACITY - 1, free, w.rate, f.rate);
    Division(free * w.rate, f.rate);
    Cancel(scaled, free + 2, f.rate);
  }

  lemma InProportion(most: nat, free: nat, a: nat, b: nat)
    requires free <= most && most * a < (most + 2) * b
    ensures free * a < (free + 2) * b
  {
    if free > 0 {
      Ordered(most * a, (most + 2) * b, free);
      AtMost(free, most, 2 * b);
      assert (most + 2) * b * free == free * most * b + 2 * b * free;
      assert (free + 2) * b * most == free * most * b + 2 * b * most;
      assert most * a * free == free * a * most;
      Cancel(free * a, (free + 2) * b, most);
    }
  }

  lemma Ordered(x: int, y: int, k: int)
    requires x < y && k > 0
    ensures x * k < y * k
  {
    AtMost(x + 1, y, k);
  }

  // The bytes that the next fill reads fit the ring.
  predicate FillFits(f: Format, s: Stream)
    requires Consistent(s) && s.ring.Some?
  {
    var free := CAPACITY - |s.ring.value| - 1;
    free > 0 ==> Min(Wanted(f, s.wave.value, free), |s.wave.value.data| - s.cursor) <= free + 1
  }

  lemma RoomyFits(f: Format, s: Stream)
    requires Consistent(s) && s.ring.Some? && Roomy(f, s.wave.value, s.cursor)
    ensures FillFits(f, s) && Roomy(f, s.wave.value, Fill(f, s).cursor)
  {
    var free := CAPACITY - |s.ring.value| - 1;
    if free > 0 && Wanted(f, s.wave.value, CAPACITY - 1) <= CAPACITY {
      WantedFits(f, s.wave.value, free);
    }
  }

  lemma FirstIsRoomy(f: Format, s: Stream)
    requires Consistent(s) && s.ring == Some([]) && FirstFits(f, s.wave.value, s.cursor)
    ensures FillFits(f, s) && Roomy(f, s.wave.value, Fill(f, s).cursor)
  {
  }

  lemma FillAppends(f: Format, s: Stream)
    requires Consistent(s) && s.ring.Some? && FillFits(f, s)
    ensures var t := Fill(f, s);
            && t.wave == s.wave && t.ring.Some? && s.cursor <= t.cursor <= |s.wave.value.data|
            && t.ring.value == s.ring.value + s.wave.value.data[s.cursor..t.cursor]
  {
  }

  // Bytes taken and still held are the bytes held before and those read since.
  ghost predicate InOrder(s: Stream, bytes: seq<Byte>, t: Stream) {
    && s.wave.Some? && t.wave == s.wave && s.ring.Some? && t.ring.Some?
    && s.cursor <= t.cursor <= |s.wave.value.data|
    && bytes + t.ring.value == s.ring.value + s.wave.value.data[s.cursor..t.cursor]
  }

  lemma StepInOrder(f: Format, s: Stream, e: Event)
    requires Consistent(s) && s.ring.Some? && Roomy(f, s.wave.value, s.cursor) && Streaming(e)
    ensures InOrder(s, Step(f, s, e).bytes, Step(f, s, e).stream)
    ensures Roomy(f, s.wave.value, Step(f, s, e).stream.cursor)
  {
    var s1 := if s.stopping then s.(stopping := false, eof := false, playing := false) else s;
    if e.Tick? && s1.playing {
      RoomyFits(f, s1);
      FillAppends(f, s1);
    }
  }

  lemma {:induction false} RunInOrder(f: Format, s: Stream, events: seq<Event>)
    requires Consistent(s) && s.ring.Some? && Roomy(f, s.wave.value, s.cursor)
    requires forall e :: e in events ==> Streaming(e)
    ensures InOrder(s, Run(f, s, events).bytes, Run(f, s, events).stream)
    decreases |events|
  {
    if events != [] {
      var o := Step(f, s, events[0]);
      StepInOrder(f, s, events[0]);
      RunInOrder(f, o.stream, events[1..]);
      var r := Run(f, o.stream, events[1..]);
      Chain(o.bytes, r.bytes, s.ring.value, o.stream.ring.value, r.stream.ring.value, s.wave.value.data,
            s.cursor, o.stream.cursor, r.stream.cursor);
    }
  }

  lemma Chain(b1: seq<Byte>, b2: seq<Byte>, r0: seq<Byte>, r1: seq<Byte>, r2: seq<Byte>, data: seq<Byte>,
              c0: nat, c1: nat, c2: nat)
    requires c0 <= c1 <= c2 <= |data|
    requires b1 + r1 == r0 + data[c0..c1] && b2 + r2 == r1 + data[c1..c2]
    ensures b1 + b2 + r2 == r0 + data[c0..c2]
  {
    assert b1 + b2 + r2 == b1 + (b2 + r2) == (b1 + r1) + data[c1..c2];
    assert data[c0..c2] == data[c0..c1] + data[c1..c2];
  }

  // A ring that holds the file from start up to the cursor.
  predicate HoldsFrom(s: Stream, start: nat) {
    && s.ring.Some? && s.wave.Some? && start <= s.cursor <= |s.wave.value.data|
    && s.ring.value == s.wave.value.data[start..s.cursor]
  }

  lemma FifoFrom(f: Format, s: Stream, start: nat, events: seq<Event>)
    requires Consistent(s) && HoldsFrom(s, start) && Roomy(f, s.wave.value, s.cursor)
    requires forall e :: e in events ==> Streaming(e)
    ensures var r := Run(f, s, events);
            && r.stream.wave == s.wave && r.stream.ring.Some?
            && start <= r.stream.cursor <= |s.wave.value.data|
            && r.bytes + r.stream.ring.value == s.wave.value.data[start..r.stream.cursor]
  {
    RunInOrder(f, s, events);
    Spliced(s.wave.value.data, start, s.cursor, Run(f, s, events).stream.cursor);
  }

  lemma Spliced(data: seq<Byte>, a: nat, b: nat, c: nat)
    requires a <= b <= c <= |data|
    ensures data[a..b] + data[b..c] == data[a..c]
  {
  }

  lemma FillHolds(f: Format, s: Stream)
    requires Consistent(s) && s.ring == Some([]) && FirstFits(f, s.wave.value, s.cursor)
    ensures Consistent(Fill(f, s)) && HoldsFrom(Fill(f, s), s.cursor) && Fill(f, s).wave == s.wave
    ensures Roomy(f, s.wave.value, Fill(f, s).cursor)
  {
    FirstIsRoomy(f, s);
    FillAppends(f, s);
    var t := Fill(f, s);
    assert [] + s.wave.value.data[s.cursor..t.cursor] == s.wave.value.data[s.cursor..t.cursor];
  }

  // From a load on, as long as nothing stops or moves the stream, the bytes taken
  // from the ring followed by those left in it are the bytes read from the file.
  lemma PlaybackIsFifo(f: Format, s: Stream, w: Wave, events: seq<Event>)
    requires Consistent(s) && s.ring.None? && FirstFits(f, w, 0)
    requires forall e :: e in events ==> Streaming(e)
    ensures Delivers(Run(f, Loaded(f, s, w), events), w)
  {
    var s0 := Stream(Some([]), Some(w), 0, s.playing, false, false, 0, 0, s.timer);
    FillHolds(f, s0);
    FifoFrom(f, Fill(f, s0), 0, events);
    var r := Run(f, Fill(f, s0), events);
    assert w.data[0..r.stream.cursor] == w.data[..r.stream.cursor];
  }

  ghost predicate Delivers(r: Outcome, w: Wave) {
    && r.stream.wave == Some(w) && r.stream.ring.Some? && r.stream.cursor <= |w.data|
    && r.bytes + r.stream.ring.value == w.data[..r.stream.cursor]
  }

  // That the first fill fits the ring is exactly what it takes; otherwise the load has
  // already dropped bytes.
  lemma PlaybackIsFifoIff(f: Format, s: Stream, w: Wave)
    requires Consistent(s) && s.ring.None?
    ensures (forall events :: (forall e :: e in events ==> Streaming(e)) ==>
               Delivers(Run(f, Loaded(f, s, w), events), w)) <==> FirstFits(f, w, 0)
  {
    if FirstFits(f, w, 0) {
      forall events | forall e :: e in events ==> Streaming(e) ensures Delivers(Run(f, Loaded(f, s, w), events), w) {
        PlaybackIsFifo(f, s, w, events);
      }
    } else {
      LoadDrops(f, s, w);
      assert !Delivers(Run(f, Loaded(f, s, w), []), w);
    }
  }

  lemma LoadDrops(f: Format, s: Stream, w: Wave)
    requires Consistent(s) && s.ring.None? && !FirstFits(f, w, 0)
    ensures |Loaded(f, s, w).ring.value| == CAPACITY < Loaded(f, s, w).cursor <= |w.data|
  {
  }

  // A wave that is not faster than the card fits; one of 48 kHz on a card of 44.1 kHz
  // does not if it is long enough.
  lemma SlowWavesFit(f: Format, w: Wave, cursor: nat)
    requires w.rate <= f.rate && cursor <= |w.data|
    ensures FirstFits(f, w, cursor)
  {
    SlowIsRoomy(f, w);
  }

  lemma FastWavesDoNotFit(f: Format, w: Wave)
    requires f.rate == 44100 && w.rate == 48000 && w.channels == 2
    ensures Wanted(f, w, CAPACITY - 1) == 285324
    ensures FirstFits(f, w, 0) <==> |w.data| <= CAPACITY
  {
  }

  // After a seek the same holds from the byte that the seek went to.
  lemma SeekRestartsFifo(f: Format, s: Stream, ms: nat, events: seq<Event>)
    requires Consistent(s) && s.ring.Some? && CanSeek(f, s, ms)
    requires FirstFits(f, s.wave.value, SoughtByte(s, ms))
    requires forall e :: e in events ==> Streaming(e)
    ensures var w, start := s.wave.value, SoughtByte(s, ms);
            var r := Run(f, AfterSeek(f, s, ms), events);
            r.stream.ring.Some? && start <= r.stream.cursor <= |w.data|
            && r.bytes + r.stream.ring.value == w.data[start..r.stream.cursor]
  {
    SeekHolds(f, s, ms);
    FifoFrom(f, AfterSeek(f, s, ms), SoughtByte(s, ms), events);
  }

  function SoughtByte(s: Stream, ms: nat): (n: nat)
    requires s.wave.Some?
    ensures SeekFrame(s.wave.value, ms) <= Blocks(s.wave.value, |s.wave.value.data|) ==> n <= |s.wave.value.data|
  {
    BlockBytes(s.wave.value, SeekFrame(s.wave.value, ms))
  }

  lemma SeekHolds(f: Format, s: Stream, ms: nat)
    requires Consistent(s) && s.ring.Some? && CanSeek(f, s, ms) && FirstFits(f, s.wave.value, SoughtByte(s, ms))
    ensures var t := AfterSeek(f, s, ms);
      && Consistent(t) && t.wave == s.wave && HoldsFrom(t, SoughtByte(s, ms))
      && Roomy(f, s.wave.value, t.cursor)
  {
    FillHolds(f, s.(offset := SeekFrame(s.wave.value, ms), pos := 0, cursor := SoughtByte(s, ms), eof := false,
                    ring := Some([])));
  }

  // ----- The position counts the frames taken -------------------------------

  // A stereo stream that only ever moves whole frames.
  predicate Aligned(f: Format, s: Stream) {
    && s.ring.Some? && s.wave.Some? && s.wave.value.channels == 2
    && |s.wave.value.data| % 4 == 0 && s.cursor % 4 == 0 && |s.ring.value| % 4 == 0
    && Period(f, s.wave.value) % 4 == 0
  }

  // A fill moves the cursor by what it asked for, or to the end of the file.
  lemma FillMoves(f: Format, s: Stream)
    requires Consistent(s) && s.ring.Some?
    ensures var t, free := Fill(f, s), CAPACITY - |s.ring.value| - 1;
      && t.pos == s.pos && t.offset == s.offset && t.playing == s.playing && t.stopping == s.stopping
      && (t.cursor == s.cursor || t.cursor == |s.wave.value.data|
          || (free > 0 && t.cursor == s.cursor + Wanted(f, s.wave.value, free)))
  {
  }

  lemma WantedAligned(f: Format, w: Wave, free: nat)
    requires w.channels == 2
    ensures Wanted(f, w, free) % 4 == 0
  {
    assert Wanted(f, w, free) == 4 * (Scaled(free, w.rate, f.rate) / 4);
  }

  lemma CursorAligned(f: Format, s: Stream)
    requires Consistent(s) && Aligned(f, s)
    ensures Fill(f, s).cursor % 4 == 0 && Fill(f, s).pos == s.pos && Fill(f, s).offset == s.offset
  {
    FillMoves(f, s);
    var free := CAPACITY - |s.ring.value| - 1;
    if free > 0 {
      WantedAligned(f, s.wave.value, free);
      MoveAligned(s.cursor, |s.wave.value.data|, Wanted(f, s.wave.value, free), Fill(f, s).cursor);
    }
  }

  lemma MoveAligned(c0: nat, end: nat, wanted: nat, c1: nat)
    requires c0 % 4 == 0 && end % 4 == 0 && wanted % 4 == 0 && (c1 == c0 || c1 == end || c1 == c0 + wanted)
    ensures c1 % 4 == 0
  {
  }

  lemma FillAligned(f: Format, s: Stream)
    requires Consistent(s) && Aligned(f, s) && FillFits(f, s)
    ensures Aligned(f, Fill(f, s)) && Fill(f, s).pos == s.pos && Fill(f, s).offset == s.offset
  {
    CursorAligned(f, s);
    FillAppends(f, s);
    GrowsAligned(f, s, Fill(f, s));
  }

  lemma GrowsAligned(f: Format, s: Stream, t: Stream)
    requires Aligned(f, s) && t.wave == s.wave && t.ring.Some? && s.cursor <= t.cursor && t.cursor % 4 == 0
    requires t.cursor <= |s.wave.value.data|
    requires t.ring.value == s.ring.value + s.wave.value.data[s.cursor..t.cursor]
    ensures Aligned(f, t)
  {
  }

  lemma RoundAligned(ring: seq<Byte>, period: nat)
    requires |ring| % 4 == 0 && period % 4 == 0
    ensures |Taken(ring, period)| % 4 == 0 && |Left(ring, period)| % 4 == 0
    ensures |Taken(ring, period)| == |Taken(ring, period)| / 4 * 4
  {
  }

  lemma StepCounts(f: Format, s: Stream, e: Event)
    requires Consistent(s) && Aligned(f, s) && Roomy(f, s.wave.value, s.cursor) && Streaming(e)
    ensures var o := Step(f, s, e);
            && Aligned(f, o.stream) && Roomy(f, s.wave.value, o.stream.cursor) && o.stream.wave == s.wave
            && o.stream.offset == s.offset
            && 4 * o.stream.pos == 4 * s.pos + |o.bytes|
  {
    var s1 := if s.stopping then s.(stopping := false, eof := false, playing := false) else s;
    if e.Tick? && s1.playing {
      RoomyFits(f, s1);
      FillAligned(f, s1);
    }
    if e.Round? && s.playing {
      RoundAligned(s.ring.value, Period(f, s.wave.value));
    }
  }

  lemma {:induction false} RunCounts(f: Format, s: Stream, events: seq<Event>)
    requires Consistent(s) && Aligned(f, s) && Roomy(f, s.wave.value, s.cursor)
    requires forall e :: e in events ==> Streaming(e)
    ensures var r := Run(f, s, events);
            && Aligned(f, r.stream) && r.stream.offset == s.offset
            && 4 * r.stream.pos == 4 * s.pos + |r.bytes|
    decreases |events|
  {
    if events != [] {
      StepCounts(f, s, events[0]);
      RunCounts(f, Step(f, s, events[0]).stream, events[1..]);
    }
  }

  // The frame reported and the frames in the ring make up the frames of the file before
  // the cursor.
  predicate Accounts(t: Stream) {
    && t.ring.Some? && t.offset + t.pos + |t.ring.value| / 4 == t.cursor / 4
    && |t.ring.value| % 4 == 0 && t.cursor % 4 == 0
  }

  lemma CountsAccount(t: Stream, start: nat, got: nat)
    requires t.ring.Some? && |t.ring.value| % 4 == 0 && t.cursor % 4 == 0
    requires 4 * t.offset == start && 4 * t.pos == got && got + |t.ring.value| == t.cursor - start
    ensures Accounts(t)
  {
  }

  // The position reported is the whole milliseconds of the bytes before the cursor that
  // are not in the ring any more, four to a frame.
  ghost predicate InTime(f: Format, t: Stream)
    requires Consistent(t) && t.ring.Some?
  {
    var rate, gone := t.wave.value.rate, t.cursor - |t.ring.value|;
    !f.exiting && rate > 0 ==>
      !StepFaults(f, t, Report) && 4 * Position(f, t) * rate <= 1000 * gone < 4 * (Position(f, t) + 1) * rate
  }

  lemma ReportsGone(f: Format, t: Stream)
    requires Consistent(t) && Accounts(t)
    ensures InTime(f, t)
  {
    var rate, frames := t.wave.value.rate, t.offset + t.pos;
    if !f.exiting && rate > 0 {
      Division(1000 * frames, rate);
      FourToAFrame(Position(f, t), rate, frames, t.cursor - |t.ring.value|);
    }
  }

  lemma FourToAFrame(p: nat, rate: nat, frames: nat, gone: nat)
    requires p * rate <= 1000 * frames < p * rate + rate && 4 * frames == gone
    ensures 4 * p * rate <= 1000 * gone < 4 * (p + 1) * rate
  {
    assert 4 * p * rate == 4 * (p * rate) && 4 * (p + 1) * rate == 4 * (p * rate) + 4 * rate;
  }

  // After a load, in any streaming run.
  lemma PositionIsFilledMinusHeld(f: Format, s: Stream, w: Wave, events: seq<Event>)
    requires Consistent(s) && s.ring.None? && FirstFits(f, w, 0) && w.channels == 2
    requires |w.data| % 4 == 0 && Period(f, w) % 4 == 0
    requires forall e :: e in events ==> Streaming(e)
    ensures var t := Run(f, Loaded(f, s, w), events).stream; Accounts(t) && t.offset == 0 && InTime(f, t)
  {
    var s0 := Stream(Some([]), Some(w), 0, s.playing, false, false, 0, 0, s.timer);
    FirstIsRoomy(f, s0);
    FillAligned(f, s0);
    RunCounts(f, Fill(f, s0), events);
    PlaybackIsFifo(f, s, w, events);
    var r := Run(f, Fill(f, s0), events);
    assert |r.bytes| + |r.stream.ring.value| == r.stream.cursor;
    CountsAccount(r.stream, 0, |r.bytes|);
    ReportsGone(f, r.stream);
  }

  // And after a seek, with the frame that it went to.
  lemma PositionAfterSeek(f: Format, s: Stream, ms: nat, events: seq<Event>)
    requires Consistent(s) && s.ring.Some? && s.wave.value.channels == 2
    requires |s.wave.value.data| % 4 == 0 && Period(f, s.wave.value) % 4 == 0 && CanSeek(f, s, ms)
    requires FirstFits(f, s.wave.value, SoughtByte(s, ms))
    requires forall e :: e in events ==> Streaming(e)
    ensures var t := Run(f, AfterSeek(f, s, ms), events).stream;
            Accounts(t) && t.offset == SeekFrame(s.wave.value, ms) && InTime(f, t)
  {
    SeekAligned(f, s, ms);
    RunCounts(f, AfterSeek(f, s, ms), events);
    SeekRestartsFifo(f, s, ms, events);
    var r := Run(f, AfterSeek(f, s, ms), events);
    var start := BlockBytes(s.wave.value, SeekFrame(s.wave.value, ms));
    assert |r.bytes| + |r.stream.ring.value| == r.stream.cursor - start;
    CountsAccount(r.stream, start, |r.bytes|);
    ReportsGone(f, r.stream);
  }

  lemma SeekAligned(f: Format, s: Stream, ms: nat)
    requires Consistent(s) && s.ring.Some? && s.wave.value.channels == 2
    requires |s.wave.value.data| % 4 == 0 && Period(f, s.wave.value) % 4 == 0 && CanSeek(f, s, ms)
    requires FirstFits(f, s.wave.value, SoughtByte(s, ms))
    ensures var t := AfterSeek(f, s, ms);
      && Consistent(t) && Aligned(f, t) && t.pos == 0 && t.offset == SeekFrame(s.wave.value, ms)
      && Roomy(f, s.wave.value, t.cursor)
  {
    SeekHolds(f, s, ms);
    SoughtAligned(f, s, SeekFrame(s.wave.value, ms));
  }

  lemma SoughtAligned(f: Format, s: Stream, frame: nat)
    requires Consistent(s) && s.ring.Some? && s.wave.value.channels == 2
    requires |s.wave.value.data| % 4 == 0 && Period(f, s.wave.value) % 4 == 0 && 4 * frame <= |s.wave.value.data|
    requires FirstFits(f, s.wave.value, 4 * frame)
    ensures var t := s.(offset := frame, pos := 0, cursor := 4 * frame, eof := false, ring := Some([]));
            && Consistent(t) && Aligned(f, Fill(f, t)) && Fill(f, t).pos == 0 && Fill(f, t).offset == frame
  {
    var t := s.(offset := frame, pos := 0, cursor := 4 * frame, eof := false, ring := Some([]));
    FirstIsRoomy(f, t);
    MoveAligned(0, 0, 4 * frame, 4 * frame);
    assert Aligned(f, t);
    FillAligned(f, t);
  }

  // ----- End of stream -------------------------------------------------------------

  // End-of-file is only noted once the whole file has been read.
  predicate EofAtEnd(s: Stream) {
    s.ring.Some? && s.wave.Some? && s.eof ==> s.cursor == |s.wave.value.data|
  }

  lemma {:induction false} RunKeepsEof(f: Format, s: Stream, events: seq<Event>)
    requires Consistent(s) && EofAtEnd(s)
    ensures EofAtEnd(Run(f, s, events).stream)
    decreases |events|
  {
    if events != [] {
      RunKeepsEof(f, Step(f, s, events[0]).stream, events[1..]);
    }
  }

  // The callback raises the stop flag by itself only when every byte of the file has
  // left the ring.
  lemma StopsOnlyWhenDelivered(f: Format, s: Stream, w: Wave, events: seq<Event>)
    requires Consistent(s) && s.ring.None? && FirstFits(f, w, 0) && Period(f, w) >= 4
    requires forall e :: e in events ==> Streaming(e)
    ensures var r := Run(f, Loaded(f, s, w), events);
            !r.stream.stopping && AfterRound(f, r.stream).stopping
            ==> r.bytes + RoundBytes(f, r.stream) == w.data
  {
    RunKeepsEof(f, Loaded(f, s, w), events);
    PlaybackIsFifo(f, s, w, events);
    var r := Run(f, Loaded(f, s, w), events);
    if !r.stream.stopping && AfterRound(f, r.stream).stopping {
      assert RoundBytes(f, r.stream) == r.stream.ring.value;
      assert w.data[..r.stream.cursor] == w.data;
    }
  }

  function Rounds(events: seq<Event>): nat {
    if events == [] then 0 else (if events[0].Round? then 1 else 0) + Rounds(events[1..])
  }

  // Rounds needed to notice that r buffered bytes have run out.
  function RoundsToEnd(r: nat, period: nat): nat
    requires period > 0
  {
    (r + period - 1) / period + 1
  }

  predicate Service(e: Event) {
    e.Tick? || e.Round? || e.Report?
  }

  // A finished stream stays silent.
  lemma {:induction false} SilentWhenDone(f: Format, s: Stream, events: seq<Event>)
    requires Consistent(s) && !s.playing && !s.stopping && forall e :: e in events ==> Service(e)
    ensures var r := Run(f, s, events); r.notes == [] && !r.stream.playing
    decreases |events|
  {
    if events != [] {
      assert Service(events[0]);
      SilentWhenDone(f, Step(f, s, events[0]).stream, events[1..]);
    }
  }

  lemma {:induction false} StopsOnceFlagged(f: Format, s: Stream, events: seq<Event>)
    requires Consistent(s) && s.playing && s.stopping && forall e :: e in events ==> Service(e)
    requires events != [] && events[|events| - 1].Tick?
    ensures var r := Run(f, s, events); r.notes == [Stopped] && !r.stream.playing
    decreases |events|
  {
    var t := Step(f, s, events[0]).stream;
    assert Service(events[0]);
    if events[0].Tick? {
      SilentWhenDone(f, t, events[1..]);
    } else {
      StopsOnceFlagged(f, t, events[1..]);
    }
  }

  lemma AddDivisor(x: nat, d: nat)
    requires d > 0
    ensures (x + d) / d == x / d + 1
  {
    var q, m := x / d, x % d;
    assert x + d == (q + 1) * d + m;
    Quotient(x + d, d, q + 1, m);
  }

  lemma Quotient(x: nat, d: nat, q: nat, m: nat)
    requires x == q * d + m && m < d
    ensures x / d == q
  {
    var q1, m1 := x / d, x % d;
    assert (q1 - q) * d == m - m1;
    if q1 > q {
      Cancel(1, q1 - q, d);
    } else if q1 < q {
      Cancel(1, q - q1, d);
    }
  }

  lemma DrainPeriod(r: nat, period: nat)
    requires period >= 4
    ensures r >= 4 ==> RoundsToEnd(r, period) >= 1 + RoundsToEnd(r - Min(period, r), period)
    ensures RoundsToEnd(r, period) >= 1
  {
    if r >= 4 {
      AddDivisor(r - 1, period);
      assert (r - 1) + period == r + period - 1;
      if r >= period {
        assert (r - period) + period - 1 == r - 1;
      } else {
        Quotient(period - 1, period, 0, period - 1);
        assert RoundsToEnd(0, period) == 1;
      }
    }
  }

  // Once the file has been read and r bytes are buffered, any mixture of services with
  // enough callback rounds announces exactly one stop, and the stream is stopped.
  lemma {:induction false} EndsExactlyOnce(f: Format, s: Stream, events: seq<Event>)
    requires Consistent(s) && s.playing && !s.stopping && s.eof && EofAtEnd(s)
    requires Period(f, s.wave.value) >= 4
    requires forall e :: e in events ==> Service(e)
    requires events != [] && events[|events| - 1].Tick?
    requires Rounds(events) >= RoundsToEnd(|s.ring.value|, Period(f, s.wave.value))
    ensures var r := Run(f, s, events); r.notes == [Stopped] && !r.stream.playing
    decreases |events|
  {
    var t := Step(f, s, events[0]).stream;
    assert Service(events[0]);
    DrainPeriod(|s.ring.value|, Period(f, s.wave.value));
    assert |events| > 1 by {
      assert Rounds(events) == (if events[0].Round? then 1 else 0) + Rounds(events[1..]);
    }
    if t.stopping {
      StopsOnceFlagged(f, t, events[1..]);
    } else {
      EndsExactlyOnce(f, t, events[1..]);
    }
  }

  // ----- Announcements alternate ---------------------------------------------------

  predicate NoDoublePlay(notes: seq<Note>) {
    forall i :: 0 <= i < |notes| - 1 && notes[i].Playing? ==> !notes[i + 1].Playing?
  }

  // The notes of a stretch in which a stream that plays, or does not, comes to play or not.
  predicate Alternates(playing: bool, notes: seq<Note>, playing1: bool) {
    && NoDoublePlay(notes)
    && (playing && notes != [] ==> !notes[0].Playing?)
    && playing1 == if notes == [] then playing else notes[|notes| - 1].Playing?
  }

  // Whatever happens to a stream, two announcements that it plays are separated by one
  // that it stopped, or by an unload; and it plays exactly when that was said last.
  lemma {:induction false} PlayAndStopAlternate(f: Format, s: Stream, events: seq<Event>)
    requires Consistent(s)
    ensures Alternates(s.playing, Run(f, s, events).notes, Run(f, s, events).stream.playing)
    decreases |events|
  {
    if events != [] {
      StepAlternates(f, s, events[0]);
      var o := Step(f, s, events[0]);
      PlayAndStopAlternate(f, o.stream, events[1..]);
      var r := Run(f, o.stream, events[1..]);
      JoinAlternates(s.playing, o.notes, o.stream.playing, r.notes, r.stream.playing);
    }
  }

  lemma StepAlternates(f: Format, s: Stream, e: Event)
    requires Consistent(s)
    ensures var o := Step(f, s, e);
            Consistent(o.stream) && |o.notes| <= 1 && Alternates(s.playing, o.notes, o.stream.playing)
  {
  }

  lemma JoinAlternates(p0: bool, a: seq<Note>, p1: bool, b: seq<Note>, p2: bool)
    requires Alternates(p0, a, p1) && Alternates(p1, b, p2)
    ensures Alternates(p0, a + b, p2)
  {
    var c := a + b;
    forall i | 0 <= i < |c| - 1 && c[i].Playing?
      ensures !c[i + 1].Playing?
    {
      if i >= |a| {
        assert c[i] == b[i - |a|] && c[i + 1] == b[i - |a| + 1];
      }
    }
  }
}
