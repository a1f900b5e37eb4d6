// One record port of the ALSA driver (cae/driver_alsa.cpp): captured audio goes
// through a ring into a wave file.
module AlsaCapture {
  import opened Wrappers
  import opened Arithmetic
  import opened RingBuffer
  import opened AlsaStream

  datatype Port = Port(
    ring: Option<seq<Byte>>,
    channels: nat,
    written: seq<Byte>,
    recording: bool,
    ready: bool,
    samples: nat,
    timer: bool)

  const UNUSED := Port(None, 1, [], false, false, 0, false)

  predicate PortConsistent(p: Port) {
    && 1 <= p.channels <= 2
    && (p.ring.Some? ==> |p.ring.value| <= CAPACITY)
    && (p.ring.Some? <==> p.ready)
    && (p.recording ==> p.ready)
    && (p.ring.None? ==> p.samples == 0)
  }

  function FrameBytes(p: Port): nat {
    2 * p.channels
  }

  // The whole frames in n bytes.
  function FramesIn(p: Port, n: nat): nat
    requires 1 <= p.channels <= 2
  {
    if p.channels == 1 then n / 2 else n / 4
  }

  lemma FramesAreWhole(p: Port, n: nat)
    requires 1 <= p.channels <= 2
    ensures FramesIn(p, n) == n / FrameBytes(p)
  {
  }

  // loadRecord, once the wave file has been created.
  function AfterLoadRecord(p: Port, channels: nat): (q: Port)
    ensures PortConsistent(p) && 1 <= channels <= 2 ==> PortConsistent(q)
  {
    p.(ring := Some([]), channels := channels, written := [], ready := true)
  }

  // EmptyAlsaInputStream and WriteAlsaBuffer: the whole ring goes to the file.
  function Filed(p: Port): Port
    requires p.ring.Some? && 1 <= p.channels <= 2
  {
    p.(ring := Some([]), written := p.written + p.ring.value, samples := p.samples + FramesIn(p, |p.ring.value|))
  }

  function Emptied(p: Port): Port
    requires PortConsistent(p) && p.ring.Some?
  {
    Filed(p)
  }

  function AfterUnloadRecord(p: Port): (q: Port)
    requires PortConsistent(p) && p.ring.Some?
    ensures PortConsistent(q)
  {
    Emptied(p).(ring := None, recording := false, ready := false, samples := 0)
  }

  function RecordedLength(p: Port): nat
    requires PortConsistent(p) && p.ring.Some?
  {
    Emptied(p).samples
  }

  function AfterRecord(p: Port, length: int): (q: Port)
    requires p.ready
    ensures PortConsistent(p) ==> PortConsistent(q)
  {
    p.(recording := true, timer := p.timer || length > 0)
  }

  // One round of the capture callback brings the bytes of whole frames.
  function AfterCapture(p: Port, data: seq<Byte>, muted: bool): (q: Port)
    requires PortConsistent(p)
    ensures PortConsistent(q)
  {
    if p.recording && !muted then p.(ring := Some(Stored(p.ring.value, CAPACITY, data))) else p
  }

  datatype CaptureEvent = Start(length: int) | StopRecording | RecordTimer | Service | Capture(data: seq<Byte>,
      muted: bool)

  function CaptureStep(p: Port, e: CaptureEvent): (q: Port)
    requires PortConsistent(p)
    ensures PortConsistent(q)
  {
    match e
    case Start(length) => if p.ready then AfterRecord(p, length) else p
    case StopRecording => p.(recording := false)
    case RecordTimer => if p.timer then p.(timer := false, recording := false) else p
    case Service => if p.recording then Emptied(p) else p
    case Capture(data, muted) => AfterCapture(p, data, muted)
  }

  function CaptureRun(p: Port, events: seq<CaptureEvent>): (r: Port)
    requires PortConsistent(p)
    ensures PortConsistent(r)
    decreases |events|
  {
    if events == [] then p
    else
      CaptureRun(CaptureStep(p, events[0]), events[1..])
  }

  // The bytes that the callback brings while the port records.
  function Captured(p: Port, events: seq<CaptureEvent>): seq<Byte>
    requires PortConsistent(p)
    decreases |events|
  {
    if events == [] then []
    else
      Brought(p, events[0]) + Captured(CaptureStep(p, events[0]), events[1..])
  }

  function Brought(p: Port, e: CaptureEvent): seq<Byte> {
    if e.Capture? && p.recording && !e.muted then e.data else []
  }

  // Every capture brings whole frames and finds room for them.
  ghost predicate Fits(p: Port, events: seq<CaptureEvent>)
    requires PortConsistent(p)
    decreases |events|
  {
    events == [] ||
    (&& |Brought(p, events[0])| % FrameBytes(p) == 0
     && (p.ring.Some? ==> |p.ring.value| + |Brought(p, events[0])| <= CAPACITY)
     && Fits(CaptureStep(p, events[0]), events[1..]))
  }

  // The file and ring hold the bytes x in order, and the counter the frames filed.
  predicate Holds(p: Port, x: seq<Byte>) {
    && p.ring.Some? && p.channels >= 1
    && p.written + p.ring.value == x
    && |p.ring.value| % FrameBytes(p) == 0 && |p.written| % FrameBytes(p) == 0
    && p.samples == |p.written| / FrameBytes(p)
  }

  lemma Frames(a: nat, b: nat, d: nat)
    requires d == 2 || d == 4
    requires a % d == 0 && b % d == 0
    ensures (a + b) % d == 0 && (a + b) / d == a / d + b / d
  {
  }

  lemma StepHolds(p: Port, e: CaptureEvent, x: seq<Byte>)
    requires PortConsistent(p) && Holds(p, x) && |Brought(p, e)| % FrameBytes(p) == 0
    requires |p.ring.value| + |Brought(p, e)| <= CAPACITY
    ensures CaptureStep(p, e).ready && Holds(CaptureStep(p, e), x + Brought(p, e)) &&
        CaptureStep(p, e).channels == p.channels
  {
    var b := Brought(p, e);
    Frames(|p.written|, |p.ring.value|, FrameBytes(p));
    FramesAreWhole(p, |p.ring.value|);
    Frames(|p.ring.value|, |b|, FrameBytes(p));
    assert p.written + (p.ring.value + b) == x + b;
    assert b == [] ==> x + b == x;
    assert p.written + p.ring.value + [] == p.written + p.ring.value;
  }

  lemma {:induction false} RunHolds(p: Port, events: seq<CaptureEvent>, x: seq<Byte>)
    requires PortConsistent(p) && Holds(p, x) && Fits(p, events)
    ensures Holds(CaptureRun(p, events), x + Captured(p, events)) && CaptureRun(p, events).channels == p.channels
    decreases |events|
  {
    if events == [] {
      assert x + [] == x;
    } else {
      var q := CaptureStep(p, events[0]);
      StepHolds(p, events[0], x);
      RunHolds(q, events[1..], x + Brought(p, events[0]));
      assert x + Brought(p, events[0]) + Captured(q, events[1..]) == x + Captured(p, events);
    }
  }

  // From load to unload nothing captured is lost or reordered, and the length
  // reported at the unload is the number of frames captured.
  lemma RecordingConservesFrames(p: Port, channels: nat, events: seq<CaptureEvent>)
    requires PortConsistent(p) && p.ring.None? && !p.recording && 1 <= channels <= 2
    requires PortConsistent(AfterLoadRecord(p, channels)) && Fits(AfterLoadRecord(p, channels), events)
    ensures var p0 := AfterLoadRecord(p, channels);
            var q := CaptureRun(p0, events);
            && q.ring.Some?
            && q.written + q.ring.value == Captured(p0, events)
            && q.samples + |q.ring.value| / (2 * channels) == |Captured(p0, events)| / (2 * channels)
            && AfterUnloadRecord(q).written == Captured(p0, events)
            && RecordedLength(q) == |Captured(p0, events)| / (2 * channels)
            && |Captured(p0, events)| % (2 * channels) == 0
  {
    var p0 := AfterLoadRecord(p, channels);
    RunHolds(p0, events, []);
    assert [] + Captured(p0, events) == Captured(p0, events);
    var q := CaptureRun(p0, events);
    Frames(|q.written|, |q.ring.value|, FrameBytes(q));
    FramesAreWhole(q, |q.ring.value|);
  }

  // What file and ring hold.
  function Recorded(p: Port): seq<Byte>
    requires p.ring.Some?
  {
    p.written + p.ring.value
  }

  // Every capture finds room in the ring.
  predicate Room(p: Port, events: seq<CaptureEvent>)
    requires PortConsistent(p) && p.ring.Some?
    decreases |events|
  {
    events == [] ||
    (|p.ring.value| + |Brought(p, events[0])| <= CAPACITY && Room(CaptureStep(p, events[0]), events[1..]))
  }

  lemma StepKeeps(p: Port, e: CaptureEvent)
    requires PortConsistent(p) && p.ring.Some?
    ensures var q := CaptureStep(p, e);
      && PortConsistent(q) && q.ring.Some?
      && (if |p.ring.value| + |Brought(p, e)| <= CAPACITY then Recorded(q) == Recorded(p) + Brought(p, e)
          else |Recorded(q)| < |Recorded(p)| + |Brought(p, e)|)
  {
    assert p.written + (p.ring.value + Brought(p, e)) == Recorded(p) + Brought(p, e);
    assert Recorded(p) + [] == Recorded(p);
  }

  // A byte that is dropped is never made up for.
  lemma {:induction false} RunKeeps(p: Port, events: seq<CaptureEvent>)
    requires PortConsistent(p) && p.ring.Some?
    ensures var q, x := CaptureRun(p, events), Captured(p, events);
      && q.ring.Some?
      && (if Room(p, events) then Recorded(q) == Recorded(p) + x else |Recorded(q)| < |Recorded(p)| + |x|)
    decreases |events|
  {
    if events == [] {
      assert Recorded(p) + [] == Recorded(p);
    } else {
      var q := CaptureStep(p, events[0]);
      StepKeeps(p, events[0]);
      RunKeeps(q, events[1..]);
      assert Recorded(p) + Brought(p, events[0]) + Captured(q, events[1..]) ==
             Recorded(p) + (Brought(p, events[0]) + Captured(q, events[1..]));
    }
  }

  // Nothing captured is lost or reordered if and only if every capture finds room.
  lemma RecordingKeepsAllIff(p: Port, events: seq<CaptureEvent>)
    requires PortConsistent(p) && p.ring.Some?
    ensures CaptureRun(p, events).ring.Some?
    ensures Recorded(CaptureRun(p, events)) == Recorded(p) + Captured(p, events) <==> Room(p, events)
  {
    RunKeeps(p, events);
  }

  // ----- What is captured ------------------------------------------------------------

  // The data that the capture callback brings with the port not muted.
  function Unmuted(events: seq<CaptureEvent>): seq<Byte> {
    if events == [] then []
    else (if events[0].Capture? && !events[0].muted then events[0].data else []) + Unmuted(events[1..])
  }

  predicate OnlyCaptures(events: seq<CaptureEvent>) {
    forall i :: 0 <= i < |events| ==> events[i].Capture? || events[i].Service?
  }

  // While the port records all of it is captured, and otherwise nothing is.
  lemma {:induction false} CapturedWhileRecording(p: Port, events: seq<CaptureEvent>)
    requires PortConsistent(p) && OnlyCaptures(events)
    ensures Captured(p, events) == if p.recording then Unmuted(events) else []
    ensures CaptureRun(p, events).recording == p.recording
    decreases |events|
  {
    if events != [] {
      CapturedWhileRecording(CaptureStep(p, events[0]), events[1..]);
    }
  }

  lemma {:induction false} CapturedParts(p: Port, a: seq<CaptureEvent>, b: seq<CaptureEvent>)
    requires PortConsistent(p)
    ensures CaptureRun(p, a + b) == CaptureRun(CaptureRun(p, a), b)
    ensures Captured(p, a + b) == Captured(p, a) + Captured(CaptureRun(p, a), b)
    decreases |a|
  {
    if a == [] {
      assert a + b == b;
    } else {
      assert (a + b)[1..] == a[1..] + b;
      CapturedParts(CaptureStep(p, a[0]), a[1..], b);
    }
  }

  // What is captured after a load is what came between the start and the stop.
  lemma CapturedFromStartToStop(p: Port, length: int, a: seq<CaptureEvent>, b: seq<CaptureEvent>,
      d: seq<CaptureEvent>)
    requires PortConsistent(p) && p.ring.Some? && !p.recording && OnlyCaptures(a) && OnlyCaptures(b) && OnlyCaptures(d)
    ensures Captured(p, a + ([Start(length)] + (b + ([StopRecording] + d)))) == Unmuted(b)
  {
    var p1 := CaptureRun(p, a);
    CapturedWhileRecording(p, a);
    CapturedParts(p, a, [Start(length)] + (b + ([StopRecording] + d)));
    StartsReady(p, a);
    StartOne(p1, Start(length), b + ([StopRecording] + d));
    var p2 := CaptureStep(p1, Start(length));
    CapturedWhileRecording(p2, b);
    CapturedParts(p2, b, [StopRecording] + d);
    var p3 := CaptureRun(p2, b);
    StartOne(p3, StopRecording, d);
    CapturedWhileRecording(CaptureStep(p3, StopRecording), d);
  }

  lemma StartOne(p: Port, e: CaptureEvent, events: seq<CaptureEvent>)
    requires PortConsistent(p) && !e.Capture?
    ensures Captured(p, [e] + events) == Captured(CaptureStep(p, e), events)
  {
    assert ([e] + events)[1..] == events;
  }

  lemma {:induction false} StartsReady(p: Port, events: seq<CaptureEvent>)
    requires PortConsistent(p) && p.ring.Some? && OnlyCaptures(events)
    ensures CaptureRun(p, events).ready
    decreases |events|
  {
    if events != [] {
      StartsReady(CaptureStep(p, events[0]), events[1..]);
    }
  }

  // A recording with a length ends when its timer fires, and one without goes on.
  lemma TimerEndsRecording(p: Port, length: int)
    requires PortConsistent(p) && p.ready && !p.timer
    ensures CaptureRun(p, [Start(length), RecordTimer]) == p.(recording := length <= 0)
  {
    assert [Start(length), RecordTimer][1..] == [RecordTimer] && [RecordTimer][1..] == [];
  }

  // ----- Services ----------------------------------------------------------------------

  // One service behind every callback.
  function Alternated(pieces: seq<seq<Byte>>): seq<CaptureEvent> {
    if pieces == [] then [] else [Capture(pieces[0], false), Service] + Alternated(pieces[1..])
  }

  function Joined(pieces: seq<seq<Byte>>): seq<Byte> {
    if pieces == [] then [] else pieces[0] + Joined(pieces[1..])
  }

  // A port that is serviced in time files everything: the services empty its ring, and
  // pieces up to the size of an empty ring, one byte less than 262144, find room in it.
  lemma {:induction false} ServedRecordingKeepsAll(p: Port, pieces: seq<seq<Byte>>)
    requires PortConsistent(p) && p.recording && p.ring == Some([])
    requires forall i :: 0 <= i < |pieces| ==> |pieces[i]| <= 262143
    ensures var q := CaptureRun(p, Alternated(pieces));
            q.recording && q.ring == Some([]) && q.written == p.written + Joined(pieces)
    decreases |pieces|
  {
    if pieces == [] {
      assert p.written + [] == p.written;
    } else {
      ServedPiece(p, pieces[0]);
      var e, later := [Capture(pieces[0], false), Service], Alternated(pieces[1..]);
      CapturedParts(p, e, later);
      ServedRecordingKeepsAll(CaptureRun(p, e), pieces[1..]);
      assert p.written + pieces[0] + Joined(pieces[1..]) == p.written + (pieces[0] + Joined(pieces[1..]));
    }
  }

  lemma ServedPiece(p: Port, piece: seq<Byte>)
    requires PortConsistent(p) && p.recording && p.ring == Some([]) && |piece| <= 262143
    ensures var q := CaptureRun(p, [Capture(piece, false), Service]);
            q.recording && q.ring == Some([]) && q.written == p.written + piece
  {
    var e := [Capture(piece, false), Service];
    var q := CaptureStep(p, e[0]);
    assert e[1..] == [Service] && [Service][1..] == [];
    assert q == p.(ring := Some(Stored([], CAPACITY, piece)));
    assert [] + piece[..|piece|] == piece && q.ring == Some(piece) && q.written == p.written;
    assert CaptureRun(p, e) == CaptureRun(q, [Service]) == CaptureStep(q, Service);
  }

  // ----- Encoding in chunks --------------------------------------------------------

  function Flatten(chunks: seq<seq<int>>): seq<int> {
    if chunks == [] then [] else chunks[0] + Flatten(chunks[1..])
  }

  lemma {:induction false} FlattenAppend(chunks: seq<seq<int>>, c: seq<int>)
    ensures Flatten(chunks + [c]) == Flatten(chunks) + c
  {
    if chunks == [] {
      assert [c][1..] == [];
    } else {
      assert (chunks + [c])[1..] == chunks[1..] + [c];
      FlattenAppend(chunks[1..], c);
    }
  }

  lemma ChunkBounds(i: nat, n: nat, frames: nat, channels: nat)
    requires i + n <= frames
    ensures 0 <= i * channels <= (i + n) * channels <= frames * channels
    ensures (i + n) * channels - i * channels == n * channels
  {
    AtMost(i, i + n, channels);
    AtMost(i + n, frames, channels);
  }

  const MPEG_FRAME: nat := 1152

  // The MPEG branch of WriteAlsaBuffer: the samples passed to the encoder call by call.
  method EncodeInChunks(buffer: seq<int>, channels: nat, frames: nat) returns (chunks: seq<seq<int>>)
    requires 1 <= channels <= 2 && frames * channels <= |buffer|
    ensures Flatten(chunks) == buffer[..frames * channels]
    ensures forall k :: 0 <= k < |chunks| ==> 0 < |chunks[k]| <= 1152 * channels
    ensures forall k :: 0 <= k < |chunks| - 1 ==> |chunks[k]| == 1152 * channels
  {
    chunks := [];
    var i := 0;
    while i < frames
      invariant i % MPEG_FRAME == 0
      invariant Flatten(chunks) == buffer[..Min(i, frames) * channels]
      invariant forall k :: 0 <= k < |chunks| ==> 0 < |chunks[k]| <= MPEG_FRAME * channels
      invariant forall k :: 0 <= k < |chunks| - 1 ==> |chunks[k]| == MPEG_FRAME * channels
      invariant i <= frames && chunks != [] ==> |chunks[|chunks| - 1]| == MPEG_FRAME * channels
      decreases frames - i
    {
      var n := if i + MPEG_FRAME > frames then frames - i else MPEG_FRAME;
      ChunkBounds(i, n, frames, channels);
      var chunk := buffer[i * channels..(i + n) * channels];
      FlattenAppend(chunks, chunk);
      chunks := chunks + [chunk];
      i := i + MPEG_FRAME;
    }
  }
}
