// The mixing of the JACK callback (JackProcess in cae/driver_jack.cpp), with samples and
// gains as reals.
module JackMixer {
  import opened Arithmetic

  // What the callback only reads: the numbers of ports, streams and frames, the input
  // samples by port, channel and frame, which ports are registered (outputs in pairs),
  // the gains from input to output and from stream to output, and the channels of the
  // streams.
  datatype Desk = Desk(
    ports: nat,
    streams: nat,
    frames: nat,
    input: (nat, nat, nat) -> real,
    inputPort: (nat, nat) -> bool,
    outputPort: nat -> bool,
    passthrough: (nat, nat) -> real,
    volume: (nat, nat) -> real,
    channels: nat -> nat)

  // ----- The mix -------------------------------------------------------------------

  // The sum of the inputs with a positive passthrough gain to output port j, over the
  // input ports below i.
  ghost function Passed(d: Desk, j: nat, k: nat, l: nat, i: nat): real {
    if i == 0 then 0.0 else Passed(d, j, k, l, i - 1) + PassedFrom(d, j, k, l, i - 1)
  }

  function PassedFrom(d: Desk, j: nat, k: nat, l: nat, i: nat): real {
    if d.passthrough(i, j) > 0.0 && d.inputPort(i, k) then d.input(i, k, l) * d.passthrough(i, j) else 0.0
  }

  // The frames that a stream gives, and its sample on a channel of an output.
  function FramesGot(d: Desk, s: nat, ring: seq<real>): nat {
    if d.channels(s) == 1 then Min(d.frames, |ring|) else Min(2 * d.frames, |ring|) / 2
  }

  function Wanted(d: Desk, s: nat): nat {
    if d.channels(s) == 1 then d.frames else 2 * d.frames
  }

  function Sample(d: Desk, s: nat, ring: seq<real>, k: nat, l: nat): real
    requires l < FramesGot(d, s, ring) && k < 2
  {
    if d.channels(s) == 1 then ring[l] else ring[2 * l + k]
  }

  // The sum of the streams that play with a positive gain on output port j, over the
  // streams below s; a stream adds nothing past what its ring holds.
  ghost function Mixed(d: Desk, rings: seq<seq<real>>, playing: seq<bool>, j: nat, k: nat, l: nat, s: nat): real
    requires s <= |rings| && s <= |playing| && k < 2
  {
    if s == 0 then 0.0
    else Mixed(d, rings, playing, j, k, l, s - 1) + if playing[s - 1] then Played(d, s - 1, rings[s - 1], j, k, l)
        else 0.0
  }

  function Played(d: Desk, s: nat, ring: seq<real>, j: nat, k: nat, l: nat): real
    requires k < 2
  {
    if d.volume(j, s) > 0.0 && l < FramesGot(d, s, ring) then d.volume(j, s) * Sample(d, s, ring, k, l) else 0.0
  }

  // ----- What is heard of one stream, of two, and of one input ------------------------

  // What a stream gives of its ring at a gain, on the left and on the right: nothing past
  // the last whole frame.
  predicate Gives(channels: nat, gain: real, ring: seq<real>, l: nat, left: real, right: real) {
    if channels == 1 then left == right == if l < |ring| then gain * ring[l] else 0.0
    else if 2 * l + 1 < |ring| then left == gain * ring[2 * l] && right == gain * ring[2 * l + 1]
    else left == right == 0.0
  }

  // The streams that play with a positive gain on output port j are those in heard, and
  // the inputs with a positive gain to it those in passed.
  ghost predicate Sources(d: Desk, playing: seq<bool>, j: nat, heard: set<nat>, passed: set<nat>) {
    && (forall s: nat :: s < d.streams && s < |playing| ==> (s in heard <==> playing[s] && d.volume(j, s) > 0.0))
    && (forall i: nat :: i < d.ports ==> (i in passed <==> d.passthrough(i, j) > 0.0))
  }

  // Left and right are the sums of what two streams give.
  ghost predicate Both(d: Desk, rings: seq<seq<real>>, j: nat, l: nat, s: nat, t: nat, left: real, right: real)
    requires s < |rings| && t < |rings|
  {
    forall a: real, b: real, x: real, y: real ::
      Gives(d.channels(s), d.volume(j, s), rings[s], l, a, b) &&
      Gives(d.channels(t), d.volume(j, t), rings[t], l, x, y)
      ==> left == a + x && right == b + y
  }

  // What the left and right samples of an output port are when one stream is heard, when
  // two are, when one input is passed through, and when there is no source.
  ghost predicate Sounds(d: Desk, rings: seq<seq<real>>, playing: seq<bool>, j: nat, l: nat, left: real, right: real) {
    && OneHeard(d, rings, playing, j, l, left, right)
    && TwoHeard(d, rings, playing, j, l, left, right)
    && OnePassed(d, playing, j, l, left, right)
    && (Sources(d, playing, j, {}, {}) ==> left == right == 0.0)
  }

  ghost predicate OneHeard(d: Desk, rings: seq<seq<real>>, playing: seq<bool>, j: nat, l: nat, left: real,
                           right: real)
  {
    forall s: nat :: s < |rings| && Sources(d, playing, j, {s}, {}) ==>
      Gives(d.channels(s), d.volume(j, s), rings[s], l, left, right)
  }

  ghost predicate TwoHeard(d: Desk, rings: seq<seq<real>>, playing: seq<bool>, j: nat, l: nat, left: real,
                           right: real)
  {
    forall s: nat, t: nat :: s < t < |rings| && Sources(d, playing, j, {s, t}, {}) ==>
      Both(d, rings, j, l, s, t, left, right)
  }

  ghost predicate OnePassed(d: Desk, playing: seq<bool>, j: nat, l: nat, left: real, right: real) {
    forall i: nat :: i < d.ports && Sources(d, playing, j, {}, {i}) ==>
      && left == (if d.inputPort(i, 0) then d.input(i, 0, l) * d.passthrough(i, j) else 0.0)
      && right == (if d.inputPort(i, 1) then d.input(i, 1, l) * d.passthrough(i, j) else 0.0)
  }

  lemma {:induction false} PassedSources(d: Desk, playing: seq<bool>, j: nat, k: nat, l: nat, heard: set<nat>,
      passed: set<nat>, n: nat)
    requires Sources(d, playing, j, heard, passed) && n <= d.ports && k < 2
    ensures passed == {} ==> Passed(d, j, k, l, n) == 0.0
    ensures forall i :: passed == {i} ==>
              Passed(d, j, k, l, n) == if i < n then PassedFrom(d, j, k, l, i) else 0.0
  {
    if n > 0 {
      PassedSources(d, playing, j, k, l, heard, passed, n - 1);
    }
  }

  lemma {:induction false} MixedSources(d: Desk, rings: seq<seq<real>>, playing: seq<bool>, j: nat, k: nat, l: nat,
      heard: set<nat>, passed: set<nat>, n: nat)
    requires Sources(d, playing, j, heard, passed) && n <= d.streams && n <= |rings| && n <= |playing| && k < 2
    ensures heard == {} ==> Mixed(d, rings, playing, j, k, l, n) == 0.0
    ensures forall s: nat :: s < |rings| && heard == {s} ==>
              Mixed(d, rings, playing, j, k, l, n) == if s < n then Played(d, s, rings[s], j, k, l) else 0.0
    ensures forall s: nat, t: nat :: s < t < |rings| && heard == {s, t} ==>
              Mixed(d, rings, playing, j, k, l, n) ==
              (if s < n then Played(d, s, rings[s], j, k, l) else 0.0) +
              (if t < n then Played(d, t, rings[t], j, k, l) else 0.0)
  {
    if n > 0 {
      MixedSources(d, rings, playing, j, k, l, heard, passed, n - 1);
    }
  }

  lemma PlayedGives(d: Desk, s: nat, ring: seq<real>, j: nat, l: nat)
    requires l < d.frames && d.volume(j, s) > 0.0 && (d.channels(s) == 1 || d.channels(s) == 2)
    ensures Gives(d.channels(s), d.volume(j, s), ring, l, Played(d, s, ring, j, 0, l), Played(d, s, ring, j, 1, l))
  {
  }

  // All that is passed through and all that is mixed.
  ghost function Sum(d: Desk, rings: seq<seq<real>>, playing: seq<bool>, j: nat, k: nat, l: nat): real
    requires |rings| == |playing| == d.streams && k < 2
  {
    Passed(d, j, k, l, d.ports) + Mixed(d, rings, playing, j, k, l, d.streams)
  }

  predicate Regular(d: Desk) {
    forall s: nat :: s < d.streams ==> d.channels(s) == 1 || d.channels(s) == 2
  }

  lemma OneStream(d: Desk, rings: seq<seq<real>>, playing: seq<bool>, j: nat, l: nat, s: nat)
    requires |rings| == |playing| == d.streams && l < d.frames && Regular(d) && s < d.streams
    requires Sources(d, playing, j, {s}, {})
    ensures Gives(d.channels(s), d.volume(j, s), rings[s], l,
                  Sum(d, rings, playing, j, 0, l), Sum(d, rings, playing, j, 1, l))
  {
    for k := 0 to 2
      invariant forall k1: nat :: k1 < k ==> Sum(d, rings, playing, j, k1, l) == Played(d, s, rings[s], j, k1, l)
    {
      PassedSources(d, playing, j, k, l, {s}, {}, d.ports);
      MixedSources(d, rings, playing, j, k, l, {s}, {}, d.streams);
    }
    PlayedGives(d, s, rings[s], j, l);
  }

  lemma TwoStreams(d: Desk, rings: seq<seq<real>>, playing: seq<bool>, j: nat, l: nat, s: nat, t: nat)
    requires |rings| == |playing| == d.streams && l < d.frames && Regular(d) && s < t < d.streams
    requires Sources(d, playing, j, {s, t}, {})
    ensures Both(d, rings, j, l, s, t, Sum(d, rings, playing, j, 0, l), Sum(d, rings, playing, j, 1, l))
  {
    for k := 0 to 2
      invariant forall k1: nat :: k1 < k ==> Sum(d, rings, playing, j, k1, l) ==
                                             Played(d, s, rings[s], j, k1, l) + Played(d, t, rings[t], j, k1, l)
    {
      PassedSources(d, playing, j, k, l, {s, t}, {}, d.ports);
      MixedSources(d, rings, playing, j, k, l, {s, t}, {}, d.streams);
    }
    PlayedGives(d, s, rings[s], j, l);
    PlayedGives(d, t, rings[t], j, l);
  }

  lemma OneInput(d: Desk, rings: seq<seq<real>>, playing: seq<bool>, j: nat, k: nat, l: nat, i: nat)
    requires |rings| == |playing| == d.streams && i < d.ports && k < 2 && Sources(d, playing, j, {}, {i})
    ensures Sum(d, rings, playing, j, k, l) ==
            if d.inputPort(i, k) then d.input(i, k, l) * d.passthrough(i, j) else 0.0
  {
    PassedSources(d, playing, j, k, l, {}, {i}, d.ports);
    MixedSources(d, rings, playing, j, k, l, {}, {i}, d.streams);
  }

  lemma MixSounds(d: Desk, rings: seq<seq<real>>, playing: seq<bool>, j: nat, l: nat)
    requires |rings| == |playing| == d.streams && l < d.frames && Regular(d)
    ensures Sounds(d, rings, playing, j, l, Sum(d, rings, playing, j, 0, l), Sum(d, rings, playing, j, 1, l))
  {
    OneSounds(d, rings, playing, j, l);
    TwoSound(d, rings, playing, j, l);
    InputSounds(d, rings, playing, j, l);
    if Sources(d, playing, j, {}, {}) {
      NoSource(d, rings, playing, j, 0, l);
      NoSource(d, rings, playing, j, 1, l);
    }
  }

  lemma NoSource(d: Desk, rings: seq<seq<real>>, playing: seq<bool>, j: nat, k: nat, l: nat)
    requires |rings| == |playing| == d.streams && k < 2 && Sources(d, playing, j, {}, {})
    ensures Sum(d, rings, playing, j, k, l) == 0.0
  {
    PassedSources(d, playing, j, k, l, {}, {}, d.ports);
    MixedSources(d, rings, playing, j, k, l, {}, {}, d.streams);
  }

  lemma OneSounds(d: Desk, rings: seq<seq<real>>, playing: seq<bool>, j: nat, l: nat)
    requires |rings| == |playing| == d.streams && l < d.frames && Regular(d)
    ensures OneHeard(d, rings, playing, j, l, Sum(d, rings, playing, j, 0, l), Sum(d, rings, playing, j, 1, l))
  {
    forall s: nat | s < |rings| && Sources(d, playing, j, {s}, {})
      ensures Gives(d.channels(s), d.volume(j, s), rings[s], l,
                    Sum(d, rings, playing, j, 0, l), Sum(d, rings, playing, j, 1, l))
    {
      OneStream(d, rings, playing, j, l, s);
    }
  }

  lemma TwoSound(d: Desk, rings: seq<seq<real>>, playing: seq<bool>, j: nat, l: nat)
    requires |rings| == |playing| == d.streams && l < d.frames && Regular(d)
    ensures TwoHeard(d, rings, playing, j, l, Sum(d, rings, playing, j, 0, l), Sum(d, rings, playing, j, 1, l))
  {
    forall s: nat, t: nat | s < t < |rings| && Sources(d, playing, j, {s, t}, {})
      ensures Both(d, rings, j, l, s, t, Sum(d, rings, playing, j, 0, l), Sum(d, rings, playing, j, 1, l))
    {
      TwoStreams(d, rings, playing, j, l, s, t);
    }
  }

  lemma InputSounds(d: Desk, rings: seq<seq<real>>, playing: seq<bool>, j: nat, l: nat)
    requires |rings| == |playing| == d.streams
    ensures OnePassed(d, playing, j, l, Sum(d, rings, playing, j, 0, l), Sum(d, rings, playing, j, 1, l))
  {
    var left, right := Sum(d, rings, playing, j, 0, l), Sum(d, rings, playing, j, 1, l);
    forall i: nat | i < d.ports && Sources(d, playing, j, {}, {i})
      ensures left == if d.inputPort(i, 0) then d.input(i, 0, l) * d.passthrough(i, j) else 0.0
      ensures right == if d.inputPort(i, 1) then d.input(i, 1, l) * d.passthrough(i, j) else 0.0
    {
      OneInput(d, rings, playing, j, 0, l, i);
      OneInput(d, rings, playing, j, 1, l, i);
    }
  }

  // A stream is heard when some registered output has it with a positive gain.
  ghost predicate Heard(d: Desk, s: nat, j: nat) {
    exists i :: 0 <= i < j && d.outputPort(i) && d.volume(i, s) > 0.0
  }

  class JackClient {
    const desk: Desk
    const output: array3<real>
    const callback: array<real>
    const rings: array<seq<real>>
    const playing: array<bool>
    const stopping: array<bool>
    const eof: array<bool>

    ghost predicate Valid() {
      && output.Length0 == desk.ports && output.Length1 == 2 && output.Length2 == desk.frames
      && callback.Length >= 2 * desk.frames
      && rings.Length == playing.Length == stopping.Length == eof.Length == desk.streams
      && playing != stopping && playing != eof && stopping != eof
      && Regular(desk)
    }

    constructor (d: Desk)
      requires Regular(d)
      ensures Valid() && desk == d
    {
      desk := d;
      output := new real[d.ports, 2, d.frames]((_, _, _) => 0.0);
      callback := new real[2 * d.frames](_ => 0.0);
      rings := new seq<real>[d.streams](_ => []);
      playing := new bool[d.streams](_ => false);
      stopping := new bool[d.streams](_ => false);
      eof := new bool[d.streams](_ => false);
    }

    // Only output port j, and there only channel k, may have changed.
    twostate predicate OnlyOutput(j: nat, k: nat)
      requires Valid()
      reads output
    {
      forall j1: nat, k1: nat, l1: nat :: j1 < desk.ports && k1 < 2 && l1 < desk.frames && (j1 != j || k1 != k) ==>
        output[j1, k1, l1] == old(output[j1, k1, l1])
    }

    twostate predicate OnlyPort(j: nat)
      requires Valid()
      reads output
    {
      forall j1: nat, k1: nat, l1: nat :: j1 < desk.ports && k1 < 2 && l1 < desk.frames && j1 != j ==>
        output[j1, k1, l1] == old(output[j1, k1, l1])
    }

    method ZeroChannel(j: nat, k: nat)
      requires Valid() && j < desk.ports && k < 2
      modifies output
      ensures OnlyOutput(j, k) && forall l: nat :: l < desk.frames ==> output[j, k, l] == 0.0
    {
      for n := 0 to desk.frames
        invariant OnlyOutput(j, k) && forall l: nat :: l < n ==> output[j, k, l] == 0.0
      {
        output[j, k, n] := 0.0;
      }
    }

    method ZeroOutputs()
      requires Valid()
      modifies output
      ensures forall j: nat, k: nat, l: nat :: j < desk.ports && k < 2 && l < desk.frames && desk.outputPort(j) ==>
          output[j, k, l] == 0.0
    {
      for i := 0 to desk.ports
        invariant forall j: nat, k: nat, l: nat :: j < i && k < 2 && l < desk.frames && desk.outputPort(j) ==>
            output[j, k, l] == 0.0
      {
        if desk.outputPort(i) {
          ZeroChannel(i, 0);
          ZeroChannel(i, 1);
        }
      }
    }

    // One input channel is added to one output channel.
    method AddInput(i: nat, j: nat, k: nat)
      requires Valid() && i < desk.ports && j < desk.ports && k < 2
      modifies output
      ensures OnlyOutput(j, k)
      ensures forall l: nat :: l < desk.frames ==>
        output[j, k, l] == old(output[j, k, l]) + desk.input(i, k, l) * desk.passthrough(i, j)
    {
      for n := 0 to desk.frames
        invariant OnlyOutput(j, k)
        invariant forall l: nat :: l < n ==>
            output[j, k, l] == old(output[j, k, l]) + desk.input(i, k, l) * desk.passthrough(i, j)
        invariant forall l: nat :: n <= l < desk.frames ==> output[j, k, l] == old(output[j, k, l])
      {
        output[j, k, n] := output[j, k, n] + desk.input(i, k, n) * desk.passthrough(i, j);
      }
    }

    method PassToPort(i: nat, j: nat)
      requires Valid() && i < desk.ports && j < desk.ports
      modifies output
      ensures OnlyPort(j)
      ensures desk.outputPort(j) ==> forall k: nat, l: nat :: k < 2 && l < desk.frames ==>
        output[j, k, l] == old(output[j, k, l]) + PassedFrom(desk, j, k, l, i)
    {
      if desk.passthrough(i, j) > 0.0 {
        if desk.outputPort(j) && desk.inputPort(i, 0) {
          AddInput(i, j, 0);
        }
        if desk.outputPort(j) && desk.inputPort(i, 1) {
          AddInput(i, j, 1);
        }
      }
    }

    method PassInput(i: nat)
      requires Valid() && i < desk.ports
      modifies output
      ensures forall j: nat, k: nat, l: nat :: j < desk.ports && k < 2 && l < desk.frames && desk.outputPort(j) ==>
        output[j, k, l] == old(output[j, k, l]) + PassedFrom(desk, j, k, l, i)
    {
      for n := 0 to desk.ports
        invariant forall j: nat, k: nat, l: nat :: j < n && k < 2 && l < desk.frames && desk.outputPort(j) ==>
          output[j, k, l] == old(output[j, k, l]) + PassedFrom(desk, j, k, l, i)
        invariant forall j: nat, k: nat, l: nat :: n <= j < desk.ports && k < 2 && l < desk.frames ==>
          output[j, k, l] == old(output[j, k, l])
      {
        PassToPort(i, n);
      }
    }

    method Passthroughs()
      requires Valid()
      requires forall j: nat, k: nat, l: nat :: j < desk.ports && k < 2 && l < desk.frames && desk.outputPort(j) ==>
          output[j, k, l] == 0.0
      modifies output
      ensures forall j: nat, k: nat, l: nat :: j < desk.ports && k < 2 && l < desk.frames && desk.outputPort(j) ==>
        output[j, k, l] == Passed(desk, j, k, l, desk.ports)
    {
      for i := 0 to desk.ports
        invariant forall j: nat, k: nat, l: nat :: j < desk.ports && k < 2 && l < desk.frames && desk.outputPort(j) ==>
          output[j, k, l] == Passed(desk, j, k, l, i)
      {
        PassInput(i);
      }
    }

    // The ring of a stream is read into the callback buffer.
    method ReadStream(s: nat) returns (n: nat)
      requires Valid() && s < desk.streams
      modifies callback, rings
      ensures Buffered(s, n, old(rings[s]))
      ensures rings[s] == old(rings[s])[Min(Wanted(desk, s), |old(rings[s])|)..]
      ensures forall t :: 0 <= t < desk.streams && t != s ==> rings[t] == old(rings[t])
    {
      var ring := rings[s];
      var got := Min(Wanted(desk, s), |ring|);
      forall m | 0 <= m < got {
        callback[m] := ring[m];
      }
      rings[s] := ring[got..];
      n := if desk.channels(s) == 1 then got else got / 2;
    }

    // A mono stream is added to both channels of an output port.
    method MixMono(s: nat, j: nat, n: nat, ghost ring: seq<real>)
      requires Valid() && s < desk.streams && j < desk.ports && desk.volume(j, s) > 0.0 && desk.channels(s) == 1
      requires n == FramesGot(desk, s, ring) && n <= desk.frames && forall l: nat :: l < n ==> callback[l] == ring[l]
      modifies output
      ensures OnlyPort(j)
      ensures forall k: nat, l: nat :: k < 2 && l < desk.frames ==>
        output[j, k, l] == old(output[j, k, l]) + Played(desk, s, ring, j, k, l)
    {
      for m := 0 to n
        invariant OnlyPort(j)
        invariant forall k: nat, l: nat :: k < 2 && l < m ==>
            output[j, k, l] == old(output[j, k, l]) + Played(desk, s, ring, j, k, l)
        invariant forall k: nat, l: nat :: k < 2 && m <= l < desk.frames ==> output[j, k, l] == old(output[j, k, l])
      {
        MixFrame(j, m, desk.volume(j, s) * callback[m], desk.volume(j, s) * callback[m]);
      }
    }

    // A stereo stream is added to an output port.
    method MixStereo(s: nat, j: nat, n: nat, ghost ring: seq<real>)
      requires Valid() && s < desk.streams && j < desk.ports && desk.volume(j, s) > 0.0 && desk.channels(s) == 2
      requires n == FramesGot(desk, s, ring) && n <= desk.frames
      requires forall l: nat :: l < n ==> callback[2 * l] == ring[2 * l] && callback[2 * l + 1] == ring[2 * l + 1]
      modifies output
      ensures OnlyPort(j)
      ensures forall k: nat, l: nat :: k < 2 && l < desk.frames ==>
        output[j, k, l] == old(output[j, k, l]) + Played(desk, s, ring, j, k, l)
    {
      for m := 0 to n
        invariant OnlyPort(j)
        invariant forall k: nat, l: nat :: k < 2 && l < m ==>
            output[j, k, l] == old(output[j, k, l]) + Played(desk, s, ring, j, k, l)
        invariant forall k: nat, l: nat :: k < 2 && m <= l < desk.frames ==> output[j, k, l] == old(output[j, k, l])
      {
        MixStereoFrame(s, j, m, n, ring);
      }
    }

    method MixStereoFrame(s: nat, j: nat, m: nat, n: nat, ghost ring: seq<real>)
      requires Valid() && s < desk.streams && j < desk.ports && desk.volume(j, s) > 0.0 && desk.channels(s) == 2
      requires m < n == FramesGot(desk, s, ring) && n <= desk.frames
      requires callback[2 * m] == ring[2 * m] && callback[2 * m + 1] == ring[2 * m + 1]
      modifies output
      ensures OnlyPort(j)
      ensures forall k: nat :: k < 2 ==> output[j, k, m] == old(output[j, k, m]) + Played(desk, s, ring, j, k, m)
      ensures forall k: nat, l: nat :: k < 2 && l < desk.frames && l != m ==>
        output[j, k, l] == old(output[j, k, l])
    {
      MixFrame(j, m, desk.volume(j, s) * callback[2 * m], desk.volume(j, s) * callback[2 * m + 1]);
    }

    method MixFrame(j: nat, l: nat, left: real, right: real)
      requires Valid() && j < desk.ports && l < desk.frames
      modifies output
      ensures OnlyPort(j)
      ensures output[j, 0, l] == old(output[j, 0, l]) + left && output[j, 1, l] == old(output[j, 1, l]) + right
      ensures forall k: nat, m: nat :: k < 2 && m < desk.frames && m != l ==>
        output[j, k, m] == old(output[j, k, m])
    {
      MixSample(j, 0, l, left);
      MixSample(j, 1, l, right);
    }

    method MixSample(j: nat, k: nat, l: nat, x: real)
      requires Valid() && j < desk.ports && k < 2 && l < desk.frames
      modifies output
      ensures OnlyOutput(j, k) && output[j, k, l] == old(output[j, k, l]) + x
      ensures forall m: nat :: m < desk.frames && m != l ==> output[j, k, m] == old(output[j, k, m])
    {
      output[j, k, l] := output[j, k, l] + x;
    }

    ghost predicate Buffered(s: nat, n: nat, ring: seq<real>)
      requires Valid() && s < desk.streams
      reads callback
    {
      && n == FramesGot(desk, s, ring) && n <= desk.frames
      && (desk.channels(s) == 1 ==> forall l: nat :: l < n ==> callback[l] == ring[l])
      && (desk.channels(s) == 2 ==> forall l: nat :: l < n ==>
          callback[2 * l] == ring[2 * l] && callback[2 * l + 1] == ring[2 * l + 1])
    }

    method MixPort(s: nat, j: nat, n: nat, ghost ring: seq<real>)
      requires Valid() && s < desk.streams && j < desk.ports && desk.volume(j, s) > 0.0 && Buffered(s, n, ring)
      modifies output
      ensures OnlyPort(j)
      ensures forall k: nat, l: nat :: k < 2 && l < desk.frames ==>
        output[j, k, l] == old(output[j, k, l]) + Played(desk, s, ring, j, k, l)
    {
      if desk.channels(s) == 1 {
        MixMono(s, j, n, ring);
      } else {
        MixStereo(s, j, n, ring);
      }
    }

    // A stream that is heard, has ended and falls short of the frames stops.
    ghost predicate Ends(s: nat, wasPlaying: bool, ring: seq<real>)
      requires Valid() && s < desk.streams
      reads eof
    {
      wasPlaying && |ring| < (if desk.channels(s) == 1 then desk.frames else 2 * desk.frames) && eof[s] &&
      Heard(desk, s, desk.ports)
    }

    twostate predicate OnlyFlags(s: nat)
      requires Valid()
      reads playing, stopping
    {
      forall t :: 0 <= t < desk.streams && t != s ==> playing[t] == old(playing[t]) && stopping[t] == old(stopping[t])
    }

    method MixPorts(s: nat, n: nat, ghost ring: seq<real>)
      requires Valid() && s < desk.streams && Buffered(s, n, ring)
      modifies output, playing, stopping
      ensures forall j: nat, k: nat, l: nat :: j < desk.ports && k < 2 && l < desk.frames && desk.outputPort(j) ==>
        output[j, k, l] == old(output[j, k, l]) + Played(desk, s, ring, j, k, l)
      ensures OnlyFlags(s)
      ensures playing[s] == (old(playing[s]) && !(n != desk.frames && eof[s] && Heard(desk, s, desk.ports)))
      ensures stopping[s] == (old(stopping[s]) || (n != desk.frames && eof[s] && Heard(desk, s, desk.ports)))
    {
      for m := 0 to desk.ports
        invariant forall j: nat, k: nat, l: nat :: j < m && k < 2 && l < desk.frames && desk.outputPort(j) ==>
          output[j, k, l] == old(output[j, k, l]) + Played(desk, s, ring, j, k, l)
        invariant forall j: nat, k: nat, l: nat :: m <= j < desk.ports && k < 2 && l < desk.frames ==>
          output[j, k, l] == old(output[j, k, l])
        invariant OnlyFlags(s)
        invariant playing[s] == (old(playing[s]) && !(n != desk.frames && eof[s] && Heard(desk, s, m)))
        invariant stopping[s] == (old(stopping[s]) || (n != desk.frames && eof[s] && Heard(desk, s, m)))
      {
        HeardNext(desk, s, m);
        if desk.outputPort(m) && desk.volume(m, s) > 0.0 {
          MixPort(s, m, n, ring);
          if n != desk.frames && eof[s] {
            stopping[s] := true;
            playing[s] := false;
          }
        }
      }
    }

    method MixStream(s: nat)
      requires Valid() && s < desk.streams
      modifies output, callback, rings, playing, stopping
      ensures forall j: nat, k: nat, l: nat :: j < desk.ports && k < 2 && l < desk.frames && desk.outputPort(j) ==>
        output[j, k, l] == old(output[j, k, l]) + if old(playing[s]) then Played(desk, s, old(rings[s]), j, k, l)
            else 0.0
      ensures forall t :: 0 <= t < desk.streams && t != s ==> rings[t] == old(rings[t])
      ensures rings[s] == if old(playing[s]) then old(rings[s])[Min(Wanted(desk, s), |old(rings[s])|)..]
          else old(rings[s])
      ensures OnlyFlags(s)
      ensures playing[s] == (old(playing[s]) && !Ends(s, old(playing[s]), old(rings[s])))
      ensures stopping[s] == (old(stopping[s]) || Ends(s, old(playing[s]), old(rings[s])))
    {
      if playing[s] {
        ghost var ring := rings[s];
        var n := ReadStream(s);
        MixPorts(s, n, ring);
      }
    }

    // The output is the sum of the inputs passed through and of the streams that play,
    // although all streams share the callback buffer; and the streams that have ended
    // and are heard stop.  Sounds says what that is for one source and for two.
    method JackProcess()
      requires Valid()
      modifies output, callback, rings, playing, stopping
      ensures forall j: nat, k: nat, l: nat :: j < desk.ports && k < 2 && l < desk.frames && desk.outputPort(j) ==>
        output[j, k, l] == Sum(desk, old(rings[..]), old(playing[..]), j, k, l)
      ensures forall j: nat, l: nat :: j < desk.ports && l < desk.frames && desk.outputPort(j) ==>
        Sounds(desk, old(rings[..]), old(playing[..]), j, l, output[j, 0, l], output[j, 1, l])
      ensures forall s: nat :: s < desk.streams ==>
        && rings[s] == (if old(playing[s]) then old(rings[s])[Min(Wanted(desk, s), |old(rings[s])|)..]
            else old(rings[s]))
        && playing[s] == (old(playing[s]) && !Ends(s, old(playing[s]), old(rings[s])))
        && stopping[s] == (old(stopping[s]) || Ends(s, old(playing[s]), old(rings[s])))
    {
      ZeroOutputs();
      Passthroughs();
      MixStreams();
      forall j: nat, l: nat | j < desk.ports && l < desk.frames && desk.outputPort(j)
        ensures Sounds(desk, old(rings[..]), old(playing[..]), j, l, output[j, 0, l], output[j, 1, l])
      {
        MixSounds(desk, old(rings[..]), old(playing[..]), j, l);
      }
    }

    // The loop over the streams.
    method MixStreams()
      requires Valid()
      requires forall j: nat, k: nat, l: nat :: j < desk.ports && k < 2 && l < desk.frames && desk.outputPort(j) ==>
        output[j, k, l] == Passed(desk, j, k, l, desk.ports)
      modifies output, callback, rings, playing, stopping
      ensures forall j: nat, k: nat, l: nat :: j < desk.ports && k < 2 && l < desk.frames && desk.outputPort(j) ==>
        output[j, k, l] == Sum(desk, old(rings[..]), old(playing[..]), j, k, l)
      ensures forall s: nat :: s < desk.streams ==>
        && rings[s] == (if old(playing[s]) then old(rings[s])[Min(Wanted(desk, s), |old(rings[s])|)..]
            else old(rings[s]))
        && playing[s] == (old(playing[s]) && !Ends(s, old(playing[s]), old(rings[s])))
        && stopping[s] == (old(stopping[s]) || Ends(s, old(playing[s]), old(rings[s])))
    {
      ghost var rings0, playing0 := rings[..], playing[..];
      for i := 0 to desk.streams
        invariant forall j: nat, k: nat, l: nat :: j < desk.ports && k < 2 && l < desk.frames && desk.outputPort(j) ==>
          output[j, k, l] == Passed(desk, j, k, l, desk.ports) + Mixed(desk, rings0, playing0, j, k, l, i)
        invariant forall s: nat :: s < i ==>
          && rings[s] == (if playing0[s] then rings0[s][Min(Wanted(desk, s), |rings0[s]|)..] else rings0[s])
          && playing[s] == (playing0[s] && !Ends(s, playing0[s], rings0[s]))
          && stopping[s] == (old(stopping[s]) || Ends(s, playing0[s], rings0[s]))
        invariant forall s: nat :: i <= s < desk.streams ==>
          rings[s] == rings0[s] && playing[s] == playing0[s] && stopping[s] == old(stopping[s])
      {
        MixStream(i);
      }
    }
  }

  lemma HeardNext(d: Desk, s: nat, j: nat)
    ensures Heard(d, s, j + 1) <==> Heard(d, s, j) || (d.outputPort(j) && d.volume(j, s) > 0.0)
  {
  }

  // A gain of zero or less takes a stream out of the mix of a port, whatever it plays.
  lemma {:induction false} SilentStreamsDoNotMatter(d: Desk, rings: seq<seq<real>>, others: seq<seq<real>>,
      playing: seq<bool>,
                                                    j: nat, k: nat, l: nat, s: nat)
    requires |rings| == |others| && s <= |rings| && s <= |playing| && k < 2
    requires forall t: nat :: t < s && d.volume(j, t) > 0.0 ==> rings[t] == others[t]
    ensures Mixed(d, rings, playing, j, k, l, s) == Mixed(d, others, playing, j, k, l, s)
  {
    if s > 0 {
      SilentStreamsDoNotMatter(d, rings, others, playing, j, k, l, s - 1);
    }
  }
}
