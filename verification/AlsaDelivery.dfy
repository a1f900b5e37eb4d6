// Services read on and callbacks play on: within a bound, a stream that has been loaded
// and started plays every byte of its file and stops exactly once.
module AlsaDelivery {
  import opened Wrappers
  import opened Arithmetic
  import opened RingBuffer
  import opened AlsaStream
  import opened AlsaRuns

  // ----- What a service reads ------------------------------------------------------

  // A service of a playing stream reads from the file as many whole blocks as the room in
  // the ring is worth at the rate of the card, or what is left of the file, and appends
  // them to the ring as far as they fit; that there is less left is the end of the file.
  lemma ServiceReads(f: Format, s: Stream)
    requires Consistent(s) && s.playing && !s.stopping && |s.ring.value| < 262142
    ensures var w, room, t := s.wave.value, 262142 - |s.ring.value|, Step(f, s, Tick).stream;
            var align, n := 2 * w.channels, t.cursor - s.cursor;
      && t == s.(ring := t.ring, cursor := t.cursor, eof := t.eof, timer := t.timer)
      && 0 <= n <= |w.data| - s.cursor && n * f.rate <= room * w.rate
      && t.ring == Some(Cut(s.ring.value + w.data[s.cursor..t.cursor], 262143))
      && (t.cursor < |w.data| ==> n % align == 0 && room * w.rate < (n + align) * f.rate && t.eof == s.eof)
      && (align * f.rate <= room * w.rate ==> if s.cursor < |w.data| then n > 0 else t.eof)
  {
    var w, free, t := s.wave.value, CAPACITY - |s.ring.value| - 1, Step(f, s, Tick).stream;
    var wanted := Wanted(f, w, free);
    WantedIs(f, w, free);
    FillIs(f, s, wanted, Min(wanted, |w.data| - s.cursor));
    AtMost(t.cursor - s.cursor, wanted, f.rate);
    StoredIs(s.ring.value, w.data[s.cursor..t.cursor]);
  }

  function Cut(x: seq<Byte>, n: nat): seq<Byte> {
    if |x| <= n then x else x[..n]
  }

  lemma StoredIs(held: seq<Byte>, x: seq<Byte>)
    requires |held| <= CAPACITY
    ensures Stored(held, CAPACITY, x) == Cut(held + x, 262143)
  {
  }

  // The largest number of whole blocks that the free bytes are worth.
  lemma WantedIs(f: Format, w: Wave, free: nat)
    ensures var align, wanted := 2 * w.channels, Wanted(f, w, free);
      && wanted % align == 0 && wanted * f.rate <= free * w.rate < (wanted + align) * f.rate
      && (align * f.rate <= free * w.rate ==> wanted > 0)
  {
    var q := Scaled(free, w.rate, f.rate);
    Division(free * w.rate, f.rate);
    WholeBlocks(w, q);
    Bracketed(free * w.rate, f.rate, q, BlockBytes(w, Blocks(w, q)), 2 * w.channels);
  }

  lemma Bracketed(x: nat, d: nat, q: nat, n: nat, align: nat)
    requires q * d <= x < q * d + d && n <= q < n + align
    ensures n * d <= x < (n + align) * d
    ensures align * d <= x ==> n > 0
  {
    AtMost(n, q, d);
    AtMost(q + 1, n + align, d);
    assert (q + 1) * d == q * d + d;
  }

  lemma WholeBlocks(w: Wave, q: nat)
    ensures var n := BlockBytes(w, Blocks(w, q)); n % (2 * w.channels) == 0 && n <= q < n + 2 * w.channels
  {
  }

  // ----- What is left to play ----------------------------------------------------------

  function RestOf(s: Stream): seq<Byte>
    requires Consistent(s) && s.ring.Some?
  {
    s.ring.value + s.wave.value.data[s.cursor..]
  }

  // A wave not faster than the card, and a number of bytes that a callback round asks for
  // at least, and that the ring holds behind a service unless less is left.
  predicate Sustains(f: Format, w: Wave, portion: nat) {
    && w.rate <= f.rate && 4 <= portion && portion * f.periods <= f.buffer * w.channels
    && (portion + 8) * f.rate <= 262142 * w.rate
  }

  lemma PeriodIs(f: Format, w: Wave, portion: nat)
    requires portion * f.periods <= f.buffer * w.channels
    ensures portion <= Period(f, w)
  {
    var x := f.buffer * w.channels;
    Division(x, f.periods);
    Cancel(portion, x / f.periods + 1, f.periods);
    assert (x / f.periods + 1) * f.periods == x / f.periods * f.periods + f.periods;
  }

  // A stream that plays and has noted the end of the file only there.
  predicate Plays(s: Stream) {
    && Consistent(s) && s.playing && (s.eof ==> s.cursor == |s.wave.value.data|)
  }

  // A service loses nothing, and leaves a portion in the ring or all that is left.
  predicate Filled(s: Stream, portion: nat)
    requires Consistent(s) && s.ring.Some?
  {
    |s.ring.value| >= Min(portion, |RestOf(s)|) && (s.ring.value == [] ==> s.eof)
  }

  lemma ServiceFills(f: Format, s: Stream, portion: nat)
    requires Plays(s) && !s.stopping && Sustains(f, s.wave.value, portion)
    ensures var t := Step(f, s, Tick).stream;
      && Plays(t) && !t.stopping && t.wave == s.wave && RestOf(t) == RestOf(s) && Filled(t, portion)
  {
    var w, r := s.wave.value, s.ring.value;
    var t := Step(f, s, Tick).stream;
    SlowIsRoomy(f, w);
    RoomyFits(f, s);
    FillAppends(f, s);
    Resumed(r, w.data, s.cursor, t.cursor);
    PortionFits(portion, f.rate, w.rate);
    if |r| < 262142 {
      ServiceReads(f, s);
      if t.cursor < |w.data| {
        EnoughRead(|r|, t.cursor - s.cursor, 2 * w.channels, portion, f.rate, w.rate);
      }
    }
  }

  lemma Resumed(ring: seq<Byte>, data: seq<Byte>, a: nat, b: nat)
    requires a <= b <= |data|
    ensures ring + data[a..b] + data[b..] == ring + data[a..]
  {
  }

  lemma PortionFits(portion: nat, card: nat, rate: nat)
    requires card > 0 && 4 <= portion && rate <= card && (portion + 8) * card <= 262142 * rate
    ensures portion + 8 <= 262142 && 4 * card <= 262142 * rate
  {
    AtMost(rate, card, 262142);
    Cancel(portion + 8, 262142, card);
    AtMost(4, portion + 8, card);
  }

  lemma EnoughRead(held: nat, n: nat, align: nat, portion: nat, card: nat, rate: nat)
    requires card > 0 && held < 262142 && align <= 4 && rate <= card
    requires (262142 - held) * rate < (n + align) * card && (portion + 8) * card <= 262142 * rate
    ensures held + n >= portion
  {
    AtMost(rate, card, held);
    assert (262142 - held) * rate == 262142 * rate - held * rate && held * rate == rate * held;
    assert (held + n + align) * card == card * held + (n + align) * card;
    Cancel(portion + 8, held + n + align, card);
  }

  // A callback round takes the front of what is left.  It marks the stream as stopping
  // only when nothing is left, and behind a service as soon as nothing is.
  lemma RoundPlays(f: Format, s: Stream, portion: nat)
    requires Plays(s) && Sustains(f, s.wave.value, portion)
    ensures var o := Step(f, s, Round);
      && Plays(o.stream) && o.stream.wave == s.wave && o.notes == [] && o.bytes + RestOf(o.stream) == RestOf(s)
      && (o.stream.stopping ==> s.stopping || RestOf(o.stream) == [])
      && (Filled(s, portion) ==> |RestOf(o.stream)| <= |RestOf(s)| - Min(portion, |RestOf(s)|))
      && (Filled(s, portion) && RestOf(s) == [] ==> o.stream.stopping)
  {
    PeriodIs(f, s.wave.value, portion);
    var n := Min(Period(f, s.wave.value), |s.ring.value|);
    assert s.ring.value[..n] + (s.ring.value[n..] + s.wave.value.data[s.cursor..]) == RestOf(s);
  }

  // The callback rounds that find a service between them and the one counted before.
  function Alternations(events: seq<Event>, ticked: bool): nat {
    if events == [] then 0
    else if events[0].Tick? then Alternations(events[1..], true)
    else if events[0].Round? && ticked then 1 + Alternations(events[1..], false)
    else Alternations(events[1..], ticked)
  }

  lemma {:induction false} DoneIsSilent(f: Format, s: Stream, events: seq<Event>)
    requires Consistent(s) && !s.playing && !s.stopping && forall e :: e in events ==> Service(e)
    ensures var r := Run(f, s, events); r.bytes == [] && r.notes == [] && !r.stream.playing
    decreases |events|
  {
    SilentWhenDone(f, s, events);
    if events != [] {
      assert Service(events[0]);
      DoneIsSilent(f, Step(f, s, events[0]).stream, events[1..]);
    }
  }

  // How many alternations it takes when n portions are left.
  ghost predicate Enough(s: Stream, portion: nat, n: nat, ticked: bool, rounds: nat)
    requires Consistent(s) && s.ring.Some?
  {
    if s.stopping then !ticked && RestOf(s) == [] && rounds >= 1
    else |RestOf(s)| <= n * portion && rounds >= n + 2 && (ticked ==> Filled(s, portion))
  }

  lemma {:induction false} PlaysOut(f: Format, s: Stream, events: seq<Event>, portion: nat, n: nat, ticked: bool)
    requires Plays(s) && Sustains(f, s.wave.value, portion) && forall e :: e in events ==> Service(e)
    requires Enough(s, portion, n, ticked, Alternations(events, ticked))
    ensures var r := Run(f, s, events); r.bytes == RestOf(s) && r.notes == [Stopped] && !r.stream.playing
    decreases |events|
  {
    var e, o := events[0], Step(f, s, events[0]);
    assert Service(e);
    if e.Tick? {
      if s.stopping {
        DoneIsSilent(f, o.stream, events[1..]);
      } else {
        ServiceFills(f, s, portion);
        PlaysOut(f, o.stream, events[1..], portion, n, true);
      }
    } else if e.Round? {
      var n1 := RoundIsEnough(f, s, portion, n, ticked, Alternations(events, ticked));
      PlaysOut(f, o.stream, events[1..], portion, n1, false);
    } else {
      PlaysOut(f, o.stream, events[1..], portion, n, ticked);
    }
  }

  lemma RoundIsEnough(f: Format, s: Stream, portion: nat, n: nat, ticked: bool, rounds: nat) returns (n1: nat)
    requires Plays(s) && Sustains(f, s.wave.value, portion) && Enough(s, portion, n, ticked, rounds)
    ensures var o := Step(f, s, Round);
      && Plays(o.stream) && o.stream.wave == s.wave && o.notes == [] && o.bytes + RestOf(o.stream) == RestOf(s)
      && Enough(o.stream, portion, n1, false, if ticked then rounds - 1 else rounds)
  {
    RoundPlays(f, s, portion);
    n1 := n;
    if ticked && n > 0 {
      n1 := n - 1;
      OnePortionLess(|RestOf(s)|, |RestOf(Step(f, s, Round).stream)|, portion, n);
    }
  }

  lemma OnePortionLess(left: nat, less: nat, portion: nat, n: nat)
    requires n > 0 && left <= n * portion && less <= left - Min(portion, left)
    ensures less <= (n - 1) * portion
  {
    assert n * portion == (n - 1) * portion + portion;
  }

  // A wave not faster than the card, loaded and started, is played whole, byte by byte in
  // order, and stops exactly once, in every sequence of services and callback rounds that
  // alternate often enough: once for every portion of the file, and twice more.
  lemma EverythingIsPlayed(f: Format, s: Stream, w: Wave, length: int, events: seq<Event>, portion: nat, n: nat)
    requires Consistent(s) && s.ring.None? && Sustains(f, w, portion) && |w.data| <= n * portion
    requires (forall e :: e in events ==> Service(e)) && Alternations(events, false) >= n + 2
    ensures var r := Run(f, s, [Load(w), Play(length, 100000)] + events);
            r.bytes == w.data && r.notes == [Playing, Stopped] && !r.stream.playing
  {
    var start := [Load(w), Play(length, 100000)] + events;
    assert start[1..] == [Play(length, 100000)] + events && start[1..][1..] == events;
    var t := LoadedWhole(f, s, w);
    PlaysOut(f, AfterPlay(t, length), events, portion, n, false);
    var r := Run(f, AfterPlay(t, length), events);
    assert [] + ([] + r.bytes) == r.bytes && [] + ([Playing] + r.notes) == [Playing, Stopped];
  }

  lemma LoadedWhole(f: Format, s: Stream, w: Wave) returns (t: Stream)
    requires Consistent(s) && s.ring.None? && w.rate <= f.rate
    ensures t == Step(f, s, Load(w)).stream && Plays(t.(playing := true)) && !t.playing && !t.stopping
    ensures t.wave == Some(w) && RestOf(t) == w.data
  {
    t := Loaded(f, s, w);
    SlowIsRoomy(f, w);
    var s0 := Stream(Some([]), Some(w), 0, s.playing, false, false, 0, 0, s.timer);
    RoomyFits(f, s0);
    FillAppends(f, s0);
    Resumed([], w.data, 0, t.cursor);
    assert [] + w.data[0..] == w.data;
  }

  // For instance a service before every callback round.
  function Pairs(n: nat): seq<Event> {
    if n == 0 then [] else [Tick, Round] + Pairs(n - 1)
  }

  lemma {:induction false} PairsAlternate(n: nat)
    ensures Alternations(Pairs(n), false) == n && forall e :: e in Pairs(n) ==> Service(e)
  {
    if n > 0 {
      PairsAlternate(n - 1);
      var p := Pairs(n);
      assert p[1..] == [Round] + Pairs(n - 1) && p[1..][1..] == Pairs(n - 1);
    }
  }

  // ----- Timers --------------------------------------------------------------------------

  // A stream with a ring that is idle starts at the speed 100000 and at no other, and its
  // timer stops it if a length was given.
  lemma TimerStopsPlay(f: Format, s: Stream, length: int, speed: nat)
    requires Consistent(s) && s.ring.Some? && !s.playing && !s.timer
    ensures var r := Run(f, s, [Play(length, speed), Timer]);
      && r.notes == (if speed != 100000 then [] else if length > 0 then [Playing, Stopped] else [Playing])
      && r.stream.playing == (speed == 100000 && length <= 0) && !r.stream.timer && r.bytes == []
      && (speed == 100000 && length > 0 ==> r.stream.ring == Some([]))
      && (speed != 100000 || length <= 0 ==> r.stream.ring == s.ring)
  {
    var events := [Play(length, speed), Timer];
    assert events[1..] == [Timer] && [Timer][1..] == [];
  }
}
