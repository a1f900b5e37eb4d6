// Seeking to a time and reporting the position agree (cae/driver_alsa.cpp and
// cae/driver_jack.cpp) as long as the offset fits the integers that hold it.
// Quotients are exact, and integers are as wide as in the drivers.
module Positions {
  import opened Arithmetic
  import opened AlsaStream

  // getOutputPosition: the milliseconds of a number of frames.
  function Reported(rate: nat, frames: nat): nat
    requires rate > 0
  {
    1000 * frames / rate
  }

  // An int keeps the low bits of an unsigned, with a sign.
  function AsInt(x: nat): int {
    if x < WORD / 2 then x else x - WORD
  }

  // playbackPosition for a PCM file with blocks of align bytes: the byte asked for, and
  // the frame that is left of it in an unsigned and an int.
  function PcmOffset(rate: nat, align: nat, ms: nat): nat {
    rate * align * ms / 1000
  }

  function PcmFrame(rate: nat, align: nat, ms: nat): int
    requires align > 0
  {
    AsInt(Low(PcmOffset(rate, align, ms)) / align)
  }

  // The offset fits the unsigned, and the frame the int.
  predicate PcmFits(rate: nat, align: nat, ms: nat) {
    PcmOffset(rate, align, ms) < WORD && PcmOffset(rate, align, ms) < WORD / 2 * align
  }

  const MPEG_FRAME: nat := 1152

  // playbackPosition for an MPEG file: the start of the frame asked for, what is left
  // of it in an int, and the byte of the frame.
  function FrameStart(sample: nat): nat {
    sample / MPEG_FRAME * MPEG_FRAME
  }

  function MpegSample(rate: nat, ms: nat): int {
    AsInt(FrameStart(Low(rate * ms / 1000)))
  }

  function MpegByte(sample: nat, align: nat): nat {
    sample / MPEG_FRAME * align
  }

  // The frame f is the one at ms, or less than slack thousandths before it.
  predicate Near(rate: nat, ms: nat, f: int, slack: nat) {
    1000 * f <= rate * ms < 1000 * f + slack
  }

  lemma LowIs(x: nat)
    ensures x < WORD ==> Low(x) == x
    ensures x >= WORD ==> Low(x) <= x - WORD
  {
    Division(x, WORD);
  }

  // The frame before its sign is taken.
  lemma PcmParts(rate: nat, align: nat, ms: nat)
    requires align > 0
    ensures var q, b := Low(PcmOffset(rate, align, ms)) / align, PcmOffset(rate, align, ms);
      && PcmFrame(rate, align, ms) == AsInt(q) && 0 <= q < WORD
      && q * align <= Low(b) < q * align + align && 1000 * b <= rate * ms * align < 1000 * b + 1000
  {
    Division(rate * align * ms, 1000);
    Division(Low(PcmOffset(rate, align, ms)), align);
    assert rate * align * ms == rate * ms * align;
    QuotientFits(Low(PcmOffset(rate, align, ms)), align, WORD);
  }

  lemma QuotientFits(x: nat, d: nat, bound: nat)
    requires d > 0 && x < bound
    ensures 0 <= x / d < bound
  {
    Division(x, d);
    AtMost(1, d, x / d);
  }

  // The sign stays positive exactly below half of the range.
  lemma SignOf(q: nat, b: nat, align: nat)
    requires align > 0 && q * align <= b < q * align + align
    ensures q < WORD / 2 <==> b < WORD / 2 * align
  {
    if q < WORD / 2 {
      AtMost(q + 1, WORD / 2, align);
    } else {
      AtMost(WORD / 2, q, align);
    }
  }

  // Going through bytes and blocks loses no more than going to frames directly, as long
  // as the byte fits.
  lemma PcmIsNear(rate: nat, align: nat, ms: nat)
    requires align > 0 && PcmFits(rate, align, ms)
    ensures PcmFrame(rate, align, ms) >= 0 && Near(rate, ms, PcmFrame(rate, align, ms), 1000)
  {
    var b := PcmOffset(rate, align, ms);
    PcmParts(rate, align, ms);
    LowIs(b);
    var q := Low(b) / align;
    SignOf(q, b, align);
    InBlocks(rate * ms, b, q, align);
  }

  lemma InBlocks(x: nat, b: nat, q: nat, align: nat)
    requires align > 0 && q * align <= b < q * align + align && 1000 * b <= x * align < 1000 * b + 1000
    ensures 1000 * q <= x < 1000 * q + 1000
  {
    assert q * align * 1000 == (q * 1000) * align;
    Cancel(q * 1000, x, align);
    assert (q * 1000 + 1000) * align == (q * align + align) * 1000;
    Cancel(x, q * 1000 + 1000, align);
  }

  // Otherwise the frame is too early by that many frames.
  lemma PcmIsFar(rate: nat, align: nat, ms: nat)
    requires 0 < align <= 500 && !PcmFits(rate, align, ms)
    ensures 1000 * PcmFrame(rate, align, ms) + 2 * WORD <= rate * ms
  {
    var b := PcmOffset(rate, align, ms);
    PcmParts(rate, align, ms);
    LowIs(b);
    var q := Low(b) / align;
    if b < WORD {
      SignOf(q, b, align);
      InBlocks(rate * ms, b, q, align);
    } else {
      BlocksBehind(rate * ms, b, q, align);
    }
  }

  lemma BlocksBehind(x: nat, b: nat, q: nat, align: nat)
    requires 0 < align <= 500 && q * align <= b - WORD && 1000 * b <= x * align
    ensures 1000 * q + 2 * WORD <= x
  {
    AtMost(align, 500, 2 * WORD);
    assert (1000 * q + 2 * WORD) * align == 1000 * (q * align) + align * (2 * WORD);
    Cancel(1000 * q + 2 * WORD, x, align);
  }

  // What a frame near the position asked for is reported as, and one far from it.
  lemma ReportBounds(rate: nat, ms: nat, f: nat, slack: nat)
    requires rate > 0 && Near(rate, ms, f, slack)
    ensures Reported(rate, f) <= ms && rate * (ms - Reported(rate, f)) < slack + rate
  {
    var p := Reported(rate, f);
    Division(1000 * f, rate);
    assert rate * ms == ms * rate && rate * (ms - p) == ms * rate - p * rate;
    Cancel(p, ms, rate);
  }

  lemma ReportIsFar(rate: nat, ms: nat, f: nat)
    requires 0 < rate < WORD && 1000 * f + 2 * WORD <= rate * ms
    ensures Reported(rate, f) + 1 < ms
  {
    var p := Reported(rate, f);
    Division(1000 * f, rate);
    assert (p + 2) * rate == p * rate + 2 * rate && rate * ms == ms * rate;
    Cancel(p + 2, ms, rate);
  }

  // A PCM seek goes to the frame at the time asked for, and the position reported is at
  // most a millisecond before that time for rates of 1000 and more, if and only if the
  // offset and the frame fit.  A frame that is not negative, which it never is for blocks
  // of two and more bytes, is in no case reported past the time.
  lemma PcmSeekAndReport(rate: nat, align: nat, ms: nat)
    requires 0 < rate < WORD && 0 < align <= 500
    ensures Near(rate, ms, PcmFrame(rate, align, ms), 1000) <==> PcmFits(rate, align, ms)
    ensures PcmFits(rate, align, ms) || align >= 2 ==> PcmFrame(rate, align, ms) >= 0
    ensures align >= 2 ==> (PcmFits(rate, align, ms) <==> PcmOffset(rate, align, ms) < WORD)
    ensures var f := PcmFrame(rate, align, ms);
      f >= 0 ==>
        && Reported(rate, f) <= ms
        && (rate >= 1000 ==> (ms <= Reported(rate, f) + 1 <==> PcmFits(rate, align, ms)))
  {
    var f := PcmFrame(rate, align, ms);
    PcmParts(rate, align, ms);
    if align >= 2 {
      AtMost(2, align, WORD / 2);
      QuotientHalved(Low(PcmOffset(rate, align, ms)), align);
    }
    if PcmFits(rate, align, ms) {
      PcmIsNear(rate, align, ms);
      ReportIsNear(rate, ms, f);
    } else {
      PcmIsFar(rate, align, ms);
      if f >= 0 {
        ReportIsFar(rate, ms, f);
      }
    }
  }

  lemma QuotientHalved(x: nat, d: nat)
    requires d >= 2 && x < WORD
    ensures x / d < WORD / 2
  {
    Division(x, d);
    AtMost(2, d, x / d);
  }

  lemma ReportIsNear(rate: nat, ms: nat, f: nat)
    requires rate > 0 && Near(rate, ms, f, 1000)
    ensures Reported(rate, f) <= ms && (rate >= 1000 ==> ms <= Reported(rate, f) + 1)
  {
    ReportBounds(rate, ms, f, 1000);
    var p := Reported(rate, f);
    if rate >= 1000 {
      assert (ms - p) * rate < 2 * rate;
      Cancel(ms - p, 2, rate);
    }
  }

  // An MPEG seek goes to a multiple of 1152 samples that is less than that before the
  // time asked for, if and only if the start of the frame fits an int.  Then the byte is
  // one of the frame size, and the report lags by less than 1152000 / rate + 1
  // milliseconds.
  lemma MpegSeekAndReport(rate: nat, align: nat, ms: nat)
    requires rate > 0 && align > 0
    ensures Near(rate, ms, MpegSample(rate, ms), 1152000) <==> FrameStart(rate * ms / 1000) < 2147483648
    ensures var f := MpegSample(rate, ms); FrameStart(rate * ms / 1000) < WORD / 2 ==>
      && 0 <= f && f % 1152 == 0 && MpegByte(f, align) % align == 0 && MpegByte(f, align) * 1152 == f * align
      && Reported(rate, f) <= ms && rate * (ms - Reported(rate, f)) < 1152000 + rate
  {
    var s, f := rate * ms / 1000, MpegSample(rate, ms);
    Division(rate * ms, 1000);
    LowIs(s);
    Division(s, MPEG_FRAME);
    Division(Low(s), MPEG_FRAME);
    if FrameStart(s) < WORD / 2 {
      ReportBounds(rate, ms, f, 1000 * MPEG_FRAME);
      ByteOfFrame(f, align);
    }
  }

  // A frame of 1152 samples has the size of a block.
  lemma ByteOfFrame(f: nat, align: nat)
    requires align > 0 && f % 1152 == 0
    ensures MpegByte(f, align) % align == 0 && MpegByte(f, align) * 1152 == f * align
  {
    var k := f / 1152;
    Multiple(k, align);
    assert f == k * 1152 && k * align * 1152 == k * 1152 * align;
  }

  lemma Multiple(k: nat, d: nat)
    requires d > 0
    ensures k * d % d == 0
  {
    var x := k * d;
    Division(x, d);
    Cancel(x / d, k, d);
    Cancel(k, x / d + 1, d);
    assert (x / d + 1) * d == x / d * d + d;
    assert x / d == k;
  }

  // Six hours and a quarter into a 48 kHz stereo file the byte offset does not fit: the
  // seek goes to its start, and that is what is reported.
  lemma FarSeekStartsOver()
    ensures PcmOffset(48000, 4, 22369622) == WORD + 128
    ensures PcmFrame(48000, 4, 22369622) == 32 && Reported(48000, 32) == 0
  {
  }

  // With blocks of one byte the frame turns negative after twelve hours and a half.
  lemma ByteBlocksTurnNegative()
    ensures PcmOffset(48000, 1, 44739243) == WORD / 2 + 16 && PcmFrame(48000, 1, 44739243) == 16 - WORD / 2
  {
  }

  // The ALSA stream after a seek that succeeds, for a file with a sample rate.
  lemma SeekIsReported(f: Format, s: Stream, ms: nat)
    requires Consistent(s) && s.ring.Some? && CanSeek(f, s, ms) && s.wave.value.rate > 0
    ensures var t, w := AfterSeek(f, s, ms), s.wave.value;
      && Consistent(t) && t.pos == 0 && Position(f, t) <= ms
      && (w.rate >= 1000 ==> (ms <= Position(f, t) + 1 <==> PcmOffset(w.rate, w.BlockAlign(), ms) < WORD))
  {
    var w := s.wave.value;
    SeekFrameIs(w, ms);
    PcmSeekAndReport(w.rate, w.BlockAlign(), ms);
  }

  lemma SeekFrameIs(w: Wave, ms: nat)
    ensures SeekFrame(w, ms) == PcmFrame(w.rate, w.BlockAlign(), ms)
  {
    BlocksAreAligned(w, w.rate);
    BlocksAreAligned(w, Low(BlockBytes(w, w.rate) * ms / 1000));
    QuotientHalved(Low(PcmOffset(w.rate, w.BlockAlign(), ms)), w.BlockAlign());
  }
}
