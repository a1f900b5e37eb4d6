// Volume fades of the ALSA and JACK drivers
// (cae/driver_alsa.cpp and cae/driver_jack.cpp).
module Fades {
  import opened Arithmetic

  type Short = x: int | -32768 <= x < 32768

  const FADE_INTERVAL: nat := 100
  const MUTE: Short := -10000

  // Conversion of an int to a short.
  function ToShort(x: int): Short {
    (x + 32768) % 65536 - 32768
  }

  datatype Fade = Fade(volume: Short, up: bool, target: Short, increment: Short, active: bool)

  // The volume that setOutputVolume keeps.
  function Clamped(level: int): Short {
    if level > MUTE then ToShort(level) else MUTE
  }

  function Difference(volume: int, level: int): nat {
    if level > volume then level - volume else volume - level
  }

  // The level is compared as an int and kept in a short.  The dividend is not negative,
  // so that the quotient is the one that goes towards zero.
  function StartFade(f: Fade, level: int, length: int): Fade
    requires length != 0
  {
    Fade(f.volume, level > f.volume, ToShort(level), ToShort(Difference(f.volume, level) * FADE_INTERVAL / length),
         true)
  }

  // One tick of the fade timer.  The ALSA driver computes the new level in a short, the
  // JACK driver in an int.
  function FadeTick(f: Fade, short: bool): Fade {
    var wide := if f.up then f.volume + f.increment else f.volume - f.increment;
    var level := if short then ToShort(wide) else wide;
    if (if f.up then level >= f.target else level <= f.target)
    then f.(volume := Clamped(f.target), active := false)
    else f.(volume := Clamped(level))
  }

  // The fade after n ticks; a timer that has stopped does not tick.
  function Ticks(f: Fade, short: bool, n: nat): Fade {
    if n == 0 then f
    else
      var g := Ticks(f, short, n - 1);
      if g.active then FadeTick(g, short) else g
  }

  class Fader {
    var volume: Short
    var fadeUp: bool
    var fadeVolume: Short
    var fadeIncrement: Short
    var timerActive: bool

    ghost function Value(): Fade
      reads this
    {
      Fade(volume, fadeUp, fadeVolume, fadeIncrement, timerActive)
    }

    method SetOutputVolume(level: int)
      modifies `volume
      ensures Value() == old(Value()).(volume := Clamped(level))
    {
      if level > -10000 {
        volume := ToShort(level);
      } else {
        volume := -10000;
      }
    }

    // A length of 0 divides by zero; CaeModel.FadeOutputVolume says when that happens.
    method FadeOutputVolume(level: int, length: int)
      requires length != 0
      modifies this
      ensures Value() == StartFade(old(Value()), level, length)
    {
      timerActive := false;
      var diff;
      if level > volume {
        fadeUp := true;
        diff := level - volume;
      } else {
        fadeUp := false;
        diff := volume - level;
      }
      fadeVolume := ToShort(level);
      fadeIncrement := ToShort(diff * FADE_INTERVAL / length);
      timerActive := true;
    }

    method FadeTimerData(short: bool)
      modifies this
      ensures Value() == FadeTick(old(Value()), short)
    {
      var level;
      if fadeUp {
        level := volume + fadeIncrement;
        level := if short then ToShort(level) else level;
        if level >= fadeVolume {
          level := fadeVolume;
          timerActive := false;
        }
      } else {
        level := volume - fadeIncrement;
        level := if short then ToShort(level) else level;
        if level <= fadeVolume {
          level := fadeVolume;
          timerActive := false;
        }
      }
      SetOutputVolume(level);
    }
  }

  // ----- Fades converge ------------------------------------------------------------

  // The number of ticks of a fade: the difference over the increment, rounded up.
  function TickCount(diff: nat, increment: nat): nat
    requires increment > 0
  {
    (diff + increment - 1) / increment
  }

  lemma TickCountBounds(diff: nat, inc: nat)
    requires inc > 0
    ensures var n := TickCount(diff, inc); diff <= n * inc < diff + inc
  {
    Division(diff + inc - 1, inc);
  }

  lemma TicksBefore(diff: nat, inc: nat, n: nat)
    requires inc > 0
    ensures n < TickCount(diff, inc) <==> n * inc < diff
  {
    TickCountBounds(diff, inc);
    var count := TickCount(diff, inc);
    if n < count {
      AtMost(n + 1, count, inc);
    } else {
      AtMost(count, n, inc);
    }
  }

  // What a fade adds or takes at each tick.
  function Increment(volume: int, level: int, length: int): nat
    requires length > 0
  {
    Difference(volume, level) * FADE_INTERVAL / length
  }

  lemma IncrementBounds(volume: int, level: int, length: int)
    requires length >= FADE_INTERVAL
    ensures Increment(volume, level, length) <= Difference(volume, level)
    ensures Increment(volume, level, length) >= 1 <==> FADE_INTERVAL * Difference(volume, level) >= length
  {
    var diff, inc := Difference(volume, level), Increment(volume, level, length);
    Division(diff * FADE_INTERVAL, length);
    AtMost(FADE_INTERVAL, length, diff);
    Cancel(inc, diff, length);
    if inc >= 1 {
      AtMost(1, inc, length);
    }
  }

  // A fade towards level that moves by inc, at the level in steps from where it began.
  predicate Fading(f: Fade, volume: int, level: int, inc: int, step: int) {
    && f.active && f.target == level && f.increment == ToShort(inc) && f.up == (level > volume)
    && f.volume == if level > volume then volume + step else volume - step
  }

  // The level that the last tick computes, which can be past the target.
  function LastLevel(volume: int, level: int, inc: nat): int
    requires inc > 0
  {
    var way := TickCount(Difference(volume, level), inc) * inc;
    if level > volume then volume + way else volume - way
  }

  // Whether that tick finds the target: the level has to fit a short in the ALSA driver,
  // and the increment in the JACK driver.
  predicate Lands(volume: int, level: int, inc: nat, short: bool)
    requires inc > 0
  {
    if short then -32768 <= LastLevel(volume, level, inc) <= 32767 else inc <= 32767
  }

  lemma ShortIsExact(x: int)
    requires -32768 <= x < 32768
    ensures ToShort(x) == x
  {
  }

  lemma ShortWraps(x: int)
    ensures 32768 <= x < 98304 ==> ToShort(x) == x - 65536
    ensures -98304 <= x < -32768 ==> ToShort(x) == x + 65536
  {
  }

  // In a short it does not matter that the increment went through one.
  lemma ShortAdds(x: int, inc: int)
    ensures ToShort(x + ToShort(inc)) == ToShort(x + inc) && ToShort(x - ToShort(inc)) == ToShort(x - inc)
  {
    var k := (inc + 32768) / 65536;
    assert ToShort(inc) == inc - 65536 * k;
    Shifted(x + inc, -k);
    Shifted(x - inc, k);
  }

  lemma Shifted(x: int, k: int)
    ensures ToShort(x + 65536 * k) == ToShort(x)
  {
    var q, r := (x + 32768) / 65536, (x + 32768) % 65536;
    var y := x + 32768 + 65536 * k;
    assert y == 65536 * (q + k) + r;
    assert y % 65536 == r;
  }

  lemma TickLevel(f: Fade, volume: int, level: int, inc: nat, step: nat, short: bool)
    requires Fading(f, volume, level, inc, step) && (short || inc <= 32767)
    ensures var wide := if f.up then volume + (step + inc) else volume - (step + inc);
            FadeTick(f, short) ==
              var l := if short then ToShort(wide) else wide;
              if (if f.up then l >= level else l <= level)
              then f.(volume := Clamped(level), active := false) else f.(volume := Clamped(l))
  {
    if short {
      ShortAdds(f.volume, inc);
    } else {
      ShortIsExact(inc);
    }
  }

  // A tick before the last moves on, and the last one arrives if the level fits.
  lemma TickMoves(f: Fade, volume: int, level: int, inc: nat, step: nat, short: bool)
    requires MUTE <= volume <= 32767 && MUTE <= level <= 32767 && (short || inc <= 32767)
    requires inc <= Difference(volume, level) && step < Difference(volume, level)
    requires Fading(f, volume, level, inc, step)
    ensures var next, way := FadeTick(f, short), step + inc;
            if way < Difference(volume, level) then Fading(next, volume, level, inc, way)
            else if short && (if f.up then volume + way > 32767 else volume - way < -32768) then next.active
            else next == f.(volume := level, active := false)
  {
    var wide := if f.up then volume + (step + inc) else volume - (step + inc);
    TickLevel(f, volume, level, inc, step, short);
    ShortIsExact(level);
    if -32768 <= wide <= 32767 {
      ShortIsExact(wide);
    } else {
      ShortWraps(wide);
    }
  }

  // What an increment that does not fit a short makes of the JACK driver's fade: upwards
  // it falls to mute, and downwards it goes on, but neither stops.
  lemma JackFadeMisses(f: Fade, volume: int, level: int, inc: nat)
    requires MUTE <= volume <= 32767 && MUTE <= level <= 32767 && 32767 < inc <= Difference(volume, level)
    requires Fading(f, volume, level, inc, 0)
    ensures TickCount(Difference(volume, level), inc) <= 2
    ensures Ticks(f, false, 1).active && Ticks(f, false, 2).active
  {
    var diff, d := Difference(volume, level), 65536 - inc;
    TickCountBounds(diff, inc);
    TicksBefore(diff, inc, 2);
    ShortWraps(inc);
    assert Ticks(f, false, 0) == f && Ticks(f, false, 1) == FadeTick(f, false);
    if f.up {
      assert Ticks(f, false, 1) == f.(volume := MUTE);
    } else {
      ShortWraps(volume + d);
      assert Ticks(f, false, 1) == f.(volume := volume - inc);
    }
  }

  // The last tick.
  lemma LastTick(g: Fade, volume: int, level: int, inc: nat, short: bool)
    requires MUTE <= volume <= 32767 && MUTE <= level <= 32767 && (short || inc <= 32767)
    requires 1 <= inc <= Difference(volume, level)
    requires var count := TickCount(Difference(volume, level), inc);
             count > 0 && Fading(g, volume, level, inc, (count - 1) * inc)
    ensures if Lands(volume, level, inc, short) then FadeTick(g, short) == g.(volume := level, active := false)
            else FadeTick(g, short).active
  {
    var diff := Difference(volume, level);
    var count := TickCount(diff, inc);
    TicksBefore(diff, inc, count);
    TicksBefore(diff, inc, count - 1);
    assert (count - 1) * inc + inc == count * inc;
    TickCountBounds(diff, inc);
    TickMoves(g, volume, level, inc, (count - 1) * inc, short);
  }

  lemma NextStep(diff: nat, inc: nat, n: nat)
    requires inc > 0 && 0 < n < TickCount(diff, inc)
    ensures 0 <= (n - 1) * inc < (n - 1) * inc + inc == n * inc < diff
  {
    TicksBefore(diff, inc, n);
  }

  lemma {:induction false} LevelsBefore(f: Fade, volume: int, level: int, inc: nat, short: bool, n: nat)
    requires MUTE <= volume <= 32767 && MUTE <= level <= 32767 && (short || inc <= 32767)
    requires 1 <= inc <= Difference(volume, level) && Fading(f, volume, level, inc, 0)
    requires n < TickCount(Difference(volume, level), inc)
    ensures Fading(Ticks(f, short, n), volume, level, inc, n * inc)
  {
    if n > 0 {
      LevelsBefore(f, volume, level, inc, short, n - 1);
      NextStep(Difference(volume, level), inc, n);
      TickMoves(Ticks(f, short, n - 1), volume, level, inc, (n - 1) * inc, short);
    }
  }

  lemma {:induction false} StaysStopped(f: Fade, short: bool, m: nat, n: nat)
    requires m <= n && !Ticks(f, short, m).active
    ensures Ticks(f, short, n) == Ticks(f, short, m)
  {
    if n > m {
      StaysStopped(f, short, m, n - 1);
    }
  }

  lemma FadeLevels(f: Fade, volume: int, level: int, inc: nat, short: bool, n: nat)
    requires MUTE <= volume <= 32767 && MUTE <= level <= 32767 && (short || inc <= 32767)
    requires 1 <= inc <= Difference(volume, level) && Fading(f, volume, level, inc, 0)
    ensures var count, g := TickCount(Difference(volume, level), inc), Ticks(f, short, n);
      && (n < count ==> Fading(g, volume, level, inc, n * inc))
      && (n >= count && Lands(volume, level, inc, short) ==> !g.active && g.volume == level)
      && (n == count && !Lands(volume, level, inc, short) ==> g.active)
  {
    var count := TickCount(Difference(volume, level), inc);
    TicksBefore(Difference(volume, level), inc, 0);
    if n < count {
      LevelsBefore(f, volume, level, inc, short, n);
    } else {
      LevelsBefore(f, volume, level, inc, short, count - 1);
      LastTick(Ticks(f, short, count - 1), volume, level, inc, short);
      if Lands(volume, level, inc, short) {
        StaysStopped(f, short, count, n);
      }
    }
  }

  lemma StartIsFading(f: Fade, level: int, length: int)
    requires length >= FADE_INTERVAL && -32768 <= level <= 32767
    ensures Fading(StartFade(f, level, length), f.volume, level, Increment(f.volume, level, length), 0)
  {
    ShortIsExact(level);
  }

  // When a fade moves at all and its last level fits, each tick goes strictly towards
  // the target and never past it, and the timer stops on the target after the difference
  // over the increment ticks, rounded up.
  lemma FadesConverge(f: Fade, level: int, length: int, inc: nat, short: bool, n: nat)
    requires f.volume >= -10000 && -10000 <= level <= 32767 && length >= 100
    requires 100 * Difference(f.volume, level) >= length
    requires inc == Increment(f.volume, level, length) && (inc > 0 ==> Lands(f.volume, level, inc, short))
    ensures inc >= 1
    ensures var now := Ticks(StartFade(f, level, length), short, n);
            var next := Ticks(StartFade(f, level, length), short, n + 1);
            if n < TickCount(Difference(f.volume, level), inc)
            then now.active && Difference(next.volume, level) < Difference(now.volume, level)
                 && (level > f.volume ==> now.volume < next.volume <= level)
                 && (level < f.volume ==> now.volume > next.volume >= level)
            else !now.active && now.volume == level
  {
    var diff, start := Difference(f.volume, level), StartFade(f, level, length);
    IncrementBounds(f.volume, level, length);
    StartIsFading(f, level, length);
    FadeLevels(start, f.volume, level, inc, short, n);
    FadeLevels(start, f.volume, level, inc, short, n + 1);
    TicksBefore(diff, inc, n);
    TicksBefore(diff, inc, n + 1);
    assert (n + 1) * inc == n * inc + inc;
  }

  // A fade takes at least the length asked for, and less than twice the length and one
  // interval.
  lemma FadesKeepTime(volume: int, level: int, length: int, inc: nat)
    requires length >= 100 && 100 * Difference(volume, level) >= length
    requires inc == Increment(volume, level, length)
    ensures inc >= 1 && length <= TickCount(Difference(volume, level), inc) * 100 < 2 * length + 100
  {
    var diff := Difference(volume, level);
    IncrementBounds(volume, level, length);
    Division(diff * FADE_INTERVAL, length);
    TickCountBounds(diff, inc);
    AtLeastTheLength(diff, inc, length, TickCount(diff, inc));
    LessThanTwice(diff, inc, length, TickCount(diff, inc));
  }

  lemma AtLeastTheLength(diff: nat, inc: nat, length: nat, count: nat)
    requires inc >= 1 && inc * length <= diff * FADE_INTERVAL && diff <= count * inc
    ensures length <= count * FADE_INTERVAL
  {
    assert count * FADE_INTERVAL * inc == count * inc * FADE_INTERVAL;
    Cancel(length, count * FADE_INTERVAL, inc);
  }

  lemma LessThanTwice(diff: nat, inc: nat, length: nat, count: nat)
    requires inc >= 1 && diff * FADE_INTERVAL < inc * length + length && count * inc < diff + inc
    ensures count * FADE_INTERVAL < 2 * length + FADE_INTERVAL
  {
    AtMost(1, inc, length);
    assert (2 * length + FADE_INTERVAL) * inc == 2 * (inc * length) + FADE_INTERVAL * inc;
    assert count * FADE_INTERVAL * inc == count * inc * FADE_INTERVAL;
    Cancel(count * FADE_INTERVAL, 2 * length + FADE_INTERVAL, inc);
  }

  // ----- When a fade reaches its target -------------------------------------------------

  // A timer that has stopped has left the target, clamped to the mute level.
  lemma {:induction false} StoppedAtTarget(f: Fade, short: bool, n: nat)
    requires f.active
    ensures var g := Ticks(f, short, n); g.target == f.target && (g.active || g.volume == Clamped(f.target))
  {
    if n > 0 {
      StoppedAtTarget(f, short, n - 1);
    }
  }

  // A fade is on its target on time, which is after the difference over the increment
  // ticks, if and only if the target can be kept at all and the level of the last tick
  // fits: v + n * inc <= 32767 upwards and v - n * inc >= -32768 downwards in the ALSA
  // driver, and an increment that fits a short in the JACK driver.
  lemma FadeIsOnTimeIff(f: Fade, level: int, length: int, inc: nat, short: bool)
    requires f.volume >= -10000 && length >= 100 && inc == Increment(f.volume, level, length)
    requires 100 * Difference(f.volume, level) >= length
    ensures inc >= 1
    ensures var n := TickCount(Difference(f.volume, level), inc);
            var g := Ticks(StartFade(f, level, length), short, n);
            !g.active && g.volume == level <==>
              && -10000 <= level <= 32767
              && (if !short then inc <= 32767
                  else if level > f.volume then f.volume + n * inc <= 32767 else f.volume - n * inc >= -32768)
  {
    var start, n := StartFade(f, level, length), TickCount(Difference(f.volume, level), inc);
    IncrementBounds(f.volume, level, length);
    if -32768 <= level < MUTE {
      ShortIsExact(level);
      StoppedAtTarget(start, short, n);
    } else if MUTE <= level <= 32767 {
      StartIsFading(f, level, length);
      TickCountBounds(Difference(f.volume, level), inc);
      if short || inc <= 32767 {
        FadeLevels(start, f.volume, level, inc, short, n);
      } else {
        JackFadeMisses(start, f.volume, level, inc);
        TicksBefore(Difference(f.volume, level), inc, 0);
      }
    }
  }

  // A fade shorter than an interval has one tick, whose step is its difference or more
  // before it goes into a short.  It is on time if and only if the target can be kept and
  // what the tick computes is not short of it.
  lemma ShortFadeIsOnTimeIff(f: Fade, level: int, length: int, inc: nat, short: bool)
    requires f.volume >= -10000 && 0 < length < 100 && level != f.volume
    requires inc == Increment(f.volume, level, length)
    ensures inc >= 1 && TickCount(Difference(f.volume, level), inc) == 1
    ensures var g := Ticks(StartFade(f, level, length), short, 1);
            var wide := if level > f.volume then f.volume + ToShort(inc) else f.volume - ToShort(inc);
            var l := if short then ToShort(wide) else wide;
            !g.active && g.volume == level <==>
              -10000 <= level <= 32767 && (if level > f.volume then l >= level else l <= level)
  {
    ShortFadeHasOneTick(Difference(f.volume, level), length, inc);
    StartIs(f, level, length, inc);
    ShortFadeTicks(StartFade(f, level, length), f.volume, level, ToShort(inc), short);
  }

  lemma ShortFadeTicks(start: Fade, volume: Short, level: int, d: Short, short: bool)
    requires start == Fade(volume, level > volume, ToShort(level), d, true) && volume >= -10000
    ensures var g := Ticks(start, short, 1);
            var wide := if level > volume then volume + d else volume - d;
            var l := if short then ToShort(wide) else wide;
            !g.active && g.volume == level <==>
              -10000 <= level <= 32767 && (if level > volume then l >= level else l <= level)
  {
    FirstTick(start, short);
    OneTick(volume, level, d, short);
  }

  lemma StartIs(f: Fade, level: int, length: int, inc: nat)
    requires length > 0 && inc == Increment(f.volume, level, length)
    ensures StartFade(f, level, length) == Fade(f.volume, level > f.volume, ToShort(level), ToShort(inc), true)
  {
  }

  lemma FirstTick(f: Fade, short: bool)
    requires f.active
    ensures Ticks(f, short, 1) == FadeTick(f, short)
  {
    assert Ticks(f, short, 0) == f;
  }

  lemma ShortFadeHasOneTick(diff: nat, length: nat, inc: nat)
    requires diff > 0 && 0 < length < FADE_INTERVAL && inc == diff * FADE_INTERVAL / length
    ensures inc >= 1 && TickCount(diff, inc) == 1
  {
    Division(diff * FADE_INTERVAL, length);
    AtMost(length, FADE_INTERVAL, diff);
    assert (inc + 1) * length == inc * length + length;
    Cancel(diff, inc + 1, length);
    TicksBefore(diff, inc, 0);
    TicksBefore(diff, inc, 1);
  }

  lemma OneTick(volume: Short, level: int, d: Short, short: bool)
    requires volume >= MUTE
    ensures var g := FadeTick(Fade(volume, level > volume, ToShort(level), d, true), short);
            var wide := if level > volume then volume + d else volume - d;
            var l := if short then ToShort(wide) else wide;
            !g.active && g.volume == level <==>
              MUTE <= level <= 32767 && (if level > volume then l >= level else l <= level)
  {
    if -32768 <= level <= 32767 {
      ShortIsExact(level);
    }
  }

  // A fade too long for its difference never moves and never stops.
  lemma {:induction false} SlowFadesStall(f: Fade, volume: int, level: int, short: bool, n: nat)
    requires MUTE <= volume <= 32767 && volume != level && Fading(f, volume, level, 0, 0)
    ensures Ticks(f, short, n) == f
  {
    if n > 0 {
      SlowFadesStall(f, volume, level, short, n - 1);
      TickLevel(f, volume, level, 0, 0, short);
      ShortIsExact(volume);
    }
  }

  lemma NothingToFade(f: Fade, level: int, short: bool)
    requires MUTE <= level <= 32767 && Fading(f, level, level, 0, 0)
    ensures !Ticks(f, short, 1).active && Ticks(f, short, 1).volume == level
  {
    ShortIsExact(level);
    ShortIsExact(0);
    assert Ticks(f, short, 0) == f;
  }

  ghost predicate Reaches(f: Fade, level: int, short: bool) {
    exists n: nat :: !Ticks(f, short, n).active && Ticks(f, short, n).volume == level
  }

  // A fade whose last level fits stops on its target at some time exactly when the
  // target is not below the mute level and the fade has nothing to do or is not too long
  // for its difference.
  lemma FadeReachesTargetIff(f: Fade, level: int, length: int, inc: nat, short: bool)
    requires f.volume >= -10000 && length >= 100 && inc == Increment(f.volume, level, length)
    requires inc > 0 && -10000 <= level <= 32767 ==> Lands(f.volume, level, inc, short)
    ensures Reaches(StartFade(f, level, length), level, short) <==>
            -10000 <= level <= 32767 && (level == f.volume || 100 * Difference(f.volume, level) >= length)
  {
    var start, diff := StartFade(f, level, length), Difference(f.volume, level);
    IncrementBounds(f.volume, level, length);
    if level < MUTE || level > 32767 {
      forall n: nat ensures Ticks(start, short, n).active || Ticks(start, short, n).volume != level {
        StoppedAtTarget(start, short, n);
        if -32768 <= level < MUTE {
          ShortIsExact(level);
        }
      }
    } else {
      StartIsFading(f, level, length);
      if level == f.volume {
        NothingToFade(start, level, short);
      } else if inc == 0 {
        forall n: nat ensures Ticks(start, short, n).active {
          SlowFadesStall(start, f.volume, level, short, n);
        }
      } else {
        FadeLevels(start, f.volume, level, inc, short, TickCount(diff, inc));
      }
    }
  }

  // In 200 ms from 0 to 32000 the last level is the target itself, and the fade is on
  // time; in 163 ms to 32767 the ALSA driver falls back to mute on the second tick,
  // and the JACK driver arrives.
  lemma AlsaFadesWrap(f: Fade)
    requires f.volume == 0
    ensures var g := Ticks(StartFade(f, 32000, 200), true, 2); g.volume == 32000 && !g.active
    ensures var start := StartFade(f, 32767, 163);
            Ticks(start, true, 2).volume == -10000 && Ticks(start, true, 2).active
            && Ticks(start, false, 2).volume == 32767 && !Ticks(start, false, 2).active
  {
    FadeIsOnTimeIff(f, 32000, 200, 16000, true);
    assert TickCount(32000, 16000) == 2;
    FadeIsOnTimeIff(f, 32767, 163, 20102, false);
    assert TickCount(32767, 20102) == 2;
    WrapsAtSecondTick(StartFade(f, 32767, 163));
  }

  lemma WrapsAtSecondTick(start: Fade)
    requires start == Fade(0, true, 32767, 20102, true)
    ensures Ticks(start, true, 2) == start.(volume := MUTE)
  {
    assert Ticks(start, true, 0) == start;
    assert Ticks(start, true, 1) == start.(volume := 20102);
  }
}
