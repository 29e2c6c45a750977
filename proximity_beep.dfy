/**
 * The standalone proximity beep (src/hooks/useProximityBeep.ts): a single
 * periodic beep whose level, period and pitch follow the square of the
 * closeness, rescheduled from scratch whenever the distance changes.
 */
module ProximityBeep {
  import opened Wrappers
  import opened Mapping

  const BEEP_VOLUME_MAX: real := 0.5
  const INTERVAL_MAX: real := 1500.0
  const INTERVAL_MIN: real := 150.0
  const PITCH_SHIFT_MAX: real := 100.0
  const ATTACK: real := 0.01
  const DECAY: real := 0.18
  const THRESHOLD: real := 0.99

  /** Proximity factor (1 − d)². */
  function Factor(d: real): (f: real)
    ensures f >= 0.0
    ensures d == 0.0 ==> f == 1.0
    ensures d == 1.0 ==> f == 0.0
  {
    Square(1.0 - d)
  }

  /** Beep level: factor · 0.5. */
  function BeepVolume(d: real): (v: real)
    ensures v >= 0.0
    ensures d == 0.0 ==> v == BEEP_VOLUME_MAX
    ensures d == 1.0 ==> v == 0.0
  {
    Factor(d) * BEEP_VOLUME_MAX
  }

  /** Beep period in ms: 1500 − (1500 − 150) · factor. */
  function BeepInterval(d: real): (ms: real)
    ensures ms <= INTERVAL_MAX
    ensures d == 0.0 ==> ms == INTERVAL_MIN
    ensures d == 1.0 ==> ms == INTERVAL_MAX
  {
    INTERVAL_MAX - (INTERVAL_MAX - INTERVAL_MIN) * Factor(d)
  }

  /** Frequency of each tick: base + 100 · factor. */
  function TickFrequency(base: real, d: real): (hz: real)
    ensures hz >= base
    ensures d == 0.0 ==> hz == base + PITCH_SHIFT_MAX
    ensures d == 1.0 ==> hz == base
  {
    base + PITCH_SHIFT_MAX * Factor(d)
  }

  /** Within the audible band the factor lies in (0, 1]. */
  lemma FactorInBand(d: real)
    requires 0.0 <= d < THRESHOLD
    ensures 0.0 < Factor(d) <= 1.0
  {
    var u := 1.0 - d;
    assert 0.0 < u <= 1.0;
    SquareMonotone(u, 1.0);
    assert u * u > 0.0;
  }

  /** For 0 ≤ d < 0.99 the beep level lies in (0, 0.5]; it is 0.5 at d = 0. */
  lemma BeepVolumeRange(d: real)
    requires 0.0 <= d < THRESHOLD
    ensures 0.0 < BeepVolume(d) <= 0.5
    ensures d == 0.0 ==> BeepVolume(d) == 0.5
  {
    FactorInBand(d);
  }

  /** For 0 ≤ d < 0.99 the period lies in [150, 1500) ms; it is 150 ms at d = 0 and would be 1500 ms at d = 1. */
  lemma BeepIntervalRange(d: real)
    requires 0.0 <= d < THRESHOLD
    ensures INTERVAL_MIN <= BeepInterval(d) < INTERVAL_MAX
    ensures d == 0.0 ==> BeepInterval(d) == 150.0
    ensures BeepInterval(1.0) == 1500.0
  {
    FactorInBand(d);
  }

  /** Farther means slower beeps: the period never shrinks as d grows within [0, 1]. */
  lemma BeepIntervalMonotone(d: real, e: real)
    requires 0.0 <= d <= e <= 1.0
    ensures BeepInterval(d) <= BeepInterval(e)
  {
    SquareMonotone(1.0 - e, 1.0 - d);
  }

  /** Each tick's frequency lies between the base and base + 100 Hz for any d in [0, 2]. */
  lemma TickFrequencyBound(base: real, d: real)
    requires 0.0 <= d <= 2.0
    ensures base <= TickFrequency(base, d) <= base + 100.0
  {
    var u := 1.0 - d;
    if u >= 0.0 {
      SquareMonotone(u, 1.0);
    } else {
      SquareMonotone(-u, 1.0);
      assert Square(u) == Square(-u);
    }
  }

  /** Nothing clamps the distance: at d = −1 the level is 2.0 (above 0.5) and the period negative. */
  lemma NegativeDistanceUnclamped()
    ensures BeepVolume(-1.0) == 2.0
    ensures BeepInterval(-1.0) == -3900.0
  {
  }

  /** A gain value scheduled at an audio-clock time (s). */
  datatype GainPoint = GainPoint(level: real, time: real)

  /**
   * The gain envelope of one tick started at `now`: 0, then the level after
   * 10 ms, then 0 after 180 ms. Its times strictly increase, it starts and
   * ends silent, and it peaks at the beep level.
   */
  function Envelope(volume: real, now: real): (e: seq<GainPoint>)
    ensures |e| == 3
    ensures forall i, j :: 0 <= i < j < |e| ==> e[i].time < e[j].time
    ensures e[0].time == now && e[0].level == 0.0 && e[2].level == 0.0
    ensures e[1].level == volume
  {
    [GainPoint(0.0, now), GainPoint(volume, now + ATTACK), GainPoint(0.0, now + DECAY)]
  }

  /** The interval the effect installs: period, beep level and tick frequency. */
  datatype BeepSchedule = BeepSchedule(periodMs: real, volume: real, frequency: real)

  /** The interval, if any, for a source with base frequency `base` at distance `d`. */
  function ScheduleFor(base: real, d: real): (r: Option<BeepSchedule>)
    ensures r.Some? <==> d < THRESHOLD
    ensures r.Some? ==> r.value == BeepSchedule(BeepInterval(d), BeepVolume(d), TickFrequency(base, d))
  {
    if d < THRESHOLD then Some(BeepSchedule(BeepInterval(d), BeepVolume(d), TickFrequency(base, d))) else None
  }

  /**
   * Within range, a nearer source gets a schedule that beeps at least as often,
   * as loud and as high as a farther one.
   */
  lemma ScheduleCloserLouderFaster(base: real, d: real, e: real)
    requires 0.0 <= d <= e < THRESHOLD
    ensures ScheduleFor(base, d).Some? && ScheduleFor(base, e).Some?
    ensures ScheduleFor(base, d).value.periodMs <= ScheduleFor(base, e).value.periodMs
    ensures ScheduleFor(base, e).value.volume <= ScheduleFor(base, d).value.volume
    ensures ScheduleFor(base, e).value.frequency <= ScheduleFor(base, d).value.frequency
  {
    BeepIntervalMonotone(d, e);
    SquareMonotone(1.0 - e, 1.0 - d);
  }

  /** The beep of one source (`useBeepProximidad`): its single interval and the last gain it set directly. */
  class ProximityBeeper {
    /** The active interval (`intervaloBeepRef.current`), never more than one. */
    var timer: Option<BeepSchedule>
    /** The last gain set outside a tick. */
    var gain: real
    /** Every interval installed so far, oldest first. */
    ghost var started: seq<BeepSchedule>
    /** Every interval cleared so far, oldest first. */
    ghost var stopped: seq<BeepSchedule>

    /** No interval leaks: each installed interval has been cleared, except the active one. */
    ghost predicate NoLeak()
      reads this
    {
      started == stopped + (if timer.Some? then [timer.value] else [])
    }

    constructor (gain: real)
      ensures NoLeak()
      ensures timer == None && this.gain == gain
      ensures started == [] && stopped == []
    {
      timer := None;
      this.gain := gain;
      started := [];
      stopped := [];
    }

    /** `clearInterval` on the active interval, if there is one. */
    method ClearTimer()
      requires NoLeak()
      modifies this
      ensures NoLeak()
      ensures timer == None && gain == old(gain) && started == old(started)
      ensures stopped == old(stopped) + (if old(timer).Some? then [old(timer).value] else [])
    {
      if timer.Some? {
        stopped := stopped + [timer.value];
        timer := None;
      }
    }

    /** The effect: clears any interval, then installs one only inside the audible band. */
    method Reschedule(base: real, d: real)
      requires NoLeak()
      modifies this
      ensures NoLeak()
      ensures timer == ScheduleFor(base, d)
      ensures gain == old(gain)
      ensures stopped == old(stopped) + (if old(timer).Some? then [old(timer).value] else [])
      ensures started == old(started) + (if timer.Some? then [timer.value] else [])
    {
      ClearTimer();
      if d < THRESHOLD {
        var t := BeepSchedule(BeepInterval(d), BeepVolume(d), TickFrequency(base, d));
        timer := Some(t);
        started := started + [t];
      }
    }

    /** The effect's cleanup: the interval stops. */
    method Cleanup()
      requires NoLeak()
      modifies this
      ensures NoLeak()
      ensures timer == None && gain == old(gain) && started == old(started)
      ensures stopped == old(stopped) + (if old(timer).Some? then [old(timer).value] else [])
    {
      ClearTimer();
    }

    /** `detenerBeep`: no interval remains and the gain is 0; calling it again changes nothing. */
    method Stop()
      requires NoLeak()
      modifies this
      ensures NoLeak()
      ensures timer == None && gain == 0.0 && started == old(started)
      ensures stopped == old(stopped) + (if old(timer).Some? then [old(timer).value] else [])
    {
      ClearTimer();
      gain := 0.0;
    }
  }
}
