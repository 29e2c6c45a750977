/**
 * Sonification of the nearest detected object
 * (src/hooks/useSonificacionAvanzada.ts): pitch, volume, waveform and beep
 * tempo derived from the object's distance and type, and the effect that
 * applies them to one audio source and keeps at most one beep interval.
 */
module NearestObject {
  import opened Wrappers
  import opened SimTypes
  import opened Mapping

  /** User options, each possibly missing (`OpcionesSonificacion`). */
  datatype Options = Options(
    volumeMax: Option<real>,
    tempoMin: Option<real>,
    tempoMax: Option<real>,
    beepDuration: Option<real>,
    haptic: Option<bool>)

  /** Options with every default filled in. */
  datatype Settings = Settings(volumeMax: real, tempoMin: real, tempoMax: real, beepDuration: real, haptic: bool)

  /** The options object the hook is called with when the caller passes none (`opciones = {}`). */
  const NO_OPTIONS := Options(None, None, None, None, None)

  /** Each missing option takes its default (`??`): volume 0.7, tempo 1 to 5 Hz, beep 0.08 s, haptics on. */
  function Resolve(o: Options): (r: Settings)
    ensures r.volumeMax == if o.volumeMax.Some? then o.volumeMax.value else 0.7
    ensures r.tempoMin == if o.tempoMin.Some? then o.tempoMin.value else 1.0
    ensures r.tempoMax == if o.tempoMax.Some? then o.tempoMax.value else 5.0
    ensures r.beepDuration == if o.beepDuration.Some? then o.beepDuration.value else 0.08
    ensures r.haptic == if o.haptic.Some? then o.haptic.value else true
  {
    Settings(
      o.volumeMax.GetOr(0.7),
      o.tempoMin.GetOr(1.0),
      o.tempoMax.GetOr(5.0),
      o.beepDuration.GetOr(0.08),
      o.haptic.GetOr(true))
  }

  /** Defaults apply exactly to the missing options; a given value, even 0 or false, is kept. */
  lemma ResolveDefaults(o: Options)
    ensures Resolve(NO_OPTIONS) == Settings(0.7, 1.0, 5.0, 0.08, true)
    ensures o.volumeMax == Some(0.0) ==> Resolve(o).volumeMax == 0.0
    ensures o.haptic == Some(false) ==> !Resolve(o).haptic
    ensures o.volumeMax.Some? ==> Resolve(o).volumeMax == o.volumeMax.value
    ensures o.tempoMin.Some? ==> Resolve(o).tempoMin == o.tempoMin.value
    ensures o.tempoMax.Some? ==> Resolve(o).tempoMax == o.tempoMax.value
    ensures o.beepDuration.Some? ==> Resolve(o).beepDuration == o.beepDuration.value
    ensures o.haptic.Some? ==> Resolve(o).haptic == o.haptic.value
    ensures o.volumeMax.None? ==> Resolve(o).volumeMax == 0.7
    ensures o.tempoMin.None? ==> Resolve(o).tempoMin == 1.0
    ensures o.tempoMax.None? ==> Resolve(o).tempoMax == 5.0
    ensures o.beepDuration.None? ==> Resolve(o).beepDuration == 0.08
    ensures o.haptic.None? ==> Resolve(o).haptic
  {
  }

  // ---- the maps ----

  /**
   * Moving a fraction c of the way from `top` down to `bottom` stays between
   * the two, and moving further never ends higher.
   */
  lemma FallWithin(top: real, bottom: real, c: real, c': real)
    requires bottom <= top && 0.0 <= c <= c' <= 1.0
    ensures bottom <= top - c * (top - bottom) <= top
    ensures top - c' * (top - bottom) <= top - c * (top - bottom)
  {
    var w := top - bottom;
    assert c * w <= c' * w;
    assert c' * w <= 1.0 * w;
  }

  /** Pitch in Hz: 1200 − clamp(d, 0, 2)·450. */
  function Pitch(d: real): (hz: real)
    ensures 300.0 <= hz <= 1200.0
    ensures d <= 0.0 ==> hz == 1200.0
    ensures d >= 2.0 ==> hz == 300.0
  {
    1200.0 - Clamp(d, 0.0, 2.0) * 450.0
  }

  /** Closer is higher: 1200 Hz at or below 0, 300 Hz at or beyond 2, linear and non-increasing in between. */
  lemma PitchProperties(d: real, e: real)
    ensures d <= 0.0 ==> Pitch(d) == 1200.0
    ensures d >= 2.0 ==> Pitch(d) == 300.0
    ensures 0.0 <= d <= 2.0 ==> Pitch(d) == 1200.0 - 450.0 * d
    ensures 300.0 <= Pitch(d) <= 1200.0
    ensures d <= e ==> Pitch(e) <= Pitch(d)
  {
    if d <= e {
      ClampMonotone(d, e, 0.0, 2.0);
    }
  }

  /** Volume as the code computes it: volMax − clamp(d, 0, 2)·(volMax − 0.1). */
  function VolumeAsWritten(volumeMax: real, d: real): (v: real)
    ensures d <= 0.0 ==> v == volumeMax
    ensures d == 1.0 ==> v == 0.1
    ensures d >= 2.0 ==> v == 0.2 - volumeMax
  {
    volumeMax - Clamp(d, 0.0, 2.0) * (volumeMax - 0.1)
  }

  /**
   * The written volume reaches its floor 0.1 already at d = 1 and keeps
   * falling to 0.2 − volMax at d = 2: with the default 0.7 that is −0.5, a
   * negative gain.
   */
  lemma VolumeAsWrittenNegative(volumeMax: real)
    ensures VolumeAsWritten(volumeMax, 0.0) == volumeMax
    ensures VolumeAsWritten(volumeMax, 1.0) == 0.1
    ensures VolumeAsWritten(volumeMax, 2.0) == 0.2 - volumeMax
    ensures VolumeAsWritten(0.7, 2.0) == -0.5
  {
  }

  /**
   * Volume with the distance scaled to the [0, 2] domain: volMax − clamp(d, 0, 2)/2·(volMax − 0.1).
   * It goes from volMax at distance 0 down to 0.1 at distance 2.
   */
  function Volume(volumeMax: real, d: real): (v: real)
    ensures d <= 0.0 ==> v == volumeMax
    ensures d >= 2.0 ==> v == 0.1
  {
    volumeMax - Clamp(d, 0.0, 2.0) / 2.0 * (volumeMax - 0.1)
  }

  /** The scaled volume never leaves [0.1, volMax] (for volMax ≥ 0.1). */
  lemma VolumeRange(volumeMax: real, d: real)
    requires volumeMax >= 0.1
    ensures 0.1 <= Volume(volumeMax, d) <= volumeMax
  {
    var c := Clamp(d, 0.0, 2.0) / 2.0;
    assert 0.0 <= c <= 1.0;
    FallWithin(volumeMax, 0.1, c, c);
    assert Volume(volumeMax, d) == volumeMax - c * (volumeMax - 0.1);
  }

  /** The scaled volume never increases with distance. */
  lemma VolumeMonotone(volumeMax: real, d: real, e: real)
    requires volumeMax >= 0.1 && d <= e
    ensures Volume(volumeMax, e) <= Volume(volumeMax, d)
  {
    ClampMonotone(d, e, 0.0, 2.0);
    FallWithin(volumeMax, 0.1, Clamp(d, 0.0, 2.0) / 2.0, Clamp(e, 0.0, 2.0) / 2.0);
  }

  /** Waveform by object type: persona → triangle, pared → square, puerta → sawtooth, anything else → sine. */
  function TimbreFor(kind: Option<string>): (t: Timbre)
    ensures t == Sine <==> kind !in {Some("persona"), Some("pared"), Some("puerta")}
  {
    match kind
    case Some(k) =>
      if k == "persona" then Triangle
      else if k == "pared" then Square
      else if k == "puerta" then Sawtooth
      else Sine
    case None => Sine
  }

  /** The three named types get their waveforms; every other type, and no type, gets a sine. */
  lemma TimbreForKinds(kind: Option<string>)
    ensures TimbreFor(Some("persona")) == Triangle
    ensures TimbreFor(Some("pared")) == Square
    ensures TimbreFor(Some("puerta")) == Sawtooth
    ensures TimbreFor(kind) == Sine <==> kind !in {Some("persona"), Some("pared"), Some("puerta")}
  {
  }

  /** Beep tempo in Hz as the code computes it: tempoMax − clamp(d, 0, 2)·(tempoMax − tempoMin). */
  function TempoAsWritten(tempoMin: real, tempoMax: real, d: real): (t: real)
    ensures d <= 0.0 ==> t == tempoMax
    ensures d == 1.0 ==> t == tempoMin
    ensures d >= 2.0 ==> t == 2.0 * tempoMin - tempoMax
  {
    tempoMax - Clamp(d, 0.0, 2.0) * (tempoMax - tempoMin)
  }

  /** Beep period in ms, `1000 / tempo`; `None` where the tempo is 0 and the division yields Infinity. */
  function BeepPeriod(tempo: real): (r: Option<real>)
    ensures r.Some? <==> tempo != 0.0
  {
    if tempo == 0.0 then None else Some(1000.0 / tempo)
  }

  /**
   * With the default tempo range the written tempo is tempoMax at 0 and
   * tempoMin at 1, then reaches 0 at d = 1.25 (so `1000 / tempo` divides by
   * zero) and is negative at d = 2.
   */
  lemma TempoAsWrittenZero(tempoMin: real, tempoMax: real)
    ensures TempoAsWritten(tempoMin, tempoMax, 0.0) == tempoMax
    ensures TempoAsWritten(tempoMin, tempoMax, 1.0) == tempoMin
    ensures TempoAsWritten(1.0, 5.0, 1.25) == 0.0
    ensures BeepPeriod(TempoAsWritten(1.0, 5.0, 1.25)) == None
    ensures TempoAsWritten(1.0, 5.0, 2.0) == -3.0
  {
  }

  /**
   * Tempo with the distance scaled to the [0, 2] domain: tempoMax − clamp(d, 0, 2)/2·(tempoMax − tempoMin).
   * It goes from tempoMax at distance 0 down to tempoMin at distance 2.
   */
  function Tempo(tempoMin: real, tempoMax: real, d: real): (t: real)
    ensures d <= 0.0 ==> t == tempoMax
    ensures d >= 2.0 ==> t == tempoMin
  {
    tempoMax - Clamp(d, 0.0, 2.0) / 2.0 * (tempoMax - tempoMin)
  }

  /** A tempo between 1 and 5 Hz beeps every 200 to 1000 ms. */
  lemma PeriodBounds(t: real)
    requires 1.0 <= t <= 5.0
    ensures 200.0 <= 1000.0 / t <= 1000.0
  {
  }

  /**
   * The scaled tempo stays in [tempoMin, tempoMax] ("rango tempoMin-tempoMax
   * Hz"), reaching tempoMin at distance 2; with a positive tempoMin the beep
   * period always exists and, for the defaults, lies in [200, 1000] ms.
   */
  lemma TempoRange(tempoMin: real, tempoMax: real, d: real)
    requires tempoMin <= tempoMax
    ensures d <= 0.0 ==> Tempo(tempoMin, tempoMax, d) == tempoMax
    ensures d >= 2.0 ==> Tempo(tempoMin, tempoMax, d) == tempoMin
    ensures tempoMin <= Tempo(tempoMin, tempoMax, d) <= tempoMax
    ensures tempoMin > 0.0 ==> BeepPeriod(Tempo(tempoMin, tempoMax, d)).Some?
    ensures tempoMin == 1.0 && tempoMax == 5.0 ==>
      200.0 <= BeepPeriod(Tempo(tempoMin, tempoMax, d)).value <= 1000.0
  {
    FallWithin(tempoMax, tempoMin, Clamp(d, 0.0, 2.0) / 2.0, Clamp(d, 0.0, 2.0) / 2.0);
    if tempoMin == 1.0 && tempoMax == 5.0 {
      PeriodBounds(Tempo(tempoMin, tempoMax, d));
    }
  }

  /** Closer objects beep faster: the scaled tempo never increases with distance. */
  lemma TempoMonotone(tempoMin: real, tempoMax: real, d: real, e: real)
    requires tempoMin <= tempoMax && d <= e
    ensures Tempo(tempoMin, tempoMax, e) <= Tempo(tempoMin, tempoMax, d)
  {
    ClampMonotone(d, e, 0.0, 2.0);
    FallWithin(tempoMax, tempoMin, Clamp(d, 0.0, 2.0) / 2.0, Clamp(e, 0.0, 2.0) / 2.0);
  }

  // ---- the effect ----

  /** The single periodic beep of this channel: period, level, beep length (s) and haptic pulse switch. */
  datatype BeepTimer = BeepTimer(period: Option<real>, volume: real, beepDuration: real, haptic: bool)

  /** What one tick does: gain to `volume`, back to 0 after `offAfterMs`, and an optional vibration of that length. */
  datatype Tick = Tick(volume: real, offAfterMs: real, vibrateMs: Option<real>)

  function TickOf(t: BeepTimer): (r: Tick)
    ensures r.volume == t.volume
    ensures r.offAfterMs == t.beepDuration * 1000.0
    ensures r.vibrateMs.Some? <==> t.haptic
    ensures t.haptic ==> r.vibrateMs.value == r.offAfterMs
  {
    Tick(t.volume, t.beepDuration * 1000.0, if t.haptic then Some(t.beepDuration * 1000.0) else None)
  }

  /** Truncation toward zero, as the conversion of a number to an integer type does. */
  function Trunc(x: real): int {
    if x >= 0.0 then x.Floor else -((-x).Floor)
  }

  /**
   * The delay in ms a browser waits between ticks of `setInterval(f, period)`:
   * the period is converted to a 32-bit `long` (Infinity to 0, truncated
   * toward zero, wrapped modulo 2^32), and a negative delay is then taken as 0.
   */
  function TimerDelay(period: Option<real>): (ms: int)
    ensures 0 <= ms < 0x8000_0000
    ensures period.None? ==> ms == 0
    ensures period.Some? && 0.0 <= period.value < 2147483648.0 ==> ms == period.value.Floor
    ensures period.Some? && -2147483648.0 < period.value < 0.0 ==> ms == 0
  {
    var t := match period case None => 0 case Some(v) => Trunc(v) % 0x1_0000_0000;
    var long := if t >= 0x8000_0000 then t - 0x1_0000_0000 else t;
    if long < 0 then 0 else long
  }

  /**
   * Past distance 1.25 the written tempo is 0 or negative, so the browser runs
   * the beep interval at its minimum delay instead of not beeping.
   */
  lemma TempoAsWrittenFloodsTimer(d: real)
    requires d == 1.25 || 1.26 <= d <= 2.0
    ensures TempoAsWritten(1.0, 5.0, d) <= 0.0
    ensures TimerDelay(BeepPeriod(TempoAsWritten(1.0, 5.0, d))) == 0
  {
    var t := TempoAsWritten(1.0, 5.0, d);
    assert t == 5.0 - d * 4.0;
    if t != 0.0 {
      assert t <= -0.04;
      assert 1000.0 / t >= -25000.0 by {
        assert 1000.0 / t * t == 1000.0;
      }
    }
  }

  /**
   * The beep the effect installs for an object at distance `d` within range:
   * the scaled volume and tempo, the beep length and the haptic switch. With
   * the default tempo range the browser ticks every 200 to 1000 ms.
   */
  function BeepFor(s: Settings, d: real): (b: BeepTimer)
    ensures b.beepDuration == s.beepDuration && b.haptic == s.haptic
    ensures b.volume == Volume(s.volumeMax, d) && b.period == BeepPeriod(Tempo(s.tempoMin, s.tempoMax, d))
    ensures s.volumeMax >= 0.1 ==> 0.1 <= b.volume <= s.volumeMax
    ensures 0.0 < s.tempoMin <= s.tempoMax ==> b.period.Some? && b.period.value > 0.0
    ensures s.tempoMin == 1.0 && s.tempoMax == 5.0 ==>
      200.0 <= b.period.value <= 1000.0 && 200 <= TimerDelay(b.period) <= 1000
  {
    var t := Tempo(s.tempoMin, s.tempoMax, d);
    var v := Volume(s.volumeMax, d);
    assert s.volumeMax >= 0.1 ==> 0.1 <= v <= s.volumeMax by {
      if s.volumeMax >= 0.1 {
        VolumeRange(s.volumeMax, d);
      }
    }
    assert 0.0 < s.tempoMin <= s.tempoMax ==> 0.0 < t by {
      if 0.0 < s.tempoMin <= s.tempoMax {
        TempoRange(s.tempoMin, s.tempoMax, d);
      }
    }
    assert s.tempoMin == 1.0 && s.tempoMax == 5.0 ==> 200.0 <= BeepPeriod(t).value <= 1000.0 by {
      if s.tempoMin == 1.0 && s.tempoMax == 5.0 {
        TempoRange(s.tempoMin, s.tempoMax, d);
      }
    }
    BeepTimer(BeepPeriod(t), v, s.beepDuration, s.haptic)
  }

  /**
   * The closer the object, the louder and the faster the installed beep:
   * moving from `e` to a nearer `d` never lowers the level nor lengthens the period.
   */
  lemma BeepForCloserLouderFaster(s: Settings, d: real, e: real)
    requires s.volumeMax >= 0.1 && 0.0 < s.tempoMin <= s.tempoMax && d <= e
    ensures BeepFor(s, e).volume <= BeepFor(s, d).volume
    ensures BeepFor(s, d).period.value <= BeepFor(s, e).period.value
  {
    VolumeMonotone(s.volumeMax, d, e);
    TempoMonotone(s.tempoMin, s.tempoMax, d, e);
    TempoRange(s.tempoMin, s.tempoMax, d);
    TempoRange(s.tempoMin, s.tempoMax, e);
    var td := Tempo(s.tempoMin, s.tempoMax, d);
    var te := Tempo(s.tempoMin, s.tempoMax, e);
    PeriodAntitone(te, td);
  }

  /** A faster tempo gives a shorter period: 1000/t shrinks as a positive t grows. */
  lemma PeriodAntitone(a: real, b: real)
    requires 0.0 < a <= b
    ensures 1000.0 / b <= 1000.0 / a
  {
    var qa, qb := 1000.0 / a, 1000.0 / b;
    assert qa * a == 1000.0 && qb * b == 1000.0;
  }

  /** The audio source of the nearest-object channel and its beep interval (`fuenteAudioRef`, `beepIntervalRef`). */
  class NearestObjectChannel {
    var frequency: real
    var gain: real
    var position: Vec3
    var timbre: Timbre
    /** The active beep interval, if any. */
    var beep: Option<BeepTimer>
    /** Every interval installed so far, oldest first. */
    ghost var started: seq<BeepTimer>
    /** Every interval cleared so far, oldest first. */
    ghost var stopped: seq<BeepTimer>

    /** No interval leaks: each installed interval has been cleared, except the active one. */
    ghost predicate NoLeak()
      reads this
    {
      started == stopped + (if beep.Some? then [beep.value] else [])
    }

    /** The mount effect: a 440 Hz sine source, started at gain 0.5, with no interval. */
    constructor ()
      ensures NoLeak()
      ensures frequency == 440.0 && timbre == Sine && gain == GAIN_MAX && beep == None
      ensures position == Vec3(0.0, 0.0, 0.0)
      ensures started == [] && stopped == []
    {
      frequency := 440.0;
      timbre := Sine;
      gain := GAIN_MAX;
      position := Vec3(0.0, 0.0, 0.0);
      beep := None;
      started := [];
      stopped := [];
    }

    /** `clearInterval` on the active interval, if there is one. */
    method ClearBeep()
      requires NoLeak()
      modifies this
      ensures NoLeak()
      ensures beep == None && started == old(started)
      ensures stopped == old(stopped) + (if old(beep).Some? then [old(beep).value] else [])
      ensures frequency == old(frequency) && gain == old(gain) && position == old(position) && timbre == old(timbre)
    {
      if beep.Some? {
        stopped := stopped + [beep.value];
      }
      beep := None;
    }

    /**
     * The update effect. No object: mute and clear the interval. Otherwise
     * set pitch, 3D position and waveform, clear any previous interval, and
     * mute; then, unless the distance exceeds 2, install one new interval.
     */
    method Update(obj: Option<NearbyObject>, opts: Options)
      requires NoLeak()
      modifies this
      ensures NoLeak()
      ensures gain == 0.0
      ensures stopped == old(stopped) + (if old(beep).Some? then [old(beep).value] else [])
      ensures started == old(started) + (if beep.Some? then [beep.value] else [])
      ensures obj.None? ==>
        && beep == None
        && frequency == old(frequency) && position == old(position) && timbre == old(timbre)
      ensures obj.Some? ==>
        var o := obj.value;
        && frequency == Pitch(o.distance)
        && position == Placement(o.position)
        && timbre == TimbreFor(o.kind)
        && beep == (if o.distance > 2.0 then None else Some(BeepFor(Resolve(opts), o.distance)))
    {
      if obj.None? {
        gain := 0.0;
        ClearBeep();
        return;
      }
      var o := obj.value;
      var s := Resolve(opts);
      frequency := Pitch(o.distance);
      position := Placement(o.position);
      timbre := TimbreFor(o.kind);
      ClearBeep();
      if o.distance > 2.0 {
        gain := 0.0;
        return;
      }
      gain := 0.0;
      var b := BeepFor(s, o.distance);
      beep := Some(b);
      started := started + [b];
    }

    /** The mount effect's cleanup: the interval stops (the disconnect of the audio source is not recorded). */
    method Unmount()
      requires NoLeak()
      modifies this
      ensures NoLeak()
      ensures beep == None && started == old(started)
      ensures stopped == old(stopped) + (if old(beep).Some? then [old(beep).value] else [])
      ensures frequency == old(frequency) && gain == old(gain) && position == old(position) && timbre == old(timbre)
    {
      ClearBeep();
    }
  }
}
