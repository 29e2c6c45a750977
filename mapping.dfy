/**
 * Sensory mapping for placed sources (src/hooks/useSimuladorAudioEspacial.ts):
 * from a normalised position to a 3D point, and from the distance to the
 * centre to a gain with quadratic falloff.
 */
module Mapping {
  import opened SimTypes

  /** Gain a source gets when created, when a drag starts, and at the centre (`PROXIMIDAD_VOLUMEN_BEEP_MAX`). */
  const GAIN_MAX: real := 0.5
  /** Gain at (and beyond) the edge of the plane (`volumenMin`). */
  const GAIN_MIN: real := 0.001

  /** `Math.min(Math.max(v, lo), hi)`. */
  function Clamp(v: real, lo: real, hi: real): (r: real)
    requires lo <= hi
    ensures lo <= r <= hi
    ensures lo <= v <= hi ==> r == v
    ensures v < lo ==> r == lo
    ensures hi < v ==> r == hi
  {
    if v < lo then lo else if hi < v then hi else v
  }

  /** Clamping is monotone. */
  lemma ClampMonotone(u: real, v: real, lo: real, hi: real)
    requires lo <= hi && u <= v
    ensures Clamp(u, lo, hi) <= Clamp(v, lo, hi)
  {
  }

  /** The position a 3D point on the horizontal plane came from. */
  function Unplace(v: Vec3): Position {
    Position(v.x * 0.5 + 0.5, v.z * 0.5 + 0.5)
  }

  /**
   * The 3D point of a normalised position: x = (px - 0.5)·2, y = 0, z = (py - 0.5)·2.
   * Sources stay on the horizontal plane and nothing is lost: the position can be read back.
   */
  function Placement(p: Position): (v: Vec3)
    ensures v.y == 0.0
    ensures Unplace(v) == p
  {
    assert (p.x - 0.5) * 2.0 * 0.5 + 0.5 == p.x;
    assert (p.y - 0.5) * 2.0 * 0.5 + 0.5 == p.y;
    Vec3((p.x - 0.5) * 2.0, 0.0, (p.y - 0.5) * 2.0)
  }

  /** Every point of the horizontal plane is the placement of exactly one position. */
  lemma PlacementOnto(v: Vec3)
    requires v.y == 0.0
    ensures Placement(Unplace(v)) == v
  {
    assert (v.x * 0.5 + 0.5 - 0.5) * 2.0 == v.x;
    assert (v.z * 0.5 + 0.5 - 0.5) * 2.0 == v.z;
  }

  /** The listener's point is the only position placed at the origin. */
  lemma PlacementCentre(p: Position)
    ensures p == Position(0.5, 0.5) <==> Placement(p) == Vec3(0.0, 0.0, 0.0)
  {
    if Placement(p) == Vec3(0.0, 0.0, 0.0) {
      assert p == Unplace(Vec3(0.0, 0.0, 0.0)) == Position(0.5, 0.5);
    }
  }

  /** The unit square is mapped into the [-1,1] square of the horizontal plane. */
  lemma PlacementBounds(p: Position)
    requires 0.0 <= p.x <= 1.0 && 0.0 <= p.y <= 1.0
    ensures -1.0 <= Placement(p).x <= 1.0 && -1.0 <= Placement(p).z <= 1.0
  {
  }

  /** `Math.pow(v, 2)`. */
  function Square(v: real): real {
    v * v
  }

  /** Squaring is monotone on non-negative numbers. */
  lemma SquareMonotone(u: real, v: real)
    requires 0.0 <= u <= v
    ensures Square(u) <= Square(v)
  {
    assert u * u <= u * v <= v * v;
  }

  /**
   * Gain for a source at distance `d` from the centre: 0.001 + 0.499·(1 − clamp(d, 0, 1))².
   * It never leaves [0.001, 0.5].
   */
  function SourceGain(d: real): (g: real)
    ensures GAIN_MIN <= g <= GAIN_MAX
  {
    var t := Clamp(d, 0.0, 1.0);
    SquareMonotone(0.0, 1.0 - t);
    SquareMonotone(1.0 - t, 1.0);
    GAIN_MIN + (GAIN_MAX - GAIN_MIN) * Square(1.0 - t)
  }

  /** Loudest at the centre, near silent at and beyond the edge. */
  lemma SourceGainEndpoints(d: real)
    ensures d <= 0.0 ==> SourceGain(d) == 0.5
    ensures d >= 1.0 ==> SourceGain(d) == 0.001
  {
  }

  /** The gain never increases as the distance grows. */
  lemma SourceGainMonotone(d1: real, d2: real)
    requires d1 <= d2
    ensures SourceGain(d1) >= SourceGain(d2)
  {
    var u1 := 1.0 - Clamp(d1, 0.0, 1.0);
    var u2 := 1.0 - Clamp(d2, 0.0, 1.0);
    SquareMonotone(u2, u1);
  }
}
