/** `NeoBeam.gen_beams`: `num` beam angles spread over a 100 degree arc around a
    base angle. Angles are exact rationals here. The later snapshot fires the fan
    from the boss at a random base angle (an input); the earlier one fires it from
    the player, around the player's facing angle. */
module Fan {

  /** `angle_step`: the arc divided into `num - 1` equal gaps, or 0 for at most one beam. */
  function AngleStep(num: int): real
  {
    if num > 1 then 100.0 / (num - 1) as real else 0.0
  }

  /** `spread_angle` of beam `i`: its offset from the base angle. */
  function Spread(num: int, i: int): real
  {
    -50.0 + i as real * AngleStep(num)
  }

  /** The `num` headings of a fan around `base`, in generation order. */
  function FanAngles(base: real, num: nat): seq<real>
  {
    seq(num, i => base + Spread(num, i))
  }

  /** `gen_beams`: the final angle of each generated beam, in generation order.
      `range(num)` is empty for `num <= 0`. */
  method GenBeams(base: real, num: int) returns (angles: seq<real>)
    ensures |angles| == if num > 0 then num else 0
    ensures forall i :: 0 <= i < |angles| ==> angles[i] == base + Spread(num, i)
    ensures num >= 0 ==> angles == FanAngles(base, num)
    ensures num > 1 ==> angles[0] == base - 50.0 && angles[num - 1] == base + 50.0
    ensures num == 1 ==> angles == [base - 50.0]
  {
    angles := [];
    var step := if num > 1 then 100.0 / (num - 1) as real else 0.0;
    var i := 0;
    while i < num
      invariant 0 <= i && (num > 0 ==> i <= num) && (num <= 0 ==> i == 0)
      invariant |angles| == i
      invariant forall j :: 0 <= j < i ==> angles[j] == base + Spread(num, j)
    {
      var spread := -50.0 + i as real * step;
      angles := angles + [base + spread];
      i := i + 1;
    }
    if num > 1 {
      FanEndpoints(num);
    }
  }

  /** For more than one beam the offsets run from -50 to +50 inclusive. */
  lemma FanEndpoints(num: int)
    requires num > 1
    ensures Spread(num, 0) == -50.0 && Spread(num, num - 1) == 50.0
  {
    var n := (num - 1) as real;
    calc {
      Spread(num, num - 1);
      -50.0 + n * (100.0 / n);
      { assert n * (100.0 / n) == 100.0; }
      50.0;
    }
  }

  /** Neighbouring offsets differ by the same step, and the steps fill the arc. */
  lemma FanEvenlySpaced(num: int, i: int)
    requires num > 1 && 0 <= i < num - 1
    ensures Spread(num, i + 1) - Spread(num, i) == AngleStep(num)
    ensures AngleStep(num) * (num - 1) as real == 100.0
  {
    var n := (num - 1) as real;
    assert AngleStep(num) * n == 100.0;
    assert (i + 1) as real * AngleStep(num) == i as real * AngleStep(num) + AngleStep(num);
  }

  /** Every offset lies on the arc [-50, +50]. */
  lemma FanWithinArc(num: int, i: int)
    requires 0 <= i < num
    ensures -50.0 <= Spread(num, i) <= 50.0
  {
    if num > 1 {
      var n := (num - 1) as real;
      assert AngleStep(num) * n == 100.0;
      assert i as real * AngleStep(num) <= n * AngleStep(num);
    }
  }

  /** The boss's fan of three: -50, 0 and +50 around the base angle. */
  lemma ThreeBeamFan()
    ensures Spread(3, 0) == -50.0 && Spread(3, 1) == 0.0 && Spread(3, 2) == 50.0
  {
  }

  /** The player's fan of five in the earlier snapshot: -50, -25, 0, 25, 50. */
  lemma FiveBeamFan()
    ensures Spread(5, 0) == -50.0 && Spread(5, 1) == -25.0 && Spread(5, 2) == 0.0
    ensures Spread(5, 3) == 25.0 && Spread(5, 4) == 50.0
  {
  }

  /** `math.degrees(math.atan2(-vy, vx))` for the eight facing directions
      (screen y grows downwards, so "up" is +90). */
  function FacingDegrees(d: (int, int)): real
  {
    match d
    case (1, 0) => 0.0
    case (1, -1) => 45.0
    case (0, -1) => 90.0
    case (-1, -1) => 135.0
    case (-1, 0) => 180.0
    case (-1, 1) => -135.0
    case (0, 1) => -90.0
    case (1, 1) => -45.0
    case _ => 0.0
  }
}
