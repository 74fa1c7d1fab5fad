/**
 `normalize_angle` of `val/audio_processor.cpp`: subtract 360 while above 180,
 then add 360 while below -180. The source works on `float`; every angle the
 pipeline feeds it is a whole number of degrees (grid points -180, -175, ...,
 180 shifted by the integer corrections -110 and -15), so the model works on
 `int`, where float arithmetic on such values is exact.
 */
module Angles {

  /** The first loop: `while (angle_deg > 180) angle_deg -= 360;` */
  function WrapDown(a: int): (r: int)
    ensures r <= 180
    ensures a > 180 ==> -180 < r
    ensures a <= 180 ==> r == a
    ensures (a - r) % 360 == 0
    decreases if a > 180 then a else 180
  {
    if a > 180 then WrapDown(a - 360) else a
  }

  /** The second loop: `while (angle_deg < -180) angle_deg += 360;` */
  function WrapUp(a: int): (r: int)
    ensures r >= -180
    ensures a < -180 ==> r < 180
    ensures a >= -180 ==> r == a
    ensures (a - r) % 360 == 0
    decreases if a < -180 then -a else 180
  {
    if a < -180 then WrapUp(a + 360) else a
  }

  /**
   `normalize_angle`: the result lies in [-180, 180] and differs from the input
   by a multiple of 360; inputs above 180 land in (-180, 180], inputs below
   -180 in [-180, 180), and inputs already in [-180, 180] are returned as they are.
   */
  function NormalizeAngle(a: int): (r: int)
    ensures -180 <= r <= 180
    ensures (a - r) % 360 == 0
    ensures -180 <= a <= 180 ==> r == a
    ensures a > 180 ==> r > -180
    ensures a < -180 ==> r < 180
  {
    WrapUp(WrapDown(a))
  }

  /** A closed form of the same map, by Euclidean remainder. */
  function NormalizeRef(a: int): int
  {
    if a > 180 then (a + 179) % 360 - 179
    else if a < -180 then (a + 180) % 360 - 180
    else a
  }

  /** The loops compute the closed form. */
  lemma {:induction false} WrapDownClosedForm(a: int)
    requires a > 180
    ensures WrapDown(a) == (a + 179) % 360 - 179
    decreases a
  {
    if a - 360 > 180 {
      WrapDownClosedForm(a - 360);
      assert (a - 360 + 179) % 360 == (a + 179) % 360;
    }
  }

  lemma {:induction false} WrapUpClosedForm(a: int)
    requires a < -180
    ensures WrapUp(a) == (a + 180) % 360 - 180
    decreases -a
  {
    if a + 360 < -180 {
      WrapUpClosedForm(a + 360);
      assert (a + 360 + 180) % 360 == (a + 180) % 360;
    }
  }

  lemma NormalizeMatchesClosedForm(a: int)
    ensures NormalizeAngle(a) == NormalizeRef(a)
  {
    if a > 180 {
      WrapDownClosedForm(a);
    } else if a < -180 {
      WrapUpClosedForm(a);
    }
  }

  /** Normalizing twice is normalizing once. */
  lemma NormalizeIdempotent(a: int)
    ensures NormalizeAngle(NormalizeAngle(a)) == NormalizeAngle(a)
  {
  }

  /** 190 becomes -170, -200 becomes 160, and both ends of [-180, 180] stay put. */
  lemma NormalizeExamples()
    ensures NormalizeAngle(190) == -170
    ensures NormalizeAngle(-200) == 160
    ensures NormalizeAngle(180) == 180
    ensures NormalizeAngle(-180) == -180
    ensures NormalizeAngle(540) == 180
    ensures NormalizeAngle(-540) == -180
  {
    NormalizeMatchesClosedForm(540);
    NormalizeMatchesClosedForm(-540);
  }
}
