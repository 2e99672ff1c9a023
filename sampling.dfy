/**
 * The sampling helpers the emitter uses to pick a new particle's life, size
 * and colour. Each interpolates between two endpoints by a draw `t` from
 * [0, 1); the draw is a parameter here. Note the orientation of the source's
 * formula: `value1 * t + value2 * (1 - t)` gives `value2` at `t = 0` and
 * `value1` at `t = 1`.
 */
module Sampling {
  import opened Vectors

  /** `sample_number(value1, value2)` with the draw `t` given. */
  function SampleNumber(value1: real, value2: real, t: real): (r: real)
    ensures t == 0.0 ==> r == value2
    ensures t == 1.0 ==> r == value1
    ensures 0.0 <= t <= 1.0 && value1 <= value2 ==> value1 <= r <= value2
    ensures 0.0 <= t <= 1.0 && value2 <= value1 ==> value2 <= r <= value1
  {
    var r := value1 * t + value2 * (1.0 - t);
    // r lies on the segment: its distances to both endpoints are
    // proportional to (1 - t) and t.
    assert r - value1 == (value2 - value1) * (1.0 - t);
    assert value2 - r == (value2 - value1) * t;
    if 0.0 <= t <= 1.0 then ProductSign(value2 - value1, 1.0 - t); ProductSign(value2 - value1, t); r
    else r
  }

  /** The sign of a product whose second factor is not negative. */
  lemma ProductSign(a: real, b: real)
    requires b >= 0.0
    ensures a >= 0.0 ==> a * b >= 0.0
    ensures a <= 0.0 ==> a * b <= 0.0
  {
  }

  /** `sample_color(color1, color2)` with the draw `t` given: one draw for all channels. */
  function SampleColor(color1: Vec3, color2: Vec3, t: real): (c: Vec3)
    ensures c.x == SampleNumber(color1.x, color2.x, t)
    ensures c.y == SampleNumber(color1.y, color2.y, t)
    ensures c.z == SampleNumber(color1.z, color2.z, t)
  {
    color1.Scale(t).Plus(color2.Scale(1.0 - t))
  }

  /**
   * A colour sampled between two colours whose channels lie in [0, 255]
   * (the emitter samples between red and yellow) has its channels in [0, 255].
   */
  lemma {:induction false} SampleColorInRange(color1: Vec3, color2: Vec3, t: real)
    requires 0.0 <= t <= 1.0
    requires 0.0 <= color1.x <= 255.0 && 0.0 <= color1.y <= 255.0 && 0.0 <= color1.z <= 255.0
    requires 0.0 <= color2.x <= 255.0 && 0.0 <= color2.y <= 255.0 && 0.0 <= color2.z <= 255.0
    ensures var c := SampleColor(color1, color2, t);
            0.0 <= c.x <= 255.0 && 0.0 <= c.y <= 255.0 && 0.0 <= c.z <= 255.0
  {
  }
}
