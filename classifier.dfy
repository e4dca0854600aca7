/** Level classifier: maps a sampled brightness in [0,100] to one of
    numLayers ordered bins (sketch.js:174-175).  Bin 0 is the darkest. */
module Classifier {

  /** The amount subtracted from numLayers so that pure white (100) stays
      inside the last bin instead of falling one bin past the end. */
  const Epsilon: real := 0.0001

  /** p5's map(v, lo1, hi1, lo2, hi2): a straight linear rescale that
      sends lo1 to lo2 and hi1 to hi2. */
  function Rescale(v: real, lo1: real, hi1: real, lo2: real, hi2: real): (r: real)
    requires lo1 != hi1
    ensures v == lo1 ==> r == lo2
    ensures v == hi1 ==> r == hi2
  {
    (v - lo1) / (hi1 - lo1) * (hi2 - lo2) + lo2
  }

  /** p5's constrain(v, lo, hi). */
  function Constrain(v: int, lo: int, hi: int): (r: int)
    requires lo <= hi
    ensures lo <= r <= hi
    ensures lo <= v <= hi ==> r == v
  {
    if v < lo then lo else if v > hi then hi else v
  }

  /** The level before clamping: floor(map(b, 0, 100, 0, numLayers - 0.0001)).
      Level r takes the brightness band where b / 100 of the numLayers - 0.0001
      scale lies in [r, r + 1). */
  function RawLevel(b: real, numLayers: int): (r: int)
    ensures r as real <= b / 100.0 * (numLayers as real - Epsilon) < r as real + 1.0
  {
    Rescale(b, 0.0, 100.0, 0.0, numLayers as real - Epsilon).Floor
  }

  /** The bin a brightness is classified into. */
  function Level(b: real, numLayers: int): (level: int)
    requires numLayers >= 1
    ensures 0 <= level < numLayers
  {
    Constrain(RawLevel(b, numLayers), 0, numLayers - 1)
  }

  /** Multiplying by a non-negative factor keeps order. */
  lemma ScaleMonotone(a: real, b: real, c: real)
    requires a <= b && 0.0 <= c
    ensures a * c <= b * c
  {
    assert b * c - a * c == (b - a) * c;
  }

  /** Flooring keeps order. */
  lemma FloorMonotone(x: real, y: real)
    requires x <= y
    ensures x.Floor <= y.Floor
  {
    assert x.Floor as real <= x;
    assert (x.Floor as real) <= y;
  }

  /** map(b, 0, 100, 0, c) is the fraction b / 100 of c. */
  lemma RescaleBrightness(b: real, c: real)
    ensures Rescale(b, 0.0, 100.0, 0.0, c) == b / 100.0 * c
  {
  }

  /** The rescaled brightness before flooring lies in [0, numLayers - Epsilon]. */
  lemma RescaledInRange(b: real, numLayers: int)
    requires 0.0 <= b <= 100.0 && numLayers >= 1
    ensures 0.0 <= Rescale(b, 0.0, 100.0, 0.0, numLayers as real - Epsilon) <= numLayers as real - Epsilon
  {
    var c := numLayers as real - Epsilon;
    var f := b / 100.0;
    assert 0.0 <= f <= 1.0 && c > 0.0;
    RescaleBrightness(b, c);
    ScaleMonotone(0.0, f, c);
    ScaleMonotone(f, 1.0, c);
    assert 0.0 * c == 0.0 && 1.0 * c == c;
  }

  /** On the brightness range the epsilon alone keeps the level in range:
      the clamp never changes a brightness in [0,100]. */
  lemma {:induction false} ClampInactive(b: real, numLayers: int)
    requires 0.0 <= b <= 100.0 && numLayers >= 1
    ensures 0 <= RawLevel(b, numLayers) <= numLayers - 1
    ensures Level(b, numLayers) == RawLevel(b, numLayers)
  {
    RescaledInRange(b, numLayers);
  }

  /** A brighter sample never lands in a darker bin. */
  lemma {:induction false} LevelMonotone(b1: real, b2: real, numLayers: int)
    requires b1 <= b2 && numLayers >= 1
    ensures Level(b1, numLayers) <= Level(b2, numLayers)
  {
    var c := numLayers as real - Epsilon;
    RescaleBrightness(b1, c);
    RescaleBrightness(b2, c);
    assert b1 / 100.0 <= b2 / 100.0;
    ScaleMonotone(b1 / 100.0, b2 / 100.0, c);
    FloorMonotone((b1 / 100.0) * c, (b2 / 100.0) * c);
  }

  /** Pure black goes to the first bin. */
  lemma BlackIsFirstLevel(numLayers: int)
    requires numLayers >= 1
    ensures Level(0.0, numLayers) == 0
  {
  }

  /** Pure white goes to the last bin, not one past it. */
  lemma WhiteIsLastLevel(numLayers: int)
    requires numLayers >= 1
    ensures Level(100.0, numLayers) == numLayers - 1
  {
    assert Rescale(100.0, 0.0, 100.0, 0.0, numLayers as real - Epsilon) == numLayers as real - Epsilon;
  }

  /** Without the epsilon, pure white would be mapped one bin past the end
      and only the clamp would bring it back. */
  lemma WhiteOverflowsWithoutEpsilon(numLayers: int)
    requires numLayers >= 1
    ensures Rescale(100.0, 0.0, 100.0, 0.0, numLayers as real).Floor == numLayers
  {
  }
}
