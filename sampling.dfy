/**
 The bounded distributions of the generator and the transforms applied to
 their draws.

 A truncated normal is represented the way scipy's `truncnorm(a, b, loc,
 scale)` defines it: a standard normal variable Z conditioned on
 a <= Z <= b, then shifted and scaled to loc + scale * Z. The random part
 (the value of Z) is an input to the model; everything else is arithmetic
 on `real`.
 */
module Sampling {

  datatype TruncNorm = TruncNorm(a: real, b: real, loc: real, scale: real)
  {
    /** Parameters scipy accepts: a positive scale and a truncation interval with a < b. */
    predicate Valid() {
      scale > 0.0 && a < b
    }

    /** The smallest value the distribution can produce. */
    function Lower(): real {
      loc + scale * a
    }

    /** The largest value the distribution can produce. */
    function Upper(): real {
      loc + scale * b
    }

    /** The standardised draw `z` lies in the truncation interval. */
    predicate InSupport(z: real) {
      a <= z <= b
    }

    /** `rvs()`: the value drawn when the standard normal came out as `z`. */
    function Sample(z: real): (x: real)
      requires Valid() && InSupport(z)
      ensures Lower() <= x <= Upper()
    {
      assert scale * a <= scale * z <= scale * b by {
        MulMonotone(scale, a, z);
        MulMonotone(scale, z, b);
      }
      loc + scale * z
    }
  }

  lemma MulMonotone(c: real, x: real, y: real)
    requires c > 0.0 && x <= y
    ensures c * x <= c * y
  {
    assert c * y - c * x == c * (y - x);
  }

  lemma MulStrictMonotone(c: real, x: real, y: real)
    requires c > 0.0 && x < y
    ensures c * x < c * y
  {
    assert c * y - c * x == c * (y - x);
  }

  /** Dividing by `scale` and multiplying back again gives the original value. */
  lemma ScaleRoundTrip(location: real, scale: real, clip: real)
    requires scale > 0.0
    ensures location + scale * ((clip - location) / scale) == clip
  {
    assert scale * ((clip - location) / scale) == clip - location;
  }

  /**
   `truncn_at_m1_1`: the truncation bounds are computed relative to the
   clip interval [-1, 1], so whatever the location and scale, the
   distribution's support is exactly [-1, 1].
   */
  function TruncnAtM11(location: real, scale: real): (d: TruncNorm)
    requires scale > 0.0
    ensures d.Valid()
    ensures d.loc == location && d.scale == scale
    ensures d.Lower() == -1.0 && d.Upper() == 1.0
  {
    var clipA, clipB := -1.0, 1.0;
    var d := TruncNorm((clipA - location) / scale, (clipB - location) / scale, location, scale);
    ScaleRoundTrip(location, scale, clipA);
    ScaleRoundTrip(location, scale, clipB);
    MulStrictMonotone(1.0 / scale, clipA - location, clipB - location);
    assert (clipA - location) / scale == (1.0 / scale) * (clipA - location);
    assert (clipB - location) / scale == (1.0 / scale) * (clipB - location);
    d
  }

  /** `w_dist_gen`: the edge-weight distribution N(0.5, 0.15) truncated to [0, 1]. */
  function WDistGen(): (d: TruncNorm)
    ensures d.Valid()
    ensures d.loc == 0.5 && d.scale == 0.15
    ensures d.Lower() == 0.0 && d.Upper() == 1.0
  {
    TruncNorm((0.0 - 0.5) / 0.15, (1.0 - 0.5) / 0.15, 0.5, 0.15)
  }

  /** The distribution `random_activation` draws from: N(0, 0.1) truncated to [-1, 1]. */
  function ActivationDist(): (d: TruncNorm)
    ensures d.Valid()
    ensures d.loc == 0.0 && d.scale == 0.1
    ensures d.Lower() == -1.0 && d.Upper() == 1.0
  {
    TruncNorm((-1.0 - 0.0) / 0.1, (1.0 - 0.0) / 0.1, 0.0, 0.1)
  }

  /** Probability bound under which an initial activation is exactly zero. */
  const ZERO_ACTIVATION_PROBABILITY: real := 0.5

  /**
   `random_activation`: `u` is the uniform draw from [0, 1) and `z` the
   standardised normal draw, which the source only makes when u > 0.5.
   */
  function RandomActivation(u: real, z: real): (x: real)
    requires u > ZERO_ACTIVATION_PROBABILITY ==> ActivationDist().InSupport(z)
    ensures -1.0 <= x <= 1.0
    ensures u <= ZERO_ACTIVATION_PROBABILITY ==> x == 0.0
    ensures u > ZERO_ACTIVATION_PROBABILITY ==> x == ActivationDist().Sample(z)
  {
    if u <= ZERO_ACTIVATION_PROBABILITY then 0.0 else ActivationDist().Sample(z)
  }

  /** Small positive floor added to every delta. */
  const DELTA_FLOOR: real := 0.0001

  /**
   The delta transform `|x| + 0.0001` applied to a normal draw `x`: the
   result is strictly positive and keeps the magnitude of `x`.
   */
  function Delta(x: real): (d: real)
    ensures d >= DELTA_FLOOR && d > 0.0
    ensures d - DELTA_FLOOR == x || d - DELTA_FLOOR == -x
  {
    (if x < 0.0 then -x else x) + DELTA_FLOOR
  }

  // ---------------------------------------------------------------------
  // Tables of per-cell distributions

  /** A cell's hand-specified location and scale, given to `truncn_at_m1_1`. */
  datatype Param = Param(location: real, scale: real)

  /** `t` has `rows` rows of `cols` cells each. */
  predicate Rect<T>(t: seq<seq<T>>, rows: nat, cols: nat) {
    |t| == rows && forall i :: 0 <= i < rows ==> |t[i]| == cols
  }

  /**
   Every cell of `t` has a positive scale, and `z` holds, for every cell,
   one standardised draw inside that cell's truncation interval.
   */
  predicate DrawsFit(t: seq<seq<Param>>, z: seq<seq<real>>) {
    && |z| == |t|
    && forall i :: 0 <= i < |t| ==>
         && |z[i]| == |t[i]|
         && forall j :: 0 <= j < |t[i]| ==>
              t[i][j].scale > 0.0 && TruncnAtM11(t[i][j].location, t[i][j].scale).InSupport(z[i][j])
  }

  /** The value sampled for cell (i, j) of a table of `truncn_at_m1_1` distributions. */
  function CellSample(t: seq<seq<Param>>, z: seq<seq<real>>, i: nat, j: nat): (x: real)
    requires DrawsFit(t, z) && i < |t| && j < |t[i]|
    ensures -1.0 <= x <= 1.0
  {
    TruncnAtM11(t[i][j].location, t[i][j].scale).Sample(z[i][j])
  }
}
