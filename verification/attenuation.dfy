/**
 * The attenuation lookup of `utils::math::getAttenuationCoefficient`: a
 * designer-tuned step table mapping a light's "max useful distance" to the
 * linear and quadratic terms of the falloff 1 / (1 + linear*d + quadratic*d^2).
 * Distances and coefficients are exact reals here; single-precision rounding
 * of the literals is not modelled.
 */
module Attenuation {

  /** The pair stored in a light's `attenuationCoefficients` (x = linear, y = quadratic). */
  datatype Coeffs = Coeffs(linear: real, quadratic: real)

  /** Upper bounds of the buckets, in ascending order. */
  const Breakpoints: seq<real> :=
    [7.0, 13.0, 20.0, 32.0, 50.0, 65.0, 100.0, 160.0, 200.0, 325.0, 600.0, 3250.0]

  /** The coefficient pair of each bucket; the thirteenth entry is the default
      used above the last breakpoint. */
  const Buckets: seq<Coeffs> := [
    Coeffs(0.7, 1.8),
    Coeffs(0.35, 0.44),
    Coeffs(0.22, 0.2),
    Coeffs(0.14, 0.07),
    Coeffs(0.09, 0.032),
    Coeffs(0.07, 0.017),
    Coeffs(0.045, 0.0075),
    Coeffs(0.027, 0.0028),
    Coeffs(0.022, 0.0019),
    Coeffs(0.014, 0.0007),
    Coeffs(0.007, 0.0002),
    Coeffs(0.0014, 0.000007),
    Coeffs(0.0001, 0.0000001)
  ]

  /** The pair for distances past the last breakpoint. */
  const Default: Coeffs := Buckets[|Buckets| - 1]

  /** The lookup as the source writes it: a chain of `<=` tests. */
  function GetAttenuationCoefficient(maxDistance: real): (r: Coeffs)
    ensures r in Buckets
    ensures 0.0 < r.quadratic && 0.0 < r.linear
  {
    if maxDistance <= 7.0 then Coeffs(0.7, 1.8)
    else if maxDistance <= 13.0 then Coeffs(0.35, 0.44)
    else if maxDistance <= 20.0 then Coeffs(0.22, 0.2)
    else if maxDistance <= 32.0 then Coeffs(0.14, 0.07)
    else if maxDistance <= 50.0 then Coeffs(0.09, 0.032)
    else if maxDistance <= 65.0 then Coeffs(0.07, 0.017)
    else if maxDistance <= 100.0 then Coeffs(0.045, 0.0075)
    else if maxDistance <= 160.0 then Coeffs(0.027, 0.0028)
    else if maxDistance <= 200.0 then Coeffs(0.022, 0.0019)
    else if maxDistance <= 325.0 then Coeffs(0.014, 0.0007)
    else if maxDistance <= 600.0 then Coeffs(0.007, 0.0002)
    else if maxDistance <= 3250.0 then Coeffs(0.0014, 0.000007)
    else Coeffs(0.0001, 0.0000001)
  }

  /** Index of the first breakpoint at or after `from` that is at least `d`,
      or `|Breakpoints|` when there is none. */
  function FirstAtLeast(d: real, from: nat): (i: nat)
    requires from <= |Breakpoints|
    ensures from <= i <= |Breakpoints|
    ensures forall j | from <= j < i :: Breakpoints[j] < d
    ensures i < |Breakpoints| ==> d <= Breakpoints[i]
    decreases |Breakpoints| - from
  {
    if from == |Breakpoints| then from
    else if d <= Breakpoints[from] then from
    else FirstAtLeast(d, from + 1)
  }

  /** The bucket a distance falls into: the first one whose upper bound is at
      least the distance, or the default bucket past the last breakpoint. */
  function BucketIndex(d: real): (i: nat)
    ensures i < |Buckets|
    ensures forall j | 0 <= j < i :: Breakpoints[j] < d
    ensures i < |Breakpoints| ==> d <= Breakpoints[i]
  {
    FirstAtLeast(d, 0)
  }

  /** The if-chain is exactly the table lookup. */
  lemma {:induction false} LookupFollowsTable(d: real)
    ensures GetAttenuationCoefficient(d) == Buckets[BucketIndex(d)]
  {
    var i := BucketIndex(d);
    if i > 0 { assert Breakpoints[0] < d; }
    if i > 1 { assert Breakpoints[1] < d; }
    if i > 2 { assert Breakpoints[2] < d; }
    if i > 3 { assert Breakpoints[3] < d; }
    if i > 4 { assert Breakpoints[4] < d; }
    if i > 5 { assert Breakpoints[5] < d; }
    if i > 6 { assert Breakpoints[6] < d; }
    if i > 7 { assert Breakpoints[7] < d; }
    if i > 8 { assert Breakpoints[8] < d; }
    if i > 9 { assert Breakpoints[9] < d; }
    if i > 10 { assert Breakpoints[10] < d; }
    if i > 11 { assert Breakpoints[11] < d; }
  }

  /** A larger distance never falls into an earlier bucket. */
  lemma BucketIndexMonotone(d1: real, d2: real)
    requires d1 <= d2
    ensures BucketIndex(d1) <= BucketIndex(d2)
  {
  }

  /** Later buckets have coefficients no larger than earlier ones. */
  lemma BucketsNonIncreasing(i: nat, j: nat)
    requires i <= j < |Buckets|
    ensures Buckets[j].linear <= Buckets[i].linear
    ensures Buckets[j].quadratic <= Buckets[i].quadratic
  {
  }

  /** Both coefficients are positive and never grow as the max distance grows. */
  lemma AttenuationNonIncreasing(d1: real, d2: real)
    requires d1 <= d2
    ensures 0.0 < GetAttenuationCoefficient(d2).linear <= GetAttenuationCoefficient(d1).linear
    ensures 0.0 < GetAttenuationCoefficient(d2).quadratic <= GetAttenuationCoefficient(d1).quadratic
  {
    LookupFollowsTable(d1);
    LookupFollowsTable(d2);
    BucketIndexMonotone(d1, d2);
    BucketsNonIncreasing(BucketIndex(d1), BucketIndex(d2));
  }

  /** The documented sample points: 7 or less is the first bucket, exactly
      3250 is the last tabulated bucket, anything beyond is the default. */
  lemma {:induction false} AttenuationSamples(d: real)
    ensures d <= 7.0 ==> GetAttenuationCoefficient(d) == Coeffs(0.7, 1.8)
    ensures GetAttenuationCoefficient(3250.0) == Coeffs(0.0014, 0.000007)
    ensures d > 3250.0 ==> GetAttenuationCoefficient(d) == Default
    ensures 3250.0 < d <==> BucketIndex(d) == |Breakpoints|
  {
    LookupFollowsTable(d);
  }
}
