/** The distance metrics of the library (DistanceMetric.java). Each one checks
    both vectors and then accumulates over the feature slots [0, len - 1); the
    trailing label slot never takes part. */
module DistanceMetric {
  import opened Wrappers
  import opened Doubles
  import NormalizationFunction

  /** The built-in metrics. Math.sqrt is a parameter of EUCLIDEAN_DISTANCE. */
  datatype Metric =
    | Hamming
    | EuclideanSquare
    | Euclidean(sqrt: real -> real)
    | Manhattan

  /** What validateInputVectors decides: each vector on its own, then the lengths. */
  function PairValidation(u: seq<real>, v: seq<real>): Outcome {
    match NormalizationFunction.Validation(u)
    case Fail(e) => Fail(e)
    case Pass =>
      match NormalizationFunction.Validation(v)
      case Fail(e) => Fail(e)
      case Pass => if |u| != |v| then Fail(IllegalArgument) else Pass
  }

  /** The vectors a metric accepts. */
  predicate Comparable(u: seq<real>, v: seq<real>) {
    |u| == |v| && |u| >= 1 && NormalizationFunction.AllFinite(u) && NormalizationFunction.AllFinite(v)
  }

  method ValidateInputVectors(u: seq<real>, v: seq<real>) returns (r: Outcome)
    ensures r == PairValidation(u, v)
    ensures r.Pass? <==> Comparable(u, v)
  {
    r := NormalizationFunction.ValidateInputVector(u);
    if r.Fail? { return; }
    r := NormalizationFunction.ValidateInputVector(v);
    if r.Fail? { return; }
    if |u| != |v| {
      return Fail(IllegalArgument);
    }
  }

  // ---------------------------------------------------------------------------
  // The accumulations over the first n slots, in loop order.

  /** `distance += 1.0` for every slot below n where the vectors differ. */
  function Mismatches(u: seq<real>, v: seq<real>, n: nat): real
    requires n <= |u| && n <= |v|
  {
    if n == 0 then 0.0
    else Mismatches(u, v, n - 1) + (if u[n - 1] != v[n - 1] then 1.0 else 0.0)
  }

  /** `distance += d * d` with `d = vec1[i] - vec2[i]`. */
  function SquaredDiffs(u: seq<real>, v: seq<real>, n: nat): real
    requires n <= |u| && n <= |v|
  {
    if n == 0 then 0.0
    else SquaredDiffs(u, v, n - 1) + (u[n - 1] - v[n - 1]) * (u[n - 1] - v[n - 1])
  }

  /** `distance += Math.abs(vec1[i] - vec2[i])`. */
  function AbsDiffs(u: seq<real>, v: seq<real>, n: nat): real
    requires n <= |u| && n <= |v|
  {
    if n == 0 then 0.0
    else AbsDiffs(u, v, n - 1) + Abs(u[n - 1] - v[n - 1])
  }

  /** The distance a metric computes on two vectors it accepts. */
  function DistanceOf(m: Metric, u: seq<real>, v: seq<real>): real
    requires |u| == |v| && |u| >= 1
  {
    var n := |u| - 1;
    match m
    case Hamming => Mismatches(u, v, n)
    case EuclideanSquare => SquaredDiffs(u, v, n)
    case Euclidean(sqrt) => sqrt(SquaredDiffs(u, v, n))
    case Manhattan => AbsDiffs(u, v, n)
  }

  /** `measure(vec1, vec2)`: the rejection, or the distance. */
  function MeasureOf(m: Metric, u: seq<real>, v: seq<real>): Result<real> {
    match PairValidation(u, v)
    case Fail(e) => Err(e)
    case Pass => Ok(DistanceOf(m, u, v))
  }

  // ---------------------------------------------------------------------------
  // The metrics as the library runs them.

  method HammingDistance(u: seq<real>, v: seq<real>) returns (r: Result<real>)
    ensures r == MeasureOf(Hamming, u, v)
  {
    var ok := ValidateInputVectors(u, v);
    if ok.Fail? { return Err(ok.error); }
    var distance := 0.0;
    for feature := 0 to |u| - 1
      invariant distance == Mismatches(u, v, feature)
    {
      if u[feature] != v[feature] {
        distance := distance + 1.0;
      }
    }
    return Ok(distance);
  }

  method EuclideanDistanceSquare(u: seq<real>, v: seq<real>) returns (r: Result<real>)
    ensures r == MeasureOf(EuclideanSquare, u, v)
  {
    var ok := ValidateInputVectors(u, v);
    if ok.Fail? { return Err(ok.error); }
    var distance := 0.0;
    for feature := 0 to |u| - 1
      invariant distance == SquaredDiffs(u, v, feature)
    {
      var d := u[feature] - v[feature];
      distance := distance + d * d;
    }
    return Ok(distance);
  }

  /** EUCLIDEAN_DISTANCE: the square root of EUCLIDEAN_DISTANCE_SQUARE. */
  method EuclideanDistance(sqrt: real -> real, u: seq<real>, v: seq<real>) returns (r: Result<real>)
    ensures r == MeasureOf(Euclidean(sqrt), u, v)
  {
    r := EuclideanDistanceSquare(u, v);
    if r.Ok? {
      r := Ok(sqrt(r.value));
    }
  }

  method ManhattanDistance(u: seq<real>, v: seq<real>) returns (r: Result<real>)
    ensures r == MeasureOf(Manhattan, u, v)
  {
    var ok := ValidateInputVectors(u, v);
    if ok.Fail? { return Err(ok.error); }
    var distance := 0.0;
    for feature := 0 to |u| - 1
      invariant distance == AbsDiffs(u, v, feature)
    {
      distance := distance + Abs(u[feature] - v[feature]);
    }
    return Ok(distance);
  }

  /** `distanceMetric.measure(vec1, vec2)` for the configured metric. */
  method Measure(m: Metric, u: seq<real>, v: seq<real>) returns (r: Result<real>)
    ensures r == MeasureOf(m, u, v)
    ensures r.Ok? <==> Comparable(u, v)
  {
    match m
    case Hamming => r := HammingDistance(u, v);
    case EuclideanSquare => r := EuclideanDistanceSquare(u, v);
    case Euclidean(sqrt) => r := EuclideanDistance(sqrt, u, v);
    case Manhattan => r := ManhattanDistance(u, v);
  }

  // ---------------------------------------------------------------------------
  // Properties of the metrics.

  /** The rejection reasons, in the order validateInputVectors finds them. */
  lemma PairValidationCases(u: seq<real>, v: seq<real>)
    ensures |u| == 0 ==> PairValidation(u, v) == Fail(IllegalArgument)
    ensures |u| > 0 && !NormalizationFunction.AllFinite(u) ==> PairValidation(u, v) == Fail(Arithmetic)
    ensures NormalizationFunction.Validation(u).Pass? && NormalizationFunction.Validation(v).Fail? ==>
              PairValidation(u, v) == NormalizationFunction.Validation(v)
    ensures NormalizationFunction.Validation(u).Pass? && NormalizationFunction.Validation(v).Pass? ==>
              (PairValidation(u, v).Pass? <==> |u| == |v|)
  {
  }

  /** validateInputVectors accepts exactly the comparable pairs, and rejects the
      others with an IllegalArgumentException or an ArithmeticException. */
  lemma ComparableExactly(m: Metric, u: seq<real>, v: seq<real>)
    ensures PairValidation(u, v).Pass? <==> Comparable(u, v)
    ensures MeasureOf(m, u, v).Ok? <==> Comparable(u, v)
    ensures PairValidation(u, v).Fail? ==>
              PairValidation(u, v).error == IllegalArgument || PairValidation(u, v).error == Arithmetic
  {
  }

  /** The slots below n where the vectors differ. */
  function MismatchSet(u: seq<real>, v: seq<real>, n: nat): set<nat>
    requires n <= |u| && n <= |v|
  {
    set i: nat | i < n && u[i] != v[i]
  }

  /** HAMMING counts the differing feature slots. */
  lemma {:induction false} MismatchesCount(u: seq<real>, v: seq<real>, n: nat)
    requires n <= |u| && n <= |v|
    ensures Mismatches(u, v, n) == |MismatchSet(u, v, n)| as real
    ensures |MismatchSet(u, v, n)| <= n
  {
    if n > 0 {
      MismatchesCount(u, v, n - 1);
      var prev := MismatchSet(u, v, n - 1);
      if u[n - 1] != v[n - 1] {
        assert MismatchSet(u, v, n) == prev + {n - 1};
        assert n - 1 !in prev;
      } else {
        assert MismatchSet(u, v, n) == prev;
      }
    }
  }

  /** HAMMING lies in [0, len - 1]; it is 0 exactly when the feature slots agree
      and len - 1 exactly when they all differ. */
  lemma {:induction false} HammingRange(u: seq<real>, v: seq<real>, n: nat)
    requires n <= |u| && n <= |v|
    ensures 0.0 <= Mismatches(u, v, n) <= n as real
    ensures Mismatches(u, v, n) == 0.0 <==> forall i :: 0 <= i < n ==> u[i] == v[i]
    ensures Mismatches(u, v, n) == n as real <==> forall i :: 0 <= i < n ==> u[i] != v[i]
  {
    if n > 0 {
      HammingRange(u, v, n - 1);
    }
  }

  lemma {:induction false} SquaredDiffsNonNegative(u: seq<real>, v: seq<real>, n: nat)
    requires n <= |u| && n <= |v|
    ensures SquaredDiffs(u, v, n) >= 0.0
    ensures SquaredDiffs(u, v, n) == 0.0 ==> forall i :: 0 <= i < n ==> u[i] == v[i]
  {
    if n > 0 {
      SquaredDiffsNonNegative(u, v, n - 1);
      var d := u[n - 1] - v[n - 1];
      SquareNonNegative(d);
      if SquaredDiffs(u, v, n) == 0.0 {
        MulZero(d, d);
      }
    }
  }

  lemma {:induction false} SquaredDiffsOfEqual(u: seq<real>, v: seq<real>, n: nat)
    requires n <= |u| && n <= |v|
    requires forall i :: 0 <= i < n ==> u[i] == v[i]
    ensures SquaredDiffs(u, v, n) == 0.0
  {
    if n > 0 {
      SquaredDiffsOfEqual(u, v, n - 1);
    }
  }

  lemma {:induction false} AbsDiffsNonNegative(u: seq<real>, v: seq<real>, n: nat)
    requires n <= |u| && n <= |v|
    ensures AbsDiffs(u, v, n) >= 0.0
    ensures AbsDiffs(u, v, n) == 0.0 <==> forall i :: 0 <= i < n ==> u[i] == v[i]
  {
    if n > 0 {
      AbsDiffsNonNegative(u, v, n - 1);
    }
  }

  /** Every accumulation is symmetric in its two vectors. */
  lemma {:induction false} AccumulationsSymmetric(u: seq<real>, v: seq<real>, n: nat)
    requires n <= |u| && n <= |v|
    ensures Mismatches(u, v, n) == Mismatches(v, u, n)
    ensures SquaredDiffs(u, v, n) == SquaredDiffs(v, u, n)
    ensures AbsDiffs(u, v, n) == AbsDiffs(v, u, n)
  {
    if n > 0 {
      AccumulationsSymmetric(u, v, n - 1);
      var d := u[n - 1] - v[n - 1];
      assert d * d == (-d) * (-d);
    }
  }

  /** An accumulation over the first n slots only reads those slots. */
  lemma {:induction false} AccumulationsLocal(u: seq<real>, v: seq<real>, u': seq<real>, v': seq<real>, n: nat)
    requires n <= |u| && n <= |v| && n <= |u'| && n <= |v'|
    requires u[..n] == u'[..n] && v[..n] == v'[..n]
    ensures Mismatches(u, v, n) == Mismatches(u', v', n)
    ensures SquaredDiffs(u, v, n) == SquaredDiffs(u', v', n)
    ensures AbsDiffs(u, v, n) == AbsDiffs(u', v', n)
  {
    if n > 0 {
      assert u[..n - 1] == u[..n][..n - 1] && u'[..n - 1] == u'[..n][..n - 1];
      assert v[..n - 1] == v[..n][..n - 1] && v'[..n - 1] == v'[..n][..n - 1];
      assert u[n - 1] == u[..n][n - 1] && u'[n - 1] == u'[..n][n - 1];
      assert v[n - 1] == v[..n][n - 1] && v'[n - 1] == v'[..n][n - 1];
      AccumulationsLocal(u, v, u', v', n - 1);
    }
  }

  /** Every metric is symmetric. */
  lemma Symmetric(m: Metric, u: seq<real>, v: seq<real>)
    requires |u| == |v| && |u| >= 1
    ensures DistanceOf(m, u, v) == DistanceOf(m, v, u)
    ensures MeasureOf(m, u, v) == MeasureOf(m, v, u)
  {
    AccumulationsSymmetric(u, v, |u| - 1);
  }

  /** HAMMING, EUCLIDEAN_DISTANCE_SQUARE and MANHATTAN are non-negative and are 0
      exactly when the feature slots agree; EUCLIDEAN_DISTANCE is the square root
      of EUCLIDEAN_DISTANCE_SQUARE. */
  lemma ZeroExactlyOnEqualFeatures(m: Metric, u: seq<real>, v: seq<real>)
    requires |u| == |v| && |u| >= 1
    ensures !m.Euclidean? ==> DistanceOf(m, u, v) >= 0.0
    ensures !m.Euclidean? ==>
              (DistanceOf(m, u, v) == 0.0 <==> NormalizationFunction.Features(u) == NormalizationFunction.Features(v))
    ensures m.Euclidean? ==> DistanceOf(m, u, v) == m.sqrt(DistanceOf(EuclideanSquare, u, v))
  {
    var n := |u| - 1;
    HammingRange(u, v, n);
    SquaredDiffsNonNegative(u, v, n);
    AbsDiffsNonNegative(u, v, n);
    if forall i :: 0 <= i < n ==> u[i] == v[i] {
      SquaredDiffsOfEqual(u, v, n);
      assert u[..n] == v[..n];
    }
  }

  /** The label slot never matters: vectors with the same features are as far
      from any third vector, and a vector whose features agree with another's is
      at HAMMING, squared Euclidean and MANHATTAN distance 0 from it. */
  lemma LabelSlotIgnored(m: Metric, u: seq<real>, u': seq<real>, v: seq<real>)
    requires |u| == |u'| == |v| && |u| >= 1
    requires NormalizationFunction.Features(u) == NormalizationFunction.Features(u')
    ensures DistanceOf(m, u, v) == DistanceOf(m, u', v)
    ensures !m.Euclidean? ==> DistanceOf(m, u, u') == 0.0
  {
    var n := |u| - 1;
    AccumulationsLocal(u, v, u', v, n);
    ZeroExactlyOnEqualFeatures(m, u, u');
  }

  /** HAMMING and MANHATTAN satisfy the triangle inequality. */
  lemma {:induction false} TriangleInequality(u: seq<real>, v: seq<real>, w: seq<real>, n: nat)
    requires n <= |u| && n <= |v| && n <= |w|
    ensures Mismatches(u, w, n) <= Mismatches(u, v, n) + Mismatches(v, w, n)
    ensures AbsDiffs(u, w, n) <= AbsDiffs(u, v, n) + AbsDiffs(v, w, n)
  {
    if n > 0 {
      TriangleInequality(u, v, w, n - 1);
    }
  }
}
