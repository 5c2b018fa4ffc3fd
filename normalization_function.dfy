/** The input normalizers of the library (NormalizationFunction.java): each one
    checks its vector first and then rewrites the feature slots [0, len - 1) in
    place, leaving the trailing label slot alone. */
module NormalizationFunction {
  import opened Wrappers
  import opened Doubles

  /** The built-in normalizers. Math.sqrt is a parameter of the two that use it. */
  datatype Normalizer =
    | MinMax
    | Mean
    | ZScore(sqrt: real -> real)
    | UnitLenScale(sqrt: real -> real)

  predicate AllFinite(v: seq<real>) {
    forall i :: 0 <= i < |v| ==> IsFinite(v[i])
  }

  /** What validateInputVector decides about a vector. */
  function Validation(v: seq<real>): Outcome {
    if |v| == 0 then Fail(IllegalArgument)
    else if !AllFinite(v) then Fail(Arithmetic)
    else Pass
  }

  /** validateInputVector: rejects an empty vector, then scans for a NaN or
      infinite element. */
  method ValidateInputVector(input: seq<real>) returns (r: Outcome)
    ensures r == Validation(input)
    ensures r.Pass? <==> |input| > 0 && AllFinite(input)
  {
    if |input| == 0 {
      return Fail(IllegalArgument);
    }
    var i := 0;
    while i < |input|
      invariant 0 <= i <= |input|
      invariant forall j :: 0 <= j < i ==> IsFinite(input[j])
    {
      if !IsFinite(input[i]) {
        return Fail(Arithmetic);
      }
      i := i + 1;
    }
    return Pass;
  }

  // ---------------------------------------------------------------------------
  // Accumulations over a prefix, in the order the Java loops run.

  /** The feature slots of a vector: all but the last. */
  function Features(v: seq<real>): seq<real>
    requires |v| >= 1
  {
    v[..|v| - 1]
  }

  /** `acc = Math.min(acc, x)` over s, left to right. */
  function FoldMin(acc: real, s: seq<real>): real
    decreases |s|
  {
    if |s| == 0 then acc else Min(FoldMin(acc, s[..|s| - 1]), s[|s| - 1])
  }

  /** `acc = Math.max(acc, x)` over s, left to right. */
  function FoldMax(acc: real, s: seq<real>): real
    decreases |s|
  {
    if |s| == 0 then acc else Max(FoldMax(acc, s[..|s| - 1]), s[|s| - 1])
  }

  function Sum(s: seq<real>): real
    decreases |s|
  {
    if |s| == 0 then 0.0 else Sum(s[..|s| - 1]) + s[|s| - 1]
  }

  /** The sum of (x - a)^2 over s. */
  function SumSq(s: seq<real>, a: real): real
    decreases |s|
  {
    if |s| == 0 then 0.0
    else SumSq(s[..|s| - 1], a) + (s[|s| - 1] - a) * (s[|s| - 1] - a)
  }

  /** The arithmetic mean over the feature slots, `xAvg /= input.length - 1`. */
  function FeatureMean(v: seq<real>): real
    requires |v| >= 1
  {
    DivDouble(Sum(Features(v)), (|v| - 1) as real)
  }

  /** Rewrites the feature slots by `x -> (x - shift) / scale`; keeps the label. */
  function Rescaled(v: seq<real>, shift: real, scale: real): (r: seq<real>)
    requires |v| >= 1
    ensures |r| == |v| && r[|v| - 1] == v[|v| - 1]
  {
    seq(|v|, i requires 0 <= i < |v| => if i < |v| - 1 then DivDouble(v[i] - shift, scale) else v[i])
  }

  // ---------------------------------------------------------------------------
  // The normalizers as functions of the vector they receive.

  /** MIN_MAX: xMin starts at Double.MAX_VALUE, xMax at Double.MIN_VALUE. */
  function MinMaxOf(v: seq<real>): seq<real>
    requires |v| >= 1
  {
    var xMin := FoldMin(MaxValue, Features(v));
    var xMax := FoldMax(MinValue, Features(v));
    Rescaled(v, xMin, xMax - xMin)
  }

  /** MEAN: (x - average) / (xMax - xMin), with the same starting values. */
  function MeanOf(v: seq<real>): seq<real>
    requires |v| >= 1
  {
    var xMin := FoldMin(MaxValue, Features(v));
    var xMax := FoldMax(MinValue, Features(v));
    Rescaled(v, FeatureMean(v), xMax - xMin)
  }

  /** The population variance over the feature slots. */
  function FeatureVariance(v: seq<real>): real
    requires |v| >= 1
  {
    DivDouble(SumSq(Features(v), FeatureMean(v)), (|v| - 1) as real)
  }

  /** Z_SCORE: (x - average) / sqrt(population variance). */
  function ZScoreOf(v: seq<real>, sqrt: real -> real): seq<real>
    requires |v| >= 1
  {
    Rescaled(v, FeatureMean(v), sqrt(FeatureVariance(v)))
  }

  /** UNIT_LEN_SCALE: x / sqrt(sum of squares). */
  function UnitLenScaleOf(v: seq<real>, sqrt: real -> real): seq<real>
    requires |v| >= 1
  {
    Rescaled(v, 0.0, sqrt(SumSq(Features(v), 0.0)))
  }

  function Apply(n: Normalizer, v: seq<real>): seq<real>
    requires |v| >= 1
  {
    match n
    case MinMax => MinMaxOf(v)
    case Mean => MeanOf(v)
    case ZScore(sqrt) => ZScoreOf(v, sqrt)
    case UnitLenScale(sqrt) => UnitLenScaleOf(v, sqrt)
  }

  /** `normalize(input)` on a vector value: the rejected input, or the new one. */
  function NormalizeOf(n: Normalizer, v: seq<real>): (r: Result<seq<real>>)
    ensures r.Ok? ==> |v| >= 1 && |r.value| == |v| && r.value[|v| - 1] == v[|v| - 1]
  {
    match Validation(v)
    case Fail(e) => Err(e)
    case Pass => Ok(Apply(n, v))
  }

  // ---------------------------------------------------------------------------
  // The normalizers in place, as the library runs them.

  method MinMaxNormalize(input: array<real>) returns (r: Outcome)
    modifies input
    ensures r == Validation(old(input[..]))
    ensures r.Fail? ==> input[..] == old(input[..])
    ensures r.Pass? ==> input[..] == MinMaxOf(old(input[..]))
  {
    r := ValidateInputVector(input[..]);
    if r.Fail? { return; }
    var xMin, xMax := FeatureRange(input);
    var d := xMax - xMin;
    RescaleInPlace(input, xMin, d);
  }

  method MeanNormalize(input: array<real>) returns (r: Outcome)
    modifies input
    ensures r == Validation(old(input[..]))
    ensures r.Fail? ==> input[..] == old(input[..])
    ensures r.Pass? ==> input[..] == MeanOf(old(input[..]))
  {
    r := ValidateInputVector(input[..]);
    if r.Fail? { return; }
    var n := input.Length;
    var xMin, xMax := FeatureRange(input);
    var xAvg := FeatureSum(input);
    xAvg := DivDouble(xAvg, (n - 1) as real);
    var d := xMax - xMin;
    RescaleInPlace(input, xAvg, d);
  }

  method ZScoreNormalize(input: array<real>, sqrt: real -> real) returns (r: Outcome)
    modifies input
    ensures r == Validation(old(input[..]))
    ensures r.Fail? ==> input[..] == old(input[..])
    ensures r.Pass? ==> input[..] == ZScoreOf(old(input[..]), sqrt)
  {
    r := ValidateInputVector(input[..]);
    if r.Fail? { return; }
    var n := input.Length;
    var xAvg := FeatureSum(input);
    xAvg := DivDouble(xAvg, (n - 1) as real);
    var variance := FeatureSquares(input, xAvg);
    variance := DivDouble(variance, (n - 1) as real);
    var stdDev := sqrt(variance);
    RescaleInPlace(input, xAvg, stdDev);
  }

  method UnitLenScaleNormalize(input: array<real>, sqrt: real -> real) returns (r: Outcome)
    modifies input
    ensures r == Validation(old(input[..]))
    ensures r.Fail? ==> input[..] == old(input[..])
    ensures r.Pass? ==> input[..] == UnitLenScaleOf(old(input[..]), sqrt)
  {
    r := ValidateInputVector(input[..]);
    if r.Fail? { return; }
    var squareSum := FeatureSquares(input, 0.0);
    var vecLen := sqrt(squareSum);
    RescaleInPlace(input, 0.0, vecLen);
  }

  /** `xMin = Math.min(xMin, x)` and `xMax = Math.max(xMax, x)` over the feature
      slots, from Double.MAX_VALUE and Double.MIN_VALUE. */
  method FeatureRange(input: array<real>) returns (xMin: real, xMax: real)
    requires input.Length >= 1
    ensures xMin == FoldMin(MaxValue, Features(input[..]))
    ensures xMax == FoldMax(MinValue, Features(input[..]))
  {
    var n := input.Length;
    xMin, xMax := MaxValue, MinValue;
    for i := 0 to n - 1
      invariant xMin == FoldMin(MaxValue, input[..i])
      invariant xMax == FoldMax(MinValue, input[..i])
    {
      assert input[..i + 1][..i] == input[..i];
      xMin := Min(xMin, input[i]);
      xMax := Max(xMax, input[i]);
    }
    assert input[..n - 1] == Features(input[..]);
  }

  /** `xAvg += input[i]` over the feature slots. */
  method FeatureSum(input: array<real>) returns (total: real)
    requires input.Length >= 1
    ensures total == Sum(Features(input[..]))
  {
    var n := input.Length;
    total := 0.0;
    for i := 0 to n - 1
      invariant total == Sum(input[..i])
    {
      assert input[..i + 1][..i] == input[..i];
      total := total + input[i];
    }
    assert input[..n - 1] == Features(input[..]);
  }

  /** `acc += (x - a) * (x - a)` over the feature slots (a = 0 gives `x * x`). */
  method FeatureSquares(input: array<real>, a: real) returns (total: real)
    requires input.Length >= 1
    ensures total == SumSq(Features(input[..]), a)
  {
    var n := input.Length;
    total := 0.0;
    for i := 0 to n - 1
      invariant total == SumSq(input[..i], a)
    {
      var x := input[i];
      SumSqSnoc(input[..], i, a);
      total := total + (x - a) * (x - a);
    }
    assert input[..n - 1] == Features(input[..]);
  }

  lemma SumSqSnoc(s: seq<real>, i: nat, a: real)
    requires i < |s|
    ensures SumSq(s[..i + 1], a) == SumSq(s[..i], a) + (s[i] - a) * (s[i] - a)
  {
    assert s[..i + 1][..i] == s[..i];
  }

  /** The closing loop every normalizer shares: `input[i] = (input[i] - shift) / scale`
      for every feature slot. */
  method RescaleInPlace(input: array<real>, shift: real, scale: real)
    requires input.Length >= 1
    modifies input
    ensures input[..] == Rescaled(old(input[..]), shift, scale)
  {
    var n := input.Length;
    for i := 0 to n - 1
      invariant forall j :: 0 <= j < i ==> input[j] == DivDouble(old(input[j]) - shift, scale)
      invariant forall j :: i <= j < n ==> input[j] == old(input[j])
    {
      input[i] := DivDouble(input[i] - shift, scale);
    }
  }

  /** `normalize(input)` for the configured normalizer. */
  method Normalize(n: Normalizer, input: array<real>) returns (r: Outcome)
    modifies input
    ensures r == Validation(old(input[..]))
    ensures r.Fail? ==> input[..] == old(input[..])
    ensures r.Pass? ==> input[..] == Apply(n, old(input[..]))
    ensures NormalizeOf(n, old(input[..])) == if r.Pass? then Ok(input[..]) else Err(r.error)
    ensures input.Length >= 1 ==> input[input.Length - 1] == old(input[input.Length - 1])
  {
    match n
    case MinMax => r := MinMaxNormalize(input);
    case Mean => r := MeanNormalize(input);
    case ZScore(sqrt) => r := ZScoreNormalize(input, sqrt);
    case UnitLenScale(sqrt) => r := UnitLenScaleNormalize(input, sqrt);
  }

  // ---------------------------------------------------------------------------
  // Properties of the normalizers.

  lemma {:induction false} FoldMinBounds(acc: real, s: seq<real>)
    ensures FoldMin(acc, s) <= acc
    ensures forall j :: 0 <= j < |s| ==> FoldMin(acc, s) <= s[j]
    ensures FoldMin(acc, s) == acc || exists j :: 0 <= j < |s| && FoldMin(acc, s) == s[j]
    decreases |s|
  {
    if |s| > 0 {
      var t := s[..|s| - 1];
      FoldMinBounds(acc, t);
      assert forall j :: 0 <= j < |t| ==> t[j] == s[j];
    }
  }

  lemma {:induction false} FoldMaxBounds(acc: real, s: seq<real>)
    ensures FoldMax(acc, s) >= acc
    ensures forall j :: 0 <= j < |s| ==> FoldMax(acc, s) >= s[j]
    ensures FoldMax(acc, s) == acc || exists j :: 0 <= j < |s| && FoldMax(acc, s) == s[j]
    decreases |s|
  {
    if |s| > 0 {
      var t := s[..|s| - 1];
      FoldMaxBounds(acc, t);
      assert forall j :: 0 <= j < |t| ==> t[j] == s[j];
    }
  }

  /** v[j] is a smallest (largest) feature of v. */
  predicate IsMinFeature(v: seq<real>, j: int) {
    0 <= j < |v| - 1 && forall i :: 0 <= i < |v| - 1 ==> v[j] <= v[i]
  }
  predicate IsMaxFeature(v: seq<real>, j: int) {
    0 <= j < |v| - 1 && forall i :: 0 <= i < |v| - 1 ==> v[i] <= v[j]
  }

  /** One slot of MIN_MAX: (x - lo) / (hi - lo) for lo <= x <= hi. */
  lemma MinMaxSlot(x: real, lo: real, hi: real)
    requires lo <= x <= hi && lo < hi
    ensures 0.0 <= DivDouble(x - lo, hi - lo) <= 1.0
    ensures x == lo ==> DivDouble(x - lo, hi - lo) == 0.0
    ensures x == hi ==> DivDouble(x - lo, hi - lo) == 1.0
  {
    QuotientInUnit(x - lo, hi - lo);
  }

  lemma QuotientInUnit(y: real, d: real)
    requires 0.0 <= y <= d && d > 0.0
    ensures 0.0 <= DivDouble(y, d) <= 1.0
  {
  }

  /** MIN_MAX maps the features into [0, 1], a smallest feature to 0 and a largest
      to 1, provided the largest feature is at least Double.MIN_VALUE and the
      features are not all equal. */
  lemma MinMaxEndpoints(v: seq<real>)
    requires |v| >= 2 && AllFinite(v)
    requires exists i :: 0 <= i < |v| - 1 && v[i] >= MinValue
    requires exists i, k :: 0 <= i < |v| - 1 && 0 <= k < |v| - 1 && v[i] != v[k]
    ensures forall j :: 0 <= j < |v| - 1 ==> 0.0 <= MinMaxOf(v)[j] <= 1.0
    ensures forall j :: IsMinFeature(v, j) ==> MinMaxOf(v)[j] == 0.0
    ensures forall j :: IsMaxFeature(v, j) ==> MinMaxOf(v)[j] == 1.0
  {
    var f := Features(v);
    var lo := FoldMin(MaxValue, f);
    var hi := FoldMax(MinValue, f);
    var jm, jM := MinMaxAttained(v);
    forall j | 0 <= j < |v| - 1
      ensures 0.0 <= MinMaxOf(v)[j] <= 1.0
      ensures IsMinFeature(v, j) ==> MinMaxOf(v)[j] == 0.0
      ensures IsMaxFeature(v, j) ==> MinMaxOf(v)[j] == 1.0
    {
      assert f[j] == v[j] && MinMaxOf(v)[j] == DivDouble(v[j] - lo, hi - lo);
      assert IsMinFeature(v, j) ==> v[j] <= v[jm];
      assert IsMaxFeature(v, j) ==> v[jM] <= v[j];
      MinMaxSlot(v[j], lo, hi);
    }
  }

  /** Under the conditions of MinMaxEndpoints, xMin and xMax of MIN_MAX are the
      smallest and the largest feature, and they differ. */
  lemma MinMaxAttained(v: seq<real>) returns (jm: nat, jM: nat)
    requires |v| >= 2 && AllFinite(v)
    requires exists i :: 0 <= i < |v| - 1 && v[i] >= MinValue
    requires exists i, k :: 0 <= i < |v| - 1 && 0 <= k < |v| - 1 && v[i] != v[k]
    ensures jm < |v| - 1 && jM < |v| - 1
    ensures FoldMin(MaxValue, Features(v)) == v[jm] < v[jM] == FoldMax(MinValue, Features(v))
    ensures forall j :: 0 <= j < |v| - 1 ==> v[jm] <= v[j] <= v[jM]
  {
    var f := Features(v);
    var lo := FoldMin(MaxValue, f);
    var hi := FoldMax(MinValue, f);
    FoldMinBounds(MaxValue, f);
    FoldMaxBounds(MinValue, f);
    assert forall j :: 0 <= j < |f| ==> f[j] == v[j];
    var i0, k0 :| 0 <= i0 < |v| - 1 && 0 <= k0 < |v| - 1 && v[i0] != v[k0];
    assert IsFinite(v[i0]) && IsFinite(v[k0]);
    jm :| 0 <= jm < |f| && lo == f[jm];
    var im :| 0 <= im < |v| - 1 && v[im] >= MinValue;
    assert hi != MinValue || hi == v[im];
    jM :| 0 <= jM < |f| && hi == f[jM];
  }

  /** Because xMax starts at Double.MIN_VALUE (the smallest POSITIVE double), a
      vector whose features are all below it does not get its largest feature
      mapped to 1: here the largest feature 0.0 maps to 1 / (1 + MIN_VALUE). */
  lemma MinMaxNonPositiveFeatures()
    ensures IsMaxFeature([0.0, -1.0, 3.0], 0)
    ensures MinMaxOf([0.0, -1.0, 3.0])[0] != 1.0
  {
    var v := [0.0, -1.0, 3.0];
    assert Features(v) == [0.0, -1.0];
    assert Features(v)[..1] == [0.0];
    assert [0.0][..0] == [];
    assert FoldMax(MinValue, Features(v)) == MinValue;
    assert FoldMin(MaxValue, Features(v)) == -1.0;
    var r := MinMaxOf(v)[0];
    assert r == DivDouble(1.0, MinValue + 1.0);
    assert r * (MinValue + 1.0) == 1.0;
  }

  /** The feature slots after a rescale. */
  function Shifted(s: seq<real>, shift: real, scale: real): (r: seq<real>)
    ensures |r| == |s|
  {
    seq(|s|, j requires 0 <= j < |s| => DivDouble(s[j] - shift, scale))
  }

  lemma FeaturesOfRescaled(v: seq<real>, shift: real, scale: real)
    requires |v| >= 1
    ensures Features(Rescaled(v, shift, scale)) == Shifted(Features(v), shift, scale)
  {
  }

  /** x is y shifted by a and scaled by d: x * d == y - a. */
  predicate ScaledEntry(x: real, y: real, a: real, d: real) {
    x * d == y - a
  }

  /** u is s shifted by a and scaled by d, entry by entry. */
  predicate ScaledFrom(u: seq<real>, s: seq<real>, a: real, d: real) {
    |u| == |s| && forall j :: 0 <= j < |s| ==> ScaledEntry(u[j], s[j], a, d)
  }

  /** The relation between the sums: p * d == q - n * a. */
  predicate SumRelation(p: real, q: real, n: real, a: real, d: real) {
    p * d == q - n * a
  }

  /** The relation between the sums of squares: p * d^2 == q. */
  predicate SquareRelation(p: real, q: real, d: real) {
    p * (d * d) == q
  }

  lemma ShiftedScaled(s: seq<real>, a: real, d: real)
    requires d != 0.0
    ensures ScaledFrom(Shifted(s, a, d), s, a, d)
  {
  }

  lemma SumShifted(s: seq<real>, a: real, d: real)
    requires d != 0.0
    ensures SumRelation(Sum(Shifted(s, a, d)), Sum(s), |s| as real, a, d)
  {
    var u := Shifted(s, a, d);
    ShiftedScaled(s, a, d);
    SumScaled(u, s, a, d);
  }

  lemma {:induction false} SumScaled(u: seq<real>, s: seq<real>, a: real, d: real)
    requires ScaledFrom(u, s, a, d)
    ensures SumRelation(Sum(u), Sum(s), |s| as real, a, d)
    decreases |s|
  {
    if |s| > 0 {
      var n := |s| - 1;
      var u', s' := u[..n], s[..n];
      assert ScaledFrom(u', s', a, d);
      SumScaled(u', s', a, d);
      var p, q := Sum(u'), Sum(s');
      assert Sum(u) == p + u[n];
      assert Sum(s) == q + s[n];
      assert ScaledEntry(u[n], s[n], a, d);
      SumStep(p, u[n], q, s[n], n as real, a, d);
    }
  }

  /** The inductive step of SumScaled, on plain numbers. */
  lemma SumStep(p: real, x: real, q: real, y: real, n: real, a: real, d: real)
    requires SumRelation(p, q, n, a, d) && ScaledEntry(x, y, a, d)
    ensures SumRelation(p + x, q + y, n + 1.0, a, d)
  {
    Distribute(p, x, d);
    Distribute(n, 1.0, a);
  }

  lemma SumSqShifted(s: seq<real>, a: real, d: real)
    requires d != 0.0
    ensures SquareRelation(SumSq(Shifted(s, a, d), 0.0), SumSq(s, a), d)
  {
    var u := Shifted(s, a, d);
    ShiftedScaled(s, a, d);
    SumSqScaled(u, s, a, d);
  }

  lemma {:induction false} SumSqScaled(u: seq<real>, s: seq<real>, a: real, d: real)
    requires ScaledFrom(u, s, a, d)
    ensures SquareRelation(SumSq(u, 0.0), SumSq(s, a), d)
    decreases |s|
  {
    if |s| > 0 {
      var n := |s| - 1;
      var u', s' := u[..n], s[..n];
      assert ScaledFrom(u', s', a, d);
      SumSqScaled(u', s', a, d);
      var p, q := SumSq(u', 0.0), SumSq(s', a);
      var x, y := u[n], s[n];
      assert SumSq(u, 0.0) == p + (x - 0.0) * (x - 0.0);
      assert SumSq(s, a) == q + (y - a) * (y - a);
      assert ScaledEntry(x, y, a, d);
      SquareStep(p, x, q, y, a, d);
    }
  }

  /** The inductive step of SumSqScaled, on plain numbers. */
  lemma SquareStep(p: real, x: real, q: real, y: real, a: real, d: real)
    requires SquareRelation(p, q, d) && ScaledEntry(x, y, a, d)
    ensures SquareRelation(p + (x - 0.0) * (x - 0.0), q + (y - a) * (y - a), d)
  {
    SquareOfQuotient(x, y - a, d);
    Distribute(p, (x - 0.0) * (x - 0.0), d * d);
  }

  lemma Distribute(p: real, q: real, c: real)
    ensures (p + q) * c == p * c + q * c
  {
  }

  lemma SquareOfQuotient(x: real, y: real, d: real)
    requires x * d == y
    ensures (x - 0.0) * (x - 0.0) * (d * d) == y * y
  {
    assert (x * x) * (d * d) == (x * d) * (x * d);
  }

  /** q * c == c * k with c != 0 gives q == k. */
  lemma Cancel(q: real, c: real, k: real)
    requires q * c == c * k && c != 0.0
    ensures q == k
  {
    assert (q - k) * c == 0.0;
  }

  /** Features shifted by their own mean sum to 0, whatever the (non-zero) scale. */
  lemma CentredSum(f: seq<real>, d: real)
    requires |f| >= 1 && d != 0.0
    ensures Sum(Shifted(f, DivDouble(Sum(f), |f| as real), d)) == 0.0
  {
    var avg := DivDouble(Sum(f), |f| as real);
    SumShifted(f, avg, d);
    assert avg * (|f| as real) == Sum(f);
    Cancel(Sum(Shifted(f, avg, d)), d, 0.0);
  }

  /** Features shifted by a and divided by a square root of their mean square
      deviation from a have squares summing to their number. */
  lemma UnitSquares(f: seq<real>, a: real, sd: real)
    requires |f| >= 1 && sd != 0.0
    requires sd * sd == DivDouble(SumSq(f, a), |f| as real)
    ensures SumSq(Shifted(f, a, sd), 0.0) == |f| as real
  {
    var q, t, k := SumSq(Shifted(f, a, sd), 0.0), SumSq(f, a), |f| as real;
    SumSqShifted(f, a, sd);
    NormalSquares(q, t, k, sd);
  }

  /** The last step of UnitSquares, on plain numbers. */
  lemma NormalSquares(q: real, t: real, k: real, sd: real)
    requires k != 0.0 && sd != 0.0 && SquareRelation(q, t, sd) && sd * sd == DivDouble(t, k)
    ensures q == k
  {
    DivMul(t, k);
    CancelSquare(q, sd, k, t);
  }

  lemma DivMul(x: real, d: real)
    requires d != 0.0
    ensures DivDouble(x, d) * d == x
  {
  }

  /** q * (x * x) == x * x * k with x != 0 gives q == k, cancelling one x at a time. */
  lemma CancelSquare(q: real, x: real, k: real, t: real)
    requires x != 0.0 && q * (x * x) == t && (x * x) * k == t
    ensures q == k
  {
    assert (q - k) * x * x == 0.0;
    assert (q - k) * x == 0.0;
  }

  /** MEAN centres the features: they sum to 0 whenever xMax differs from xMin. */
  lemma MeanCentres(v: seq<real>)
    requires |v| >= 2
    requires FoldMax(MinValue, Features(v)) != FoldMin(MaxValue, Features(v))
    ensures Sum(Features(MeanOf(v))) == 0.0
  {
    var d := FoldMax(MinValue, Features(v)) - FoldMin(MaxValue, Features(v));
    FeaturesOfRescaled(v, FeatureMean(v), d);
    CentredSum(Features(v), d);
  }

  /** Z_SCORE centres the features whenever the standard deviation is not 0. */
  lemma ZScoreCentres(v: seq<real>, sqrt: real -> real)
    requires |v| >= 2
    requires sqrt(FeatureVariance(v)) != 0.0
    ensures Sum(Features(ZScoreOf(v, sqrt))) == 0.0
  {
    FeaturesOfRescaled(v, FeatureMean(v), sqrt(FeatureVariance(v)));
    CentredSum(Features(v), sqrt(FeatureVariance(v)));
  }

  /** With a true square root, the Z_SCORE features have population variance 1:
      their squares sum to the number of features. */
  lemma ZScoreUnitVariance(v: seq<real>, sqrt: real -> real)
    requires |v| >= 2
    requires sqrt(FeatureVariance(v)) != 0.0
    requires sqrt(FeatureVariance(v)) * sqrt(FeatureVariance(v)) == FeatureVariance(v)
    ensures SumSq(Features(ZScoreOf(v, sqrt)), 0.0) == (|v| - 1) as real
  {
    FeaturesOfRescaled(v, FeatureMean(v), sqrt(FeatureVariance(v)));
    UnitSquares(Features(v), FeatureMean(v), sqrt(FeatureVariance(v)));
  }

  /** With a true square root, UNIT_LEN_SCALE makes the feature vector's length 1. */
  lemma UnitLenScaleUnitLength(v: seq<real>, sqrt: real -> real)
    requires |v| >= 1
    requires sqrt(SumSq(Features(v), 0.0)) != 0.0
    requires sqrt(SumSq(Features(v), 0.0)) * sqrt(SumSq(Features(v), 0.0)) == SumSq(Features(v), 0.0)
    ensures SumSq(Features(UnitLenScaleOf(v, sqrt)), 0.0) == 1.0
  {
    var len := sqrt(SumSq(Features(v), 0.0));
    FeaturesOfRescaled(v, 0.0, len);
    UnitLength(Features(v), len);
  }

  lemma UnitLength(f: seq<real>, len: real)
    requires len != 0.0 && len * len == SumSq(f, 0.0)
    ensures SumSq(Shifted(f, 0.0, len), 0.0) == 1.0
  {
    var q := SumSq(Shifted(f, 0.0, len), 0.0);
    SumSqShifted(f, 0.0, len);
    assert SquareRelation(q, len * len, len);
    CancelSquare(q, len, 1.0, len * len);
  }
}
