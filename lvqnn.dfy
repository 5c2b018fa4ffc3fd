/** The engine of the library (LVQNN.java): a model holds its training rows, its
    configuration and the internal state that `initializeWeights`, `train` and
    the copy operations update. The weight table and the training rows are
    values here (sequences), so a weight row never shares storage with a
    training row. */
module Lvqnn {
  import opened Wrappers
  import opened Doubles
  import opened DistanceMetric
  import opened NormalizationFunction
  import opened Training
  import WeightsInitializer

  /** Every training row has the length of the first one. The engine leaves this
      to its callers (LVQNN.java:445) and reads the feature count off row 0. */
  predicate Uniform(rows: seq<seq<real>>) {
    |rows| >= 1 && forall i :: 0 <= i < |rows| ==> |rows[i]| == |rows[0]|
  }

  /** The body of the `initializeWeights` histogram: `samplesPerCluster[(int) vec[nFeatures - 1]]++`
      stays in the array exactly when every label lies in [0, k). */
  predicate LabelsBelow(rows: seq<seq<real>>, k: nat) {
    forall i :: 0 <= i < |rows| && |rows[i]| >= 1 ==> 0 <= Trunc(rows[i][|rows[i]| - 1]) < k
  }

  /** findBestMatchingUnit on the current table: a null table throws in the
      for-each loop. */
  function Search(m: Metric, weights: Option<seq<seq<real>>>, v: seq<real>): (r: Result<Winner>) {
    match weights
    case None => Err(NullPointer)
    case Some(w) => Bmu(m, w, v, |w|)
  }

  /** classify: the label slot of the best matching unit, cast to int. */
  function ClassifyOf(m: Metric, weights: Option<seq<seq<real>>>, lastTrainErrorSquare: real, v: seq<real>): Result<int> {
    if |v| == 0 then Err(IllegalArgument)
    else if lastTrainErrorSquare == 0.0 then Err(IllegalState)
    else
      match Search(m, weights, v)
      case Err(e) => Err(e)
      case Ok(best) =>
        match best.unit
        case None => Err(NullPointer)
        case Some(b) =>
          var row := weights.value[b];
          Ok(Trunc(row[|row| - 1]))
  }

  /** A normalization of one row: the rejected row's exception, or the new row. */
  type RowMap = seq<real> -> Result<seq<real>>

  /** The loop of normalizeInput from sample i on, for any row normalization:
      each of the first k rows is normalized in turn, and the first rejected row
      ends the loop with its exception. */
  function NormalizeRowsBy(norm: RowMap, rows: seq<seq<real>>, k: nat, i: nat): (r: (seq<seq<real>>, Outcome))
    requires i <= k <= |rows|
    ensures |r.0| == |rows|
    decreases k - i
  {
    if i == k then (rows, Pass)
    else
      match norm(rows[i])
      case Err(e) => (rows, Fail(e))
      case Ok(v) => NormalizeRowsBy(norm, rows[i := v], k, i + 1)
  }

  /** normalizeInput from sample i on with the normalization function n. */
  function NormalizeRows(n: Normalizer, rows: seq<seq<real>>, k: nat, i: nat): (r: (seq<seq<real>>, Outcome))
    requires i <= k <= |rows|
  {
    NormalizeRowsBy(v => NormalizeOf(n, v), rows, k, i)
  }

  /** A row normalization that keeps the length and the label of the rows it
      accepts. */
  ghost predicate KeepsLabels(norm: RowMap) {
    forall v :: norm(v).Ok? ==>
      |norm(v).value| == |v| && (|v| >= 1 ==> norm(v).value[|v| - 1] == v[|v| - 1])
  }

  /** The table copyInternals leaves after copying the first i rows of `from`:
      the first nFeatures elements of each copied row, zeros after them. */
  function CopiedRows(from: seq<seq<real>>, nFeatures: nat, i: nat): (r: seq<seq<real>>)
    requires i <= |from| && forall j :: 0 <= j < i ==> nFeatures <= |from[j]|
    ensures |r| == |from|
  {
    seq(|from|, j requires 0 <= j < |from| => if j < i then from[j][..nFeatures] else WeightsInitializer.Zeros(nFeatures))
  }

  /** What the weight copy of copyInternals leaves: on success every row of
      `from` cut to nFeatures elements; on failure the rows before the first
      short one, and zeros from it on. */
  predicate CopyOutcome(from: seq<seq<real>>, nFeatures: nat, w: seq<seq<real>>, r: Outcome) {
    && |w| == |from|
    && (r.Pass? <==> forall j :: 0 <= j < |from| ==> nFeatures <= |from[j]|)
    && (r.Pass? ==> forall j :: 0 <= j < |from| ==> w[j] == from[j][..nFeatures])
    && (r.Fail? ==>
          && r.error == IndexOutOfBounds
          && exists i :: 0 <= i < |from| && |from[i]| < nFeatures && (forall j :: 0 <= j < i ==> nFeatures <= |from[j]|)
                         && w == CopiedRows(from, nFeatures, i))
  }

  /** The label normalization keeps of a row of at least one element. */
  lemma ApplyKeepsLabel(n: Normalizer, v: seq<real>)
    requires |v| >= 1
    ensures |Apply(n, v)| == |v| && Apply(n, v)[|v| - 1] == v[|v| - 1]
  {
    match n
    case MinMax =>
    case Mean =>
    case ZScore(sqrt) =>
    case UnitLenScale(sqrt) =>
  }

  /** The loop keeps every row's length and label, and touches no row before i
      or from k on. */
  lemma NormalizeRowsShape(norm: RowMap, rows: seq<seq<real>>, k: nat, i: nat)
    requires i <= k <= |rows| && KeepsLabels(norm)
    ensures var out := NormalizeRowsBy(norm, rows, k, i).0;
      && |out| == |rows|
      && (forall j :: 0 <= j < |rows| ==> |out[j]| == |rows[j]| && (|rows[j]| >= 1 ==> out[j][|rows[j]| - 1] == rows[j][|rows[j]| - 1]))
      && (forall j :: 0 <= j < i || k <= j < |rows| ==> out[j] == rows[j])
  {
    NormalizeRowsLabels(norm, rows, k, i);
    NormalizeRowsRest(norm, rows, k, i);
  }

  /** Every row keeps its length and its label. */
  lemma {:induction false} NormalizeRowsLabels(norm: RowMap, rows: seq<seq<real>>, k: nat, i: nat)
    requires i <= k <= |rows| && KeepsLabels(norm)
    ensures var out := NormalizeRowsBy(norm, rows, k, i).0;
      forall j :: 0 <= j < |rows| ==> |out[j]| == |rows[j]| && (|rows[j]| >= 1 ==> out[j][|rows[j]| - 1] == rows[j][|rows[j]| - 1])
    decreases k - i
  {
    if i < k && norm(rows[i]).Ok? {
      NormalizeRowsLabels(norm, rows[i := norm(rows[i]).value], k, i + 1);
    }
  }

  /** The rows before i and from k on are left alone. */
  lemma {:induction false} NormalizeRowsRest(norm: RowMap, rows: seq<seq<real>>, k: nat, i: nat)
    requires i <= k <= |rows|
    ensures var out := NormalizeRowsBy(norm, rows, k, i).0;
      forall j :: 0 <= j < i || k <= j < |rows| ==> out[j] == rows[j]
    decreases k - i
  {
    if i < k && norm(rows[i]).Ok? {
      var rows1 := rows[i := norm(rows[i]).value];
      assert NormalizeRowsBy(norm, rows, k, i) == NormalizeRowsBy(norm, rows1, k, i + 1);
      NormalizeRowsRest(norm, rows1, k, i + 1);
      assert forall j :: 0 <= j < i || k <= j < |rows| ==> rows1[j] == rows[j];
    }
  }

  /** When the loop passes, each of the first k rows from i on is what the
      normalization makes of it. */
  lemma {:induction false} NormalizeRowsPass(norm: RowMap, rows: seq<seq<real>>, k: nat, i: nat)
    requires i <= k <= |rows| && NormalizeRowsBy(norm, rows, k, i).1.Pass?
    ensures forall j :: i <= j < k ==> norm(rows[j]) == Ok(NormalizeRowsBy(norm, rows, k, i).0[j])
    decreases k - i
  {
    if i < k {
      var v := norm(rows[i]).value;
      var rows1 := rows[i := v];
      NormalizeRowsPass(norm, rows1, k, i + 1);
      NormalizeRowsRest(norm, rows1, k, i + 1);
      assert NormalizeRowsBy(norm, rows1, k, i + 1).0[i] == v;
    }
  }

  /** When the loop fails, there is a first rejected row f: the rows from i up
      to f are normalized, f and the rows after it are as they were, and the
      exception is the one the normalization raises for row f. */
  lemma {:induction false} NormalizeRowsFail(norm: RowMap, rows: seq<seq<real>>, k: nat, i: nat) returns (f: nat)
    requires i <= k <= |rows| && NormalizeRowsBy(norm, rows, k, i).1.Fail?
    ensures var (out, r) := NormalizeRowsBy(norm, rows, k, i);
      && i <= f < k
      && (forall j :: i <= j < f ==> norm(rows[j]) == Ok(out[j]))
      && (forall j :: f <= j < |rows| ==> out[j] == rows[j])
      && norm(rows[f]) == Err(r.error)
    decreases k - i
  {
    match norm(rows[i])
    case Err(e) =>
      f := i;
    case Ok(v) =>
      var rows1 := rows[i := v];
      f := NormalizeRowsFail(norm, rows1, k, i + 1);
      NormalizeRowsRest(norm, rows1, k, i + 1);
      assert NormalizeRowsBy(norm, rows1, k, i + 1).0[i] == v;
  }

  /** normalizeInput from sample i on with a normalization function, all its
      facts together. */
  lemma NormalizeRowsFacts(n: Normalizer, rows: seq<seq<real>>, k: nat, i: nat)
    requires i <= k <= |rows|
    ensures var (out, r) := NormalizeRows(n, rows, k, i);
      && |out| == |rows|
      && (forall j :: 0 <= j < |rows| ==> |out[j]| == |rows[j]| && (|rows[j]| >= 1 ==> out[j][|rows[j]| - 1] == rows[j][|rows[j]| - 1]))
      && (forall j :: 0 <= j < i || k <= j < |rows| ==> out[j] == rows[j])
      && (r.Pass? ==> forall j :: i <= j < k ==> NormalizeOf(n, rows[j]) == Ok(out[j]))
      && (r.Fail? ==>
            exists f :: (&& i <= f < k
                         && (forall j :: i <= j < f ==> NormalizeOf(n, rows[j]) == Ok(out[j]))
                         && (forall j :: f <= j < |rows| ==> out[j] == rows[j])
                         && NormalizeOf(n, rows[f]) == Err(r.error)))
  {
    var norm: RowMap := v => NormalizeOf(n, v);
    assert KeepsLabels(norm) by {
      forall v
        ensures norm(v).Ok? ==> |norm(v).value| == |v| && (|v| >= 1 ==> norm(v).value[|v| - 1] == v[|v| - 1])
      {
        assert norm(v) == NormalizeOf(n, v);
      }
    }
    assert NormalizeRows(n, rows, k, i) == NormalizeRowsBy(norm, rows, k, i);
    NormalizeRowsShape(norm, rows, k, i);
    if NormalizeRowsBy(norm, rows, k, i).1.Pass? {
      NormalizeRowsPass(norm, rows, k, i);
    } else {
      var f := NormalizeRowsFail(norm, rows, k, i);
    }
  }

  /** A full copy of rows that are exactly nFeatures long is the table itself. */
  lemma CopiedRowsWhole(from: seq<seq<real>>, nFeatures: nat)
    requires forall j :: 0 <= j < |from| ==> |from[j]| == nFeatures
    ensures CopiedRows(from, nFeatures, |from|) == from
  {
    assert forall j :: 0 <= j < |from| ==> from[j][..nFeatures] == from[j];
  }

  /** classify answers with the label of the winner of the search (the first
      nearest prototype, by BmuIsFirstMinimum); its exceptions are those of its checks,
      of the search, and the NullPointerException of a search that finds no
      prototype below Double.MAX_VALUE. */
  lemma ClassifyAnswers(m: Metric, w: seq<seq<real>>, err: real, v: seq<real>)
    ensures var r := ClassifyOf(m, Some(w), err, v);
      && (|v| == 0 ==> r == Err(IllegalArgument))
      && (|v| > 0 && err == 0.0 ==> r == Err(IllegalState))
      && (|v| > 0 && err != 0.0 && Bmu(m, w, v, |w|).Ok? && Bmu(m, w, v, |w|).value.unit.None? ==> r == Err(NullPointer))
      && (r.Err? ==> r.error != IndexOutOfBounds)
      && (r.Ok? ==>
            && Bmu(m, w, v, |w|).Ok? && Bmu(m, w, v, |w|).value.unit.Some?
            && var b := Bmu(m, w, v, |w|).value.unit.value;
               b < |w| && |w[b]| >= 1 && r.value == Trunc(w[b][|w[b]| - 1]))
  {
    BmuIsFirstMinimum(m, w, v, |w|);
    var s := Bmu(m, w, v, |w|);
    if s.Err? {
      var i :| 0 <= i < |w| && (forall j :: 0 <= j < i ==> Comparable(w[j], v)) && MeasureOf(m, w[i], v) == Err(s.error);
      ComparableExactly(m, w[i], v);
    }
  }

  /** Training keeps the labels of the prototypes, so labels that were valid
      indices of the histogram stay valid. */
  lemma LabelsSurvive(w0: seq<seq<real>>, w1: seq<seq<real>>, k: nat)
    requires SameShape(w0, w1) && LabelsBelow(w0, k)
    ensures LabelsBelow(w1, k)
  {
    forall i | 0 <= i < |w1| && |w1[i]| >= 1
      ensures 0 <= Trunc(w1[i][|w1[i]| - 1]) < k
    {
      assert w1[i][|w1[i]| - 1] == w0[i][|w0[i]| - 1];
    }
  }

  /** A training table as Java arrays: one fresh array per row. */
  method Table(rows: seq<seq<real>>) returns (a: array<array<real>>)
    ensures fresh(a) && WeightsInitializer.RowsOf(a) == rows
    ensures forall i :: 0 <= i < a.Length ==> fresh(a[i])
    ensures forall i, j :: 0 <= i < j < a.Length ==> a[i] != a[j]
  {
    var arrays: seq<array<real>> := [];
    for i := 0 to |rows|
      invariant |arrays| == i
      invariant forall s :: 0 <= s < i ==> fresh(arrays[s]) && arrays[s][..] == rows[s]
      invariant forall s, t :: 0 <= s < t < i ==> arrays[s] != arrays[t]
    {
      var row := new real[|rows[i]|](f requires 0 <= f < |rows[i]| => rows[i][f]);
      arrays := arrays + [row];
    }
    a := new array<real>[|rows|](i requires 0 <= i < |arrays| => arrays[i]);
  }

  /** `new double[k][n]`: k fresh rows of n zeros. */
  method ZeroTable(k: nat, n: nat) returns (a: array<array<real>>)
    ensures fresh(a) && a.Length == k
    ensures forall i :: 0 <= i < k ==> fresh(a[i]) && a[i][..] == WeightsInitializer.Zeros(n)
    ensures forall i, j :: 0 <= i < j < k ==> a[i] != a[j]
  {
    var arrays: seq<array<real>> := [];
    for i := 0 to k
      invariant |arrays| == i
      invariant forall s :: 0 <= s < i ==> fresh(arrays[s]) && arrays[s][..] == WeightsInitializer.Zeros(n)
      invariant forall s, t :: 0 <= s < t < i ==> arrays[s] != arrays[t]
    {
      var row := new real[n](_ => 0.0);
      arrays := arrays + [row];
    }
    a := new array<real>[k](i requires 0 <= i < |arrays| => arrays[i]);
  }

  /** The table `strategy.initialize` fills, read back as rows; the training
      rows are handed over as fresh arrays. */
  method InitialTable(strategy: WeightsInitializer.Strategy, rows: seq<seq<real>>, k: nat, nFeatures: nat, rng: WeightsInitializer.Rng)
    returns (w: seq<seq<real>>)
    requires 1 <= k <= |rows| && 1 <= nFeatures && forall i :: 0 <= i < |rows| ==> |rows[i]| == nFeatures
    modifies rng
    ensures w == WeightsInitializer.InitialRows(strategy, rng.draw, old(rng.pos), rows, k, nFeatures)
    ensures rng.pos == old(rng.pos) + WeightsInitializer.DrawsUsed(strategy, k, |rows|)
  {
    var data := Table(rows);
    var table := ZeroTable(k, nFeatures);
    assert forall t :: 0 <= t < data.Length ==> data[t].Length == |rows[t]|;
    assert WeightsInitializer.TrainTable(data, k, nFeatures);
    assert WeightsInitializer.FreshTable(table, data, k, nFeatures);
    WeightsInitializer.Initialize(strategy, table, data, k, nFeatures, rng);
    w := WeightsInitializer.RowsOf(table);
  }

  /** The histogram loop of initializeWeights: `samplesPerCluster[(int) vec[nFeatures - 1]]++`
      over the k counters throws at the first weight row whose label is no
      index of them. The counts themselves only feed the debug log. */
  method Histogram(w: seq<seq<real>>, k: nat, nFeatures: nat) returns (r: Outcome)
    requires nFeatures >= 1 && forall s :: 0 <= s < |w| ==> |w[s]| == nFeatures
    ensures r.Pass? <==> LabelsBelow(w, k)
    ensures r.Fail? ==> r.error == IndexOutOfBounds
  {
    for i := 0 to |w|
      invariant forall s :: 0 <= s < i ==> 0 <= Trunc(w[s][|w[s]| - 1]) < k
    {
      var cluster := Trunc(w[i][nFeatures - 1]);
      if cluster < 0 || cluster >= k {
        return Fail(IndexOutOfBounds);
      }
    }
    return Pass;
  }

  class Lvqnn {
    // Input data.
    var trainData: seq<seq<real>>
    const trainSamples: nat

    // Configuration.
    var normalizer: Option<Normalizer>
    var strategy: WeightsInitializer.Strategy
    var metric: Metric
    var rng: WeightsInitializer.Rng
    var hasSerializer: bool
    var snapshotAutoSavePeriod: int
    var progressReportPeriod: int
    var hasListener: bool
    var yieldTrainThread: bool
    var learnRate: real
    var quitLearnRate: real
    var linearLearnRateDecay: bool
    var momentum: real
    var maxEpochs: int

    // Internal state.
    var halt: bool
    var lastWinnerDistance: real
    var lastTrainErrorSquare: real
    var weights: Option<seq<seq<real>>>
    var currentEpoch: int
    var currentLearnRate: real

    /** The snapshots handed to the serializer and the listener calls, in order. */
    var events: seq<Event>

    /** What the constructor establishes: a first training row with at least one
        element, and 1 <= trainSamples <= trainData.length. */
    ghost predicate Valid()
      reads this
    {
      |trainData| >= 1 && |trainData[0]| >= 1 && 1 <= trainSamples <= |trainData|
    }

    /** `new LVQNN(trainData, trainSamples)` once its checks have passed; the
        default generator is `rng` and EUCLIDEAN_DISTANCE uses `sqrt`. */
    constructor (trainData: seq<seq<real>>, trainSamples: nat, sqrt: real -> real, rng: WeightsInitializer.Rng)
      requires |trainData| >= 1 && |trainData[0]| >= 1 && 1 <= trainSamples <= |trainData|
      ensures Valid()
      ensures this.trainData == trainData && this.trainSamples == trainSamples
      ensures normalizer == None && strategy == WeightsInitializer.NRandom && metric == Euclidean(sqrt) && this.rng == rng
      ensures !hasSerializer && snapshotAutoSavePeriod == -1 && progressReportPeriod == 5 && !hasListener && !yieldTrainThread
      ensures learnRate == 0.3 && quitLearnRate == 0.001 && !linearLearnRateDecay && momentum == 0.98 && maxEpochs == 1000
      ensures !halt && lastWinnerDistance == 0.0 && lastTrainErrorSquare == 0.0 && weights == None
      ensures currentEpoch == 0 && currentLearnRate == 0.0 && events == []
    {
      this.trainData := trainData;
      this.trainSamples := trainSamples;
      normalizer := None;
      strategy := WeightsInitializer.NRandom;
      metric := Euclidean(sqrt);
      this.rng := rng;
      hasSerializer := false;
      snapshotAutoSavePeriod := -1;
      progressReportPeriod := 5;
      hasListener := false;
      yieldTrainThread := false;
      learnRate := 0.3;
      quitLearnRate := 0.001;
      linearLearnRateDecay := false;
      momentum := 0.98;
      maxEpochs := 1000;
      halt := false;
      lastWinnerDistance := 0.0;
      lastTrainErrorSquare := 0.0;
      weights := None;
      currentEpoch := 0;
      currentLearnRate := 0.0;
      events := [];
    }

    /** The constructor with its checks: an empty trainData, an empty first row
        and a trainSamples outside [1, trainData.length] are rejected before
        anything is stored. */
    static method Create(trainData: seq<seq<real>>, trainSamples: int, sqrt: real -> real, rng: WeightsInitializer.Rng)
      returns (r: Result<Lvqnn>)
      ensures r.Err? <==> |trainData| == 0 || |trainData[0]| == 0 || trainSamples < 1 || trainSamples > |trainData|
      ensures r.Err? ==> r.error == IllegalArgument
      ensures r.Ok? ==> fresh(r.value) && r.value.Valid() && r.value.trainData == trainData
                        && r.value.trainSamples == trainSamples && r.value.weights == None
      ensures r.Ok? ==> && r.value.learnRate == 0.3 && r.value.quitLearnRate == 0.001 && r.value.momentum == 0.98
                        && r.value.maxEpochs == 1000 && !r.value.linearLearnRateDecay
                        && r.value.snapshotAutoSavePeriod == -1 && r.value.progressReportPeriod == 5
    {
      if |trainData| == 0 {
        return Err(IllegalArgument);
      }
      if |trainData[0]| == 0 {
        return Err(IllegalArgument);
      }
      if trainSamples < 1 || trainSamples > |trainData| {
        return Err(IllegalArgument);
      }
      var model := new Lvqnn(trainData, trainSamples, sqrt, rng);
      return Ok(model);
    }

    /** getFeaturesNumber: the length of the first training row. */
    function FeaturesNumber(): nat
      reads this
      requires Valid()
    {
      |trainData[0]|
    }

    /** normalizeInput: with a normalization function, the first trainSamples
        rows are normalized in order; a row the function rejects ends the loop
        with its exception and leaves the rows after it as they were. */
    method NormalizeInput() returns (r: Outcome)
      requires Valid()
      modifies this`trainData
      ensures Valid()
      ensures normalizer.None? ==> trainData == old(trainData) && r == Pass
      ensures normalizer.Some? ==> (trainData, r) == NormalizeRows(normalizer.value, old(trainData), trainSamples, 0)
    {
      if normalizer.None? {
        return Pass;
      }
      var n := normalizer.value;
      ghost var target := NormalizeRows(n, trainData, trainSamples, 0);
      for sample := 0 to trainSamples
        invariant Valid()
        invariant NormalizeRows(n, trainData, trainSamples, sample) == target
      {
        var row := trainData[sample];
        var vec := new real[|row|](f requires 0 <= f < |row| => row[f]);
        assert vec[..] == row;
        r := Normalize(n, vec);
        if r.Fail? {
          return;
        }
        trainData := trainData[sample := vec[..]];
      }
      return Pass;
    }

    /** initializeWeights: a fresh trainSamples x nFeatures table filled by the
        configured strategy, then the per-label histogram, whose array index is
        the label (int) vec[nFeatures - 1] of each weight row. */
    method InitializeWeights() returns (r: Outcome)
      requires Valid() && Uniform(trainData)
      modifies this`weights, rng
      ensures weights == Some(WeightsInitializer.InitialRows(strategy, rng.draw, old(rng.pos), trainData, trainSamples, FeaturesNumber()))
      ensures rng.pos == old(rng.pos) + WeightsInitializer.DrawsUsed(strategy, trainSamples, |trainData|)
      ensures r.Pass? <==> LabelsBelow(weights.value, trainSamples)
      ensures r.Fail? ==> r.error == IndexOutOfBounds
    {
      var w := InitialTable(strategy, trainData, trainSamples, FeaturesNumber(), rng);
      weights := Some(w);
      r := Histogram(w, trainSamples, FeaturesNumber());
    }

    /** classify: the label slot of the best matching unit of testVec. */
    method Classify(testVec: seq<real>) returns (r: Result<int>)
      modifies this`lastWinnerDistance
      ensures r == ClassifyOf(metric, weights, lastTrainErrorSquare, testVec)
      ensures |testVec| == 0 || lastTrainErrorSquare == 0.0 || Search(metric, weights, testVec).Err? ==>
                lastWinnerDistance == old(lastWinnerDistance)
      ensures |testVec| > 0 && lastTrainErrorSquare != 0.0 && Search(metric, weights, testVec).Ok? ==>
                lastWinnerDistance == Search(metric, weights, testVec).value.dist
    {
      if |testVec| == 0 {
        return Err(IllegalArgument);
      }
      if lastTrainErrorSquare == 0.0 {
        return Err(IllegalState);
      }
      var bmu := FindBestMatchingUnit(testVec);
      if bmu.Err? {
        return Err(bmu.error);
      }
      if bmu.value.None? {
        return Err(NullPointer);
      }
      var row := weights.value[bmu.value.value];
      return Ok(Trunc(row[|row| - 1]));
    }

    /** copyBasicConfiguration: the generator (the same object), the periods,
        the yield flag and the learn-rate settings of `other`. */
    method CopyBasicConfiguration(other: Lvqnn) returns (r: Outcome)
      modifies this`rng, this`snapshotAutoSavePeriod, this`progressReportPeriod, this`yieldTrainThread,
               this`learnRate, this`quitLearnRate, this`linearLearnRateDecay, this`momentum, this`maxEpochs
      ensures other == this ==> r == Fail(IllegalState) && Settings() == old(Settings()) && rng == old(rng)
                                && progressReportPeriod == old(progressReportPeriod) && yieldTrainThread == old(yieldTrainThread)
      ensures other != this ==> r == Pass && rng == other.rng
                                && snapshotAutoSavePeriod == other.snapshotAutoSavePeriod
                                && progressReportPeriod == other.progressReportPeriod
                                && yieldTrainThread == other.yieldTrainThread
                                && learnRate == other.learnRate && quitLearnRate == other.quitLearnRate
                                && linearLearnRateDecay == other.linearLearnRateDecay
                                && momentum == other.momentum && maxEpochs == other.maxEpochs
    {
      if other == this {
        return Fail(IllegalState);
      }
      rng := other.rng;
      snapshotAutoSavePeriod := other.snapshotAutoSavePeriod;
      progressReportPeriod := other.progressReportPeriod;
      yieldTrainThread := other.yieldTrainThread;
      learnRate := other.learnRate;
      quitLearnRate := other.quitLearnRate;
      linearLearnRateDecay := other.linearLearnRateDecay;
      momentum := other.momentum;
      maxEpochs := other.maxEpochs;
      return Pass;
    }

    /** copyInternals: the error measures, then a deep copy of the first
        nFeatures elements of each of other's weight rows, then the epoch and
        the learn rate. A null table in `other` throws after the error measures
        were taken; a row shorter than nFeatures throws from arraycopy and
        leaves the rows copied so far. */
    method CopyInternals(other: Lvqnn) returns (r: Outcome)
      requires Valid() && other.Valid()
      modifies this`lastWinnerDistance, this`lastTrainErrorSquare, this`weights, this`currentEpoch, this`currentLearnRate
      ensures other == this ==> r == Fail(IllegalState) && Internals() == old(Internals())
      ensures other != this && (FeaturesNumber() != other.FeaturesNumber() || |trainData| != |other.trainData|) ==>
                r == Fail(IllegalArgument) && Internals() == old(Internals())
      ensures other != this && FeaturesNumber() == other.FeaturesNumber() && |trainData| == |other.trainData| ==>
                && lastWinnerDistance == other.lastWinnerDistance && lastTrainErrorSquare == other.lastTrainErrorSquare
                && (other.weights.None? ==>
                      r == Fail(NullPointer) && weights == old(weights)
                      && currentEpoch == old(currentEpoch) && currentLearnRate == old(currentLearnRate))
                && (other.weights.Some? ==> weights.Some? && CopyOutcome(other.weights.value, FeaturesNumber(), weights.value, r))
                && (r.Pass? ==> currentEpoch == other.currentEpoch && currentLearnRate == other.currentLearnRate)
                && (r.Fail? ==> currentEpoch == old(currentEpoch) && currentLearnRate == old(currentLearnRate))
    {
      if other == this {
        return Fail(IllegalState);
      }
      var nFeatures := other.FeaturesNumber();
      if FeaturesNumber() != nFeatures || |trainData| != |other.trainData| {
        return Fail(IllegalArgument);
      }
      lastWinnerDistance := other.lastWinnerDistance;
      lastTrainErrorSquare := other.lastTrainErrorSquare;
      if other.weights.None? {
        return Fail(NullPointer);
      }
      var from := other.weights.value;
      var table := CopiedRows(from, nFeatures, 0);
      for i := 0 to |from|
        invariant forall j :: 0 <= j < i ==> nFeatures <= |from[j]|
        invariant table == CopiedRows(from, nFeatures, i)
      {
        if |from[i]| < nFeatures {
          weights := Some(table);
          return Fail(IndexOutOfBounds);
        }
        table := table[i := from[i][..nFeatures]];
        assert table == CopiedRows(from, nFeatures, i + 1);
      }
      weights := Some(table);
      currentEpoch := other.currentEpoch;
      currentLearnRate := other.currentLearnRate;
      return Pass;
    }

    /** The configuration `train` reads. */
    function Settings(): Settings
      reads this
    {
      Training.Settings(metric, learnRate, quitLearnRate, linearLearnRateDecay, momentum, maxEpochs,
                        snapshotAutoSavePeriod, hasSerializer, hasListener)
    }

    /** The internal state, with the events caused so far. */
    function Internals(): Internals
      reads this
    {
      Training.Internals(weights, currentEpoch, currentLearnRate, lastTrainErrorSquare, lastWinnerDistance, halt, events)
    }

    /** halt(): the train loop stops at its next check. */
    method Halt()
      modifies this`halt
      ensures halt
    {
      halt := true;
    }

    method CallStateUpdateListenerSafely(sumError: real, last: bool)
      modifies this`events
      ensures Internals() == Notify(Settings(), old(Internals()), sumError, last)
    {
      if hasListener {
        events := events + [Notified(currentEpoch, currentLearnRate, sumError, last)];
      }
    }

    method SaveSnapshot() returns (r: Outcome)
      modifies this`events
      ensures (Internals(), r) == Save(Settings(), old(Internals()))
    {
      if !hasSerializer {
        return Fail(NullPointer);
      }
      events := events + [Saved(currentEpoch)];
      return Pass;
    }

    /** findBestMatchingUnit: the index of the first prototype at the least
        distance below Double.MAX_VALUE, if any; that distance (or
        Double.MAX_VALUE) becomes lastWinnerDistance. */
    method FindBestMatchingUnit(testVec: seq<real>) returns (r: Result<Option<nat>>)
      modifies this`lastWinnerDistance
      ensures var s := Search(metric, weights, testVec);
        && (s.Err? ==> r == Err(s.error) && lastWinnerDistance == old(lastWinnerDistance))
        && (s.Ok? ==> r == Ok(s.value.unit) && lastWinnerDistance == s.value.dist)
    {
      if weights.None? {
        return Err(NullPointer);
      }
      var w := weights.value;
      var minDist := MaxValue;
      var bmu: Option<nat> := None;
      for i := 0 to |w|
        invariant lastWinnerDistance == old(lastWinnerDistance)
        invariant Bmu(metric, w, testVec, i) == Ok(Winner(minDist, bmu))
      {
        var dist := Measure(metric, w[i], testVec);
        if dist.Err? {
          BmuErrorStays(metric, w, testVec, i + 1, |w|);
          return Err(dist.error);
        }
        if dist.value < minDist {
          minDist := dist.value;
          bmu := Some(i);
        }
      }
      lastWinnerDistance := minDist;
      return Ok(bmu);
    }

    /** The feature loop of one sample: the best matching unit b moves, and the
        squared errors are added to sumError. */
    method MoveUnit(b: nat, sample: seq<real>, sumError: real) returns (total: real)
      requires Valid() && weights.Some? && b < |weights.value|
      requires |weights.value[b]| == |sample| == FeaturesNumber()
      modifies this`weights
      ensures var row := old(weights.value[b]);
        && weights == Some(old(weights.value)[b := Moved(row, sample, currentLearnRate)])
        && total == sumError + SquaredDiffs(sample, row, |sample| - 1)
    {
      var nFeatures := FeaturesNumber();
      var row := weights.value[b];
      ghost var row0 := row;
      total := sumError;
      for feature := 0 to nFeatures - 1
        invariant |row| == nFeatures && row[nFeatures - 1] == row0[nFeatures - 1]
        invariant forall g :: 0 <= g < feature ==> row[g] == Moved(row0, sample, currentLearnRate)[g]
        invariant forall g :: feature <= g < nFeatures ==> row[g] == row0[g]
        invariant total == sumError + SquaredDiffs(sample, row0, feature)
      {
        var error := sample[feature] - row[feature];
        total := total + error * error;
        if row[nFeatures - 1] == sample[nFeatures - 1] {
          row := row[feature := row[feature] + error * currentLearnRate];
        } else {
          row := row[feature := row[feature] - error * currentLearnRate];
        }
      }
      assert row == Moved(row0, sample, currentLearnRate);
      weights := Some(weights.value[b := row]);
    }

    /** One sample of an epoch: its best matching unit, then the feature loop. */
    method TrainSample(sample: seq<real>, sumError: real) returns (total: real, r: Outcome)
      requires Valid() && weights.Some? && |sample| == FeaturesNumber()
      modifies this`weights, this`lastWinnerDistance
      ensures weights.Some?
      ensures Sweep(weights.value, total, lastWinnerDistance, r)
              == Step(metric, Sweep(old(weights.value), sumError, old(lastWinnerDistance), Pass), sample, currentLearnRate)
    {
      total := sumError;
      var bmu := FindBestMatchingUnit(sample);
      if bmu.Err? {
        return total, Fail(bmu.error);
      }
      if bmu.value.None? {
        if FeaturesNumber() - 1 > 0 {
          return total, Fail(NullPointer);
        }
        return total, Pass;
      }
      total := MoveUnit(bmu.value.value, sample, sumError);
      return total, Pass;
    }

    /** One epoch: for each training row, its best matching unit moves. */
    method RunEpoch() returns (sumError: real, r: Outcome)
      requires Valid() && Uniform(trainData) && weights.Some?
      modifies this`weights, this`lastWinnerDistance
      ensures var e := Epoch(metric, old(weights.value), trainData, currentLearnRate, old(lastWinnerDistance));
        weights == Some(e.weights) && lastWinnerDistance == e.winnerDist && sumError == e.sumError && r == e.outcome
    {
      ghost var e := Epoch(metric, weights.value, trainData, currentLearnRate, lastWinnerDistance);
      sumError := 0.0;
      for j := 0 to |trainData|
        invariant weights.Some?
        invariant EpochFrom(metric, trainData, currentLearnRate, j, Sweep(weights.value, sumError, lastWinnerDistance, Pass)) == e
      {
        sumError, r := TrainSample(trainData[j], sumError);
        if r.Fail? {
          return;
        }
      }
      return sumError, Pass;
    }

    /** train: the state checks, then the epoch loop until maxEpochs, the quit
        learn rate or a halt request. `requests(j)` says whether halt() has
        been called by the j-th check of the flag. */
    method Train(requests: nat -> bool) returns (r: Outcome)
      requires Valid() && Uniform(trainData)
      modifies this`weights, this`lastWinnerDistance, this`currentEpoch, this`currentLearnRate,
               this`lastTrainErrorSquare, this`halt, this`events
      ensures (Internals(), r) == TrainSpec(Settings(), trainData, old(Internals()), requests)
    {
      if weights.None? {
        return Fail(IllegalState);
      }
      if currentEpoch == 0 {
        if lastTrainErrorSquare != 0.0 {
          return Fail(IllegalState);
        }
        currentLearnRate := learnRate;
      } else {
        if lastTrainErrorSquare == 0.0 {
          return Fail(IllegalState);
        }
        if currentEpoch >= maxEpochs || learnRate <= quitLearnRate {
          return Pass;
        }
      }
      r := Loop(requests);
      if r.Fail? {
        return;
      }
      if snapshotAutoSavePeriod >= 0 {
        r := SaveSnapshot();
      }
    }

    /** The `while` loop of train: epochs until the conditions break or the
        halt flag is seen. */
    method Loop(requests: nat -> bool) returns (r: Outcome)
      requires Valid() && Uniform(trainData) && weights.Some?
      modifies this`weights, this`lastWinnerDistance, this`currentEpoch, this`currentLearnRate,
               this`lastTrainErrorSquare, this`halt, this`events
      ensures (Internals(), r) == TrainLoop(Settings(), trainData, old(Internals()), requests, 0)
    {
      ghost var target := TrainLoop(Settings(), trainData, Internals(), requests, 0);
      var j: nat := 0;
      while currentEpoch < maxEpochs && currentLearnRate > quitLearnRate
        invariant weights.Some?
        invariant TrainLoop(Settings(), trainData, Internals(), requests, j) == target
        decreases maxEpochs - currentEpoch
      {
        if requests(j) {
          Halt();
        }
        if halt {
          CallStateUpdateListenerSafely(lastTrainErrorSquare, true);
          assert (Internals(), Pass) == target;
          return Pass;
        }
        r := Epochs(requests, j, target);
        if r.Fail? {
          return;
        }
        j := j + 1;
      }
      assert (Internals(), Pass) == target;
      return Pass;
    }

    /** The epoch and the bookkeeping after it: the decayed learn rate, the
        error sum and the epoch counter. */
    method Learn() returns (sumError: real, r: Outcome)
      requires Valid() && Uniform(trainData) && weights.Some?
      modifies this`weights, this`lastWinnerDistance, this`currentEpoch, this`currentLearnRate, this`lastTrainErrorSquare
      ensures var e := Epoch(metric, old(weights.value), trainData, old(currentLearnRate), old(lastWinnerDistance));
        && r == e.outcome && sumError == e.sumError
        && (r.Fail? ==> Internals() == old(Internals()).(weights := Some(e.weights), lastWinnerDistance := e.winnerDist))
        && (r.Pass? ==> Internals() == Advanced(Settings(), old(Internals()), e))
    {
      sumError, r := RunEpoch();
      if r.Fail? {
        return;
      }
      if linearLearnRateDecay {
        currentLearnRate := learnRate * (1.0 - DivDouble(currentEpoch as real, maxEpochs as real));
      } else {
        currentLearnRate := currentLearnRate * momentum;
      }
      lastTrainErrorSquare := sumError;
      currentEpoch := currentEpoch + 1;
    }

    /** One pass of the train loop after the halt check: the epoch, the periodic
        snapshot and the listener. */
    method Epochs(requests: nat -> bool, j: nat, ghost target: (Internals, Outcome)) returns (r: Outcome)
      requires Valid() && Uniform(trainData) && weights.Some? && Running(Settings(), Internals())
      requires !halt && !requests(j)
      requires TrainLoop(Settings(), trainData, Internals(), requests, j) == target
      modifies this`weights, this`lastWinnerDistance, this`currentEpoch, this`currentLearnRate,
               this`lastTrainErrorSquare, this`events
      ensures weights.Some? && currentEpoch >= old(currentEpoch)
      ensures r.Fail? ==> (Internals(), r) == target
      ensures r.Pass? ==> currentEpoch == old(currentEpoch) + 1
                          && TrainLoop(Settings(), trainData, Internals(), requests, j + 1) == target
    {
      LoopTurn(Settings(), trainData, Internals(), requests, j);
      var sumError;
      sumError, r := Learn();
      if r.Fail? {
        return;
      }
      if snapshotAutoSavePeriod > 0 && currentEpoch % snapshotAutoSavePeriod == 0 {
        r := SaveSnapshot();
        if r.Fail? {
          return;
        }
      }
      CallStateUpdateListenerSafely(sumError, currentEpoch >= maxEpochs || currentLearnRate <= quitLearnRate);
    }
  }
}
