/** The fluent builder of the library (ModelBuilder.java): it creates the model
    from a list of records once, then lets each setting be changed through a
    guarded setter. A record is seen through its data vector, `None` for a
    record whose data is null. */
module ModelBuilder {
  import opened Wrappers
  import opened DistanceMetric
  import opened NormalizationFunction
  import WeightsInitializer
  import Lvqnn

  /** What withTrainData says about record i: a null vector, an empty one, or
      one whose length differs from the first record's. */
  function RecordError(records: seq<Option<seq<real>>>, i: nat): Option<Error>
    requires i < |records|
  {
    if records[i].None? then Some(NullPointer)
    else if |records[i].value| == 0 then Some(IllegalArgument)
    else if i > 0 && records[0].Some? && |records[i].value| != |records[0].value| then Some(IllegalArgument)
    else None
  }

  /** The loop of withTrainData over the first n records: their data vectors,
      or the exception of the first record that is rejected. */
  function Collect(records: seq<Option<seq<real>>>, n: nat): Result<seq<seq<real>>>
    requires n <= |records|
  {
    if n == 0 then Ok([])
    else
      match Collect(records, n - 1)
      case Err(e) => Err(e)
      case Ok(rows) =>
        match RecordError(records, n - 1)
        case Some(e) => Err(e)
        case None => Ok(rows + [records[n - 1].value])
  }

  /** The loop accepts the records exactly when each has a non-empty vector of
      the first one's length, and then hands over those vectors in order;
      otherwise it fails with the error of the first rejected record. */
  lemma {:induction false} CollectFacts(records: seq<Option<seq<real>>>, n: nat)
    requires n <= |records|
    ensures Collect(records, n).Ok? <==> forall i :: 0 <= i < n ==> RecordError(records, i).None?
    ensures Collect(records, n).Ok? ==>
              var rows := Collect(records, n).value;
              && |rows| == n
              && (forall i :: 0 <= i < n ==> records[i].Some? && rows[i] == records[i].value && |rows[i]| >= 1)
              && (n >= 1 ==> forall i :: 0 <= i < n ==> |rows[i]| == |rows[0]|)
    ensures Collect(records, n).Err? ==>
              exists i :: 0 <= i < n && (forall j :: 0 <= j < i ==> RecordError(records, j).None?)
                                     && RecordError(records, i) == Some(Collect(records, n).error)
  {
    if n > 0 {
      CollectFacts(records, n - 1);
    }
  }

  /** Once a record is rejected, the loop ends with its exception. */
  lemma {:induction false} CollectErrorStays(records: seq<Option<seq<real>>>, i: nat, n: nat)
    requires i <= n <= |records| && Collect(records, i).Err?
    ensures Collect(records, n) == Collect(records, i)
    decreases n - i
  {
    if i < n {
      CollectErrorStays(records, i, n - 1);
    }
  }

  /** The settings a builder accepts, with the defaults of the model among them. */
  ghost predicate InRange(model: Lvqnn.Lvqnn)
    reads model
  {
    && 0.0 < model.learnRate <= 1.0
    && 0.0 < model.quitLearnRate < 1.0
    && 0.0 < model.momentum < 1.0
    && model.maxEpochs >= 1
    && model.snapshotAutoSavePeriod >= -1
    && model.progressReportPeriod >= 0
  }

  class ModelBuilder {
    var model: Lvqnn.Lvqnn?
    var allSamples: seq<Option<seq<real>>>
    var learnDecayMethodSet: bool

    /** The model, as a frame: nothing before withTrainData. */
    function Model(): set<Lvqnn.Lvqnn>
      reads this
    {
      if model == null then {} else {model}
    }

    /** The builder's invariant: the model, once created, has uniform rows and
        settings in range; the decay method is unset until a model exists. */
    ghost predicate Valid()
      reads this, model
    {
      && (model == null ==> !learnDecayMethodSet)
      && (model != null ==> model.Valid() && Lvqnn.Uniform(model.trainData) && InRange(model))
      && (model != null && !learnDecayMethodSet ==> !model.linearLearnRateDecay)
    }

    constructor ()
      ensures Valid() && model == null && allSamples == [] && !learnDecayMethodSet
    {
      model := null;
      allSamples := [];
      learnDecayMethodSet := false;
    }

    /** withTrainData: once only, from a non-empty list of records whose data
        vectors are non-empty and of one length; the model's constructor checks
        trainSamples. `sqrt` and `rng` are the model's default Euclidean square
        root and generator. */
    method WithTrainData(records: seq<Option<seq<real>>>, trainSamples: int, sqrt: real -> real, rng: WeightsInitializer.Rng)
      returns (r: Outcome)
      requires Valid()
      modifies this
      ensures Valid()
      ensures old(model) != null ==> r == Fail(IllegalState) && model == old(model) && allSamples == old(allSamples)
      ensures old(model) == null && |records| == 0 ==> r == Fail(IllegalArgument) && model == null
      ensures old(model) == null && |records| > 0 && Collect(records, |records|).Err? ==>
                r == Fail(Collect(records, |records|).error) && model == null
      ensures old(model) == null && |records| > 0 && Collect(records, |records|).Ok? ==>
                var rows := Collect(records, |records|).value;
                if trainSamples < 1 || trainSamples > |rows| then r == Fail(IllegalArgument) && model == null
                else && r == Pass && model != null && fresh(model)
                     && model.trainData == rows && model.trainSamples == trainSamples
                     && allSamples == records && learnDecayMethodSet == old(learnDecayMethodSet)
    {
      if model != null {
        return Fail(IllegalState);
      }
      if |records| == 0 {
        return Fail(IllegalArgument);
      }
      var rows: seq<seq<real>> := [];
      var firstVecLen := -1;
      for i := 0 to |records|
        invariant Collect(records, i) == Ok(rows)
        invariant i == 0 <==> firstVecLen == -1
        invariant i > 0 ==> records[0].Some? && firstVecLen == |records[0].value|
      {
        var data := records[i];
        if data.None? {
          CollectErrorStays(records, i + 1, |records|);
          return Fail(NullPointer);
        }
        if |data.value| == 0 {
          CollectErrorStays(records, i + 1, |records|);
          return Fail(IllegalArgument);
        }
        if firstVecLen == -1 {
          firstVecLen := |data.value|;
        } else if |data.value| != firstVecLen {
          CollectErrorStays(records, i + 1, |records|);
          return Fail(IllegalArgument);
        }
        rows := rows + [data.value];
      }
      CollectFacts(records, |records|);
      var created := Lvqnn.Lvqnn.Create(rows, trainSamples, sqrt, rng);
      if created.Err? {
        return Fail(created.error);
      }
      model := created.value;
      allSamples := records;
      return Pass;
    }

    /** withInputNormalizationFunc: any function, or none. */
    method WithInputNormalizationFunc(normalizer: Option<Normalizer>) returns (r: Outcome)
      requires Valid()
      modifies Model()`normalizer
      ensures Valid()
      ensures model == null ==> r == Fail(IllegalState)
      ensures model != null ==> r == Pass && model.normalizer == normalizer
    {
      if model == null {
        return Fail(IllegalState);
      }
      model.normalizer := normalizer;
      return Pass;
    }

    /** withWeightsInitializer. */
    method WithWeightsInitializer(strategy: WeightsInitializer.Strategy) returns (r: Outcome)
      requires Valid()
      modifies Model()`strategy
      ensures Valid()
      ensures model == null ==> r == Fail(IllegalState)
      ensures model != null ==> r == Pass && model.strategy == strategy
    {
      if model == null {
        return Fail(IllegalState);
      }
      model.strategy := strategy;
      return Pass;
    }

    /** withDistanceMetric. */
    method WithDistanceMetric(metric: Metric) returns (r: Outcome)
      requires Valid()
      modifies Model()`metric
      ensures Valid()
      ensures model == null ==> r == Fail(IllegalState)
      ensures model != null ==> r == Pass && model.metric == metric
    {
      if model == null {
        return Fail(IllegalState);
      }
      model.metric := metric;
      return Pass;
    }

    /** withRandomNumberGenerator(Random). */
    method WithRandomNumberGenerator(rng: WeightsInitializer.Rng) returns (r: Outcome)
      requires Valid()
      modifies Model()`rng
      ensures Valid()
      ensures model == null ==> r == Fail(IllegalState)
      ensures model != null ==> r == Pass && model.rng == rng
    {
      if model == null {
        return Fail(IllegalState);
      }
      model.rng := rng;
      return Pass;
    }

    /** withRandomNumberGenerator(long): a new generator whose draws `draw`
        are those that `new Random(seed)` produces. */
    method WithRandomNumberGeneratorSeed(draw: nat -> nat) returns (r: Outcome)
      requires Valid()
      modifies Model()`rng
      ensures Valid()
      ensures model == null ==> r == Fail(IllegalState)
      ensures model != null ==> r == Pass && fresh(model.rng) && model.rng.draw == draw && model.rng.pos == 0
    {
      var rng := new WeightsInitializer.Rng(draw);
      r := WithRandomNumberGenerator(rng);
    }

    /** withSerializer: any serializer, or none. */
    method WithSerializer(present: bool) returns (r: Outcome)
      requires Valid()
      modifies Model()`hasSerializer
      ensures Valid()
      ensures model == null ==> r == Fail(IllegalState)
      ensures model != null ==> r == Pass && model.hasSerializer == present
    {
      if model == null {
        return Fail(IllegalState);
      }
      model.hasSerializer := present;
      return Pass;
    }

    /** withSnapshotAutoSavePeriod: only once a serializer is set, and only -1,
        0 or a positive period. */
    method WithSnapshotAutoSavePeriod(period: int) returns (r: Outcome)
      requires Valid()
      modifies Model()`snapshotAutoSavePeriod
      ensures Valid()
      ensures model == null ==> r == Fail(IllegalState)
      ensures model != null && !model.hasSerializer ==> r == Fail(IllegalState)
      ensures model != null && model.hasSerializer && period < -1 ==> r == Fail(IllegalArgument)
      ensures model != null && r.Fail? ==> model.snapshotAutoSavePeriod == old(model.snapshotAutoSavePeriod)
      ensures model != null && model.hasSerializer && period >= -1 ==> r == Pass && model.snapshotAutoSavePeriod == period
    {
      if model == null {
        return Fail(IllegalState);
      }
      if !model.hasSerializer {
        return Fail(IllegalState);
      }
      if period < -1 {
        return Fail(IllegalArgument);
      }
      model.snapshotAutoSavePeriod := period;
      return Pass;
    }

    /** withProgressReportPeriod: 0 or a positive period. */
    method WithProgressReportPeriod(period: int) returns (r: Outcome)
      requires Valid()
      modifies Model()`progressReportPeriod
      ensures Valid()
      ensures model == null ==> r == Fail(IllegalState)
      ensures model != null && period < 0 ==> r == Fail(IllegalArgument) && model.progressReportPeriod == old(model.progressReportPeriod)
      ensures model != null && period >= 0 ==> r == Pass && model.progressReportPeriod == period
    {
      if model == null {
        return Fail(IllegalState);
      }
      if period < 0 {
        return Fail(IllegalArgument);
      }
      model.progressReportPeriod := period;
      return Pass;
    }

    /** withModelStateListener: any listener, or none. */
    method WithModelStateListener(present: bool) returns (r: Outcome)
      requires Valid()
      modifies Model()`hasListener
      ensures Valid()
      ensures model == null ==> r == Fail(IllegalState)
      ensures model != null ==> r == Pass && model.hasListener == present
    {
      if model == null {
        return Fail(IllegalState);
      }
      model.hasListener := present;
      return Pass;
    }

    /** withYieldingTrainThread. */
    method WithYieldingTrainThread(yieldTrainThread: bool) returns (r: Outcome)
      requires Valid()
      modifies Model()`yieldTrainThread
      ensures Valid()
      ensures model == null ==> r == Fail(IllegalState)
      ensures model != null ==> r == Pass && model.yieldTrainThread == yieldTrainThread
    {
      if model == null {
        return Fail(IllegalState);
      }
      model.yieldTrainThread := yieldTrainThread;
      return Pass;
    }

    /** withLearnRate: a rate in (0, 1]. */
    method WithLearnRate(learnRate: real) returns (r: Outcome)
      requires Valid()
      modifies Model()`learnRate
      ensures Valid()
      ensures model == null ==> r == Fail(IllegalState)
      ensures model != null && !(0.0 < learnRate <= 1.0) ==> r == Fail(IllegalArgument) && model.learnRate == old(model.learnRate)
      ensures model != null && 0.0 < learnRate <= 1.0 ==> r == Pass && model.learnRate == learnRate
    {
      if model == null {
        return Fail(IllegalState);
      }
      if learnRate <= 0.0 || learnRate > 1.0 {
        return Fail(IllegalArgument);
      }
      model.learnRate := learnRate;
      return Pass;
    }

    /** withQuitLearnRate: a rate in (0, 1). */
    method WithQuitLearnRate(quitLearnRate: real) returns (r: Outcome)
      requires Valid()
      modifies Model()`quitLearnRate
      ensures Valid()
      ensures model == null ==> r == Fail(IllegalState)
      ensures model != null && !(0.0 < quitLearnRate < 1.0) ==>
                r == Fail(IllegalArgument) && model.quitLearnRate == old(model.quitLearnRate)
      ensures model != null && 0.0 < quitLearnRate < 1.0 ==> r == Pass && model.quitLearnRate == quitLearnRate
    {
      if model == null {
        return Fail(IllegalState);
      }
      if quitLearnRate <= 0.0 || quitLearnRate >= 1.0 {
        return Fail(IllegalArgument);
      }
      model.quitLearnRate := quitLearnRate;
      return Pass;
    }

    /** withLinearLearnRateDecay: the decay method may be chosen once. */
    method WithLinearLearnRateDecay() returns (r: Outcome)
      requires Valid()
      modifies this`learnDecayMethodSet, Model()`linearLearnRateDecay
      ensures Valid()
      ensures model == null ==> r == Fail(IllegalState) && !learnDecayMethodSet
      ensures model != null && old(learnDecayMethodSet) ==>
                r == Fail(IllegalState) && learnDecayMethodSet && model.linearLearnRateDecay == old(model.linearLearnRateDecay)
      ensures model != null && !old(learnDecayMethodSet) ==> r == Pass && learnDecayMethodSet && model.linearLearnRateDecay
    {
      if model == null {
        return Fail(IllegalState);
      }
      if learnDecayMethodSet {
        return Fail(IllegalState);
      }
      model.linearLearnRateDecay := true;
      learnDecayMethodSet := true;
      return Pass;
    }

    /** withMomentumLearnRateDecay: the decay method may be chosen once, and a
        momentum outside (0, 1) leaves it unchosen. */
    method WithMomentumLearnRateDecay(momentum: real) returns (r: Outcome)
      requires Valid()
      modifies this`learnDecayMethodSet, Model()`linearLearnRateDecay, Model()`momentum
      ensures Valid()
      ensures model == null ==> r == Fail(IllegalState) && !learnDecayMethodSet
      ensures model != null && old(learnDecayMethodSet) ==>
                && r == Fail(IllegalState) && learnDecayMethodSet
                && model.linearLearnRateDecay == old(model.linearLearnRateDecay) && model.momentum == old(model.momentum)
      ensures model != null && !old(learnDecayMethodSet) && !(0.0 < momentum < 1.0) ==>
                && r == Fail(IllegalArgument) && !learnDecayMethodSet
                && model.linearLearnRateDecay == old(model.linearLearnRateDecay) && model.momentum == old(model.momentum)
      ensures model != null && !old(learnDecayMethodSet) && 0.0 < momentum < 1.0 ==>
                r == Pass && learnDecayMethodSet && !model.linearLearnRateDecay && model.momentum == momentum
    {
      if model == null {
        return Fail(IllegalState);
      }
      if learnDecayMethodSet {
        return Fail(IllegalState);
      }
      if momentum <= 0.0 || momentum >= 1.0 {
        return Fail(IllegalArgument);
      }
      model.linearLearnRateDecay := false;
      model.momentum := momentum;
      learnDecayMethodSet := true;
      return Pass;
    }

    /** withMaxEpochs: a positive number. */
    method WithMaxEpochs(maxEpochs: int) returns (r: Outcome)
      requires Valid()
      modifies Model()`maxEpochs
      ensures Valid()
      ensures model == null ==> r == Fail(IllegalState)
      ensures model != null && maxEpochs < 1 ==> r == Fail(IllegalArgument) && model.maxEpochs == old(model.maxEpochs)
      ensures model != null && maxEpochs >= 1 ==> r == Pass && model.maxEpochs == maxEpochs
    {
      if model == null {
        return Fail(IllegalState);
      }
      if maxEpochs < 1 {
        return Fail(IllegalArgument);
      }
      model.maxEpochs := maxEpochs;
      return Pass;
    }

    /** build: the model with its records, which `new ModelWrapper` refuses
        when no model was created. */
    method Build() returns (r: Result<(Lvqnn.Lvqnn, seq<Option<seq<real>>>)>)
      requires Valid()
      ensures model == null ==> r == Err(NullPointer)
      ensures model != null ==> r == Ok((model, allSamples))
    {
      if model == null {
        return Err(NullPointer);
      }
      var built: Lvqnn.Lvqnn := model;
      return Ok((built, allSamples));
    }
  }
}
