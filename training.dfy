/** The learning rule of the engine (LVQNN.java) as functions: the search for
    the best matching unit, the update of one prototype, one epoch over the
    training rows and the epoch loop of `train`. The class in module Lvqnn runs
    these steps imperatively and is proved against them. */
module Training {
  import opened Wrappers
  import opened Doubles
  import opened DistanceMetric

  // ---------------------------------------------------------------------------
  // The best matching unit.

  /** The running minimum of findBestMatchingUnit: the smallest distance met so
      far (Double.MAX_VALUE to begin with) and the prototype it came from; no
      prototype while no distance was below the start value. */
  datatype Winner = Winner(dist: real, unit: Option<nat>)

  /** findBestMatchingUnit over the first n prototypes: a prototype replaces the
      current winner only when it is strictly closer. */
  function Bmu(m: Metric, w: seq<seq<real>>, v: seq<real>, n: nat): (r: Result<Winner>)
    requires n <= |w|
    ensures r.Ok? && r.value.unit.Some? ==> r.value.unit.value < n && Comparable(w[r.value.unit.value], v)
  {
    if n == 0 then Ok(Winner(MaxValue, None))
    else
      match Bmu(m, w, v, n - 1)
      case Err(e) => Err(e)
      case Ok(best) =>
        match MeasureOf(m, w[n - 1], v)
        case Err(e) => Err(e)
        case Ok(dist) =>
          ComparableExactly(m, w[n - 1], v);
          if dist < best.dist then Ok(Winner(dist, Some(n - 1))) else Ok(best)
  }

  /** Once a distance throws, the search ends with that exception. */
  lemma {:induction false} BmuErrorStays(m: Metric, w: seq<seq<real>>, v: seq<real>, i: nat, n: nat)
    requires i <= n <= |w| && Bmu(m, w, v, i).Err?
    ensures Bmu(m, w, v, n) == Bmu(m, w, v, i)
    decreases n - i
  {
    if i < n {
      BmuErrorStays(m, w, v, i, n - 1);
    }
  }

  // ---------------------------------------------------------------------------
  // One sample, one epoch.

  /** The update of the best matching unit for one sample: every feature slot f
      moves by error * rate, with error = sample[f] - row[f], towards the sample
      when the labels agree and away from it when they differ; the label slot
      stays. */
  function Moved(row: seq<real>, sample: seq<real>, rate: real): (r: seq<real>)
    requires |row| == |sample| >= 1
    ensures |r| == |row|
  {
    var n := |row|;
    seq(n, f requires 0 <= f < n =>
      if f == n - 1 then row[f]
      else if row[n - 1] == sample[n - 1] then row[f] + (sample[f] - row[f]) * rate
      else row[f] - (sample[f] - row[f]) * rate)
  }

  /** Where an epoch stands: the prototype table, the running error sum, the
      last winner distance, and the exception that ended the epoch early. */
  datatype Sweep = Sweep(weights: seq<seq<real>>, sumError: real, winnerDist: real, outcome: Outcome)

  /** One sample of an epoch: the search for its best matching unit, then the
      update of that unit. A search that finds no unit leaves `bmu` null, which
      the feature loop dereferences when there is a feature slot. */
  function Step(m: Metric, acc: Sweep, sample: seq<real>, rate: real): Sweep {
    match Bmu(m, acc.weights, sample, |acc.weights|)
    case Err(e) => acc.(outcome := Fail(e))
    case Ok(best) =>
      match best.unit
      case None =>
        if |sample| >= 2 then acc.(winnerDist := best.dist, outcome := Fail(NullPointer))
        else acc.(winnerDist := best.dist)
      case Some(b) =>
        acc.(weights := acc.weights[b := Moved(acc.weights[b], sample, rate)],
             sumError := acc.sumError + SquaredDiffs(sample, acc.weights[b], |sample| - 1),
             winnerDist := best.dist)
  }

  /** The samples from row j on, in order, until one of them fails. */
  function EpochFrom(m: Metric, data: seq<seq<real>>, rate: real, j: nat, acc: Sweep): Sweep
    requires j <= |data|
    decreases |data| - j
  {
    if j == |data| || acc.outcome.Fail? then acc
    else EpochFrom(m, data, rate, j + 1, Step(m, acc, data[j], rate))
  }

  /** One epoch: every training row once, from a zero error sum. */
  function Epoch(m: Metric, w: seq<seq<real>>, data: seq<seq<real>>, rate: real, winnerDist: real): Sweep {
    EpochFrom(m, data, rate, 0, Sweep(w, 0.0, winnerDist, Pass))
  }

  // ---------------------------------------------------------------------------
  // The epoch loop.

  /** What the model tells the outside world: a snapshot handed to the
      serializer, or a call of the state listener. */
  datatype Event =
    | Saved(epoch: int)
    | Notified(epoch: int, learnRate: real, sumError: real, last: bool)

  /** The configuration `train` reads. */
  datatype Settings = Settings(
    metric: Metric,
    learnRate: real,
    quitLearnRate: real,
    linearDecay: bool,
    momentum: real,
    maxEpochs: int,
    savePeriod: int,
    hasSerializer: bool,
    hasListener: bool)

  /** The internal state `train` updates, with the events it has caused. */
  datatype Internals = Internals(
    weights: Option<seq<seq<real>>>,
    currentEpoch: int,
    currentLearnRate: real,
    lastTrainErrorSquare: real,
    lastWinnerDistance: real,
    halt: bool,
    events: seq<Event>)

  /** The condition of the epoch loop. */
  predicate Running(cfg: Settings, s: Internals) {
    s.currentEpoch < cfg.maxEpochs && s.currentLearnRate > cfg.quitLearnRate
  }

  /** The learn rate after the epoch with index `epoch`. */
  function Decay(cfg: Settings, epoch: int, rate: real): real {
    if cfg.linearDecay then cfg.learnRate * (1.0 - DivDouble(epoch as real, cfg.maxEpochs as real))
    else rate * cfg.momentum
  }

  /** callStateUpdateListenerSafely: a call when a listener is set; whatever the
      listener throws is swallowed. */
  function Notify(cfg: Settings, s: Internals, sumError: real, last: bool): (r: Internals)
    ensures r.(events := s.events) == s
  {
    if cfg.hasListener then s.(events := s.events + [Notified(s.currentEpoch, s.currentLearnRate, sumError, last)])
    else s
  }

  /** saveSnapshot: a NullPointerException without a serializer. */
  function Save(cfg: Settings, s: Internals): (r: (Internals, Outcome))
    ensures r.0.(events := s.events) == s
    ensures r.1.Fail? <==> !cfg.hasSerializer
  {
    if cfg.hasSerializer then (s.(events := s.events + [Saved(s.currentEpoch)]), Pass)
    else (s, Fail(NullPointer))
  }

  /** The state after one completed epoch: the new learn rate, the epoch's error
      sum and the next epoch index. */
  function Advanced(cfg: Settings, s: Internals, e: Sweep): (r: Internals)
    ensures r.currentEpoch == s.currentEpoch + 1 && r.events == s.events
  {
    s.(weights := Some(e.weights), lastWinnerDistance := e.winnerDist,
       currentLearnRate := Decay(cfg, s.currentEpoch, s.currentLearnRate),
       lastTrainErrorSquare := e.sumError, currentEpoch := s.currentEpoch + 1)
  }

  /** The completed epoch followed by the periodic snapshot. */
  function Advance(cfg: Settings, s: Internals, e: Sweep): (r: (Internals, Outcome))
    ensures r.0.currentEpoch == s.currentEpoch + 1
  {
    var s1 := Advanced(cfg, s, e);
    if cfg.savePeriod > 0 && s1.currentEpoch % cfg.savePeriod == 0 then Save(cfg, s1) else (s1, Pass)
  }

  /** The `while` loop of train, from the j-th check of the halt flag on;
      `requests(j)` says whether halt() has been called by then. */
  function TrainLoop(cfg: Settings, data: seq<seq<real>>, s: Internals, requests: nat -> bool, j: nat): (Internals, Outcome)
    requires s.weights.Some?
    decreases cfg.maxEpochs - s.currentEpoch
  {
    if !Running(cfg, s) then (s, Pass)
    else if s.halt || requests(j) then (Notify(cfg, s.(halt := true), s.lastTrainErrorSquare, true), Pass)
    else
      var e := Epoch(cfg.metric, s.weights.value, data, s.currentLearnRate, s.lastWinnerDistance);
      if e.outcome.Fail? then (s.(weights := Some(e.weights), lastWinnerDistance := e.winnerDist), e.outcome)
      else
        var (s1, saved) := Advance(cfg, s, e);
        if saved.Fail? then (s1, saved)
        else TrainLoop(cfg, data, Notify(cfg, s1, e.sumError, !Running(cfg, s1)), requests, j + 1)
  }

  /** One turn of the loop that neither stops nor is halted. */
  lemma LoopTurn(cfg: Settings, data: seq<seq<real>>, s: Internals, requests: nat -> bool, j: nat)
    requires s.weights.Some? && Running(cfg, s) && !s.halt && !requests(j)
    ensures var e := Epoch(cfg.metric, s.weights.value, data, s.currentLearnRate, s.lastWinnerDistance);
      && (e.outcome.Fail? ==> TrainLoop(cfg, data, s, requests, j) == (s.(weights := Some(e.weights), lastWinnerDistance := e.winnerDist), e.outcome))
      && (e.outcome.Pass? && Advance(cfg, s, e).1.Fail? ==> TrainLoop(cfg, data, s, requests, j) == Advance(cfg, s, e))
      && (e.outcome.Pass? && Advance(cfg, s, e).1.Pass? ==>
            TrainLoop(cfg, data, s, requests, j) == TrainLoop(cfg, data, Notify(cfg, Advance(cfg, s, e).0, e.sumError, !Running(cfg, Advance(cfg, s, e).0)), requests, j + 1))
  { }

  /** train: the state checks, the loop, and the snapshot on finish. */
  function TrainSpec(cfg: Settings, data: seq<seq<real>>, s: Internals, requests: nat -> bool): (Internals, Outcome) {
    if s.weights.None? then (s, Fail(IllegalState))
    else if s.currentEpoch == 0 && s.lastTrainErrorSquare != 0.0 then (s, Fail(IllegalState))
    else if s.currentEpoch != 0 && s.lastTrainErrorSquare == 0.0 then (s, Fail(IllegalState))
    else if s.currentEpoch != 0 && (s.currentEpoch >= cfg.maxEpochs || cfg.learnRate <= cfg.quitLearnRate) then (s, Pass)
    else
      var s0 := if s.currentEpoch == 0 then s.(currentLearnRate := cfg.learnRate) else s;
      var (s1, r) := TrainLoop(cfg, data, s0, requests, 0);
      if r.Fail? || cfg.savePeriod < 0 then (s1, r) else Save(cfg, s1)
  }

  // ---------------------------------------------------------------------------
  // Properties of the best matching unit.

  /** The search fails exactly when some prototype cannot be compared with v,
      with the exception of the first such prototype. Otherwise the winner is
      the first prototype at the least distance, provided that distance is
      below Double.MAX_VALUE; when no distance is, there is no winner. */
  lemma {:induction false} BmuIsFirstMinimum(m: Metric, w: seq<seq<real>>, v: seq<real>, n: nat)
    requires n <= |w|
    ensures Bmu(m, w, v, n).Ok? <==> forall i :: 0 <= i < n ==> Comparable(w[i], v)
    ensures Bmu(m, w, v, n).Err? ==>
              exists i :: 0 <= i < n && (forall j :: 0 <= j < i ==> Comparable(w[j], v))
                                     && MeasureOf(m, w[i], v) == Err(Bmu(m, w, v, n).error)
    ensures Bmu(m, w, v, n).Ok? && Bmu(m, w, v, n).value.unit.None? ==>
              Bmu(m, w, v, n).value.dist == MaxValue
              && forall i :: 0 <= i < n ==> DistanceOf(m, w[i], v) >= MaxValue
    ensures Bmu(m, w, v, n).Ok? && Bmu(m, w, v, n).value.unit.Some? ==>
              var b := Bmu(m, w, v, n).value.unit.value;
              && Bmu(m, w, v, n).value.dist == DistanceOf(m, w[b], v) < MaxValue
              && (forall i :: 0 <= i < n ==> DistanceOf(m, w[b], v) <= DistanceOf(m, w[i], v))
              && (forall i :: 0 <= i < b ==> DistanceOf(m, w[b], v) < DistanceOf(m, w[i], v))
  {
    if n > 0 {
      BmuIsFirstMinimum(m, w, v, n - 1);
      ComparableExactly(m, w[n - 1], v);
    }
  }

  // ---------------------------------------------------------------------------
  // Properties of one sample and one epoch.

  /** The update moves a feature by the error times the rate: towards the sample
      (the gap shrinks by the factor 1 - rate) when the labels agree, away from
      it (the gap grows by the factor 1 + rate) when they differ. */
  lemma MovedGap(row: seq<real>, sample: seq<real>, rate: real, f: nat)
    requires |row| == |sample| >= 1 && f < |row| - 1
    ensures row[|row| - 1] == sample[|row| - 1] ==>
              Moved(row, sample, rate)[f] - sample[f] == (row[f] - sample[f]) * (1.0 - rate)
    ensures row[|row| - 1] != sample[|row| - 1] ==>
              Moved(row, sample, rate)[f] - sample[f] == (row[f] - sample[f]) * (1.0 + rate)
    ensures Moved(row, sample, rate)[|row| - 1] == row[|row| - 1]
  {
    var d := row[f] - sample[f];
    assert (sample[f] - row[f]) * rate == - (d * rate);
    assert d * (1.0 - rate) == d - d * rate;
    assert d * (1.0 + rate) == d + d * rate;
  }

  /** With a rate in [0, 1], a prototype of the sample's label gets no farther
      from it in any feature, and one of another label gets no closer. */
  lemma Attraction(row: seq<real>, sample: seq<real>, rate: real, f: nat)
    requires |row| == |sample| >= 1 && f < |row| - 1 && 0.0 <= rate <= 1.0
    ensures row[|row| - 1] == sample[|row| - 1] ==>
              Abs(Moved(row, sample, rate)[f] - sample[f]) <= Abs(row[f] - sample[f])
    ensures row[|row| - 1] != sample[|row| - 1] ==>
              Abs(Moved(row, sample, rate)[f] - sample[f]) >= Abs(row[f] - sample[f])
  {
    MovedGap(row, sample, rate, f);
    var d := row[f] - sample[f];
    ScaledGap(d, 1.0 - rate);
    ScaledGap(d, 1.0 + rate);
  }

  /** |d * c| is |d| scaled by c >= 0. */
  lemma ScaledGap(d: real, c: real)
    requires c >= 0.0
    ensures Abs(d * c) == Abs(d) * c
    ensures c <= 1.0 ==> Abs(d * c) <= Abs(d)
    ensures c >= 1.0 ==> Abs(d * c) >= Abs(d)
  {
    if d >= 0.0 {
      assert d * c >= 0.0;
    } else {
      assert d * c <= 0.0;
      assert Abs(d * c) == (-d) * c;
    }
  }

  /** The table keeps its number of rows, the length of every row, and the label
      slot of every prototype. */
  predicate SameShape(w0: seq<seq<real>>, w1: seq<seq<real>>) {
    && |w1| == |w0|
    && forall i :: 0 <= i < |w0| ==>
         |w1[i]| == |w0[i]| && (|w0[i]| >= 1 ==> w1[i][|w0[i]| - 1] == w0[i][|w0[i]| - 1])
  }

  /** The errors an epoch can end with: those of validateInputVectors, and the
      NullPointerException of a search without a winner. */
  predicate EpochError(e: Error) {
    e == IllegalArgument || e == Arithmetic || e == NullPointer
  }

  /** One sample keeps the shape of the table, adds a non-negative amount to the
      error sum, and fails only with an epoch error. */
  lemma StepFacts(m: Metric, acc: Sweep, sample: seq<real>, rate: real)
    requires acc.outcome.Pass?
    ensures SameShape(acc.weights, Step(m, acc, sample, rate).weights)
    ensures Step(m, acc, sample, rate).sumError >= acc.sumError
    ensures Step(m, acc, sample, rate).outcome.Fail? ==> EpochError(Step(m, acc, sample, rate).outcome.error)
  {
    var n := |acc.weights|;
    BmuIsFirstMinimum(m, acc.weights, sample, n);
    match Bmu(m, acc.weights, sample, n)
    case Err(e) =>
      var i :| 0 <= i < n && (forall j :: 0 <= j < i ==> Comparable(acc.weights[j], sample))
                          && MeasureOf(m, acc.weights[i], sample) == Err(e);
      ComparableExactly(m, acc.weights[i], sample);
    case Ok(best) =>
      match best.unit
      case None =>
      case Some(b) =>
        SquaredDiffsNonNegative(sample, acc.weights[b], |sample| - 1);
  }

  /** One sample changes at most one prototype row, the winner's, and that
      row becomes Moved of it; every other row stays as it was. */
  lemma OnlyWinnerMoves(m: Metric, acc: Sweep, sample: seq<real>, rate: real, i: nat)
    requires i < |acc.weights|
    ensures var best := Bmu(m, acc.weights, sample, |acc.weights|);
      && (best.Ok? && best.value.unit == Some(i) ==>
            Step(m, acc, sample, rate).weights[i] == Moved(acc.weights[i], sample, rate))
      && (!(best.Ok? && best.value.unit == Some(i)) ==>
            Step(m, acc, sample, rate).weights[i] == acc.weights[i])
  {
  }

  /** An epoch from sample j on keeps the shape of the table, never lowers the
      error sum, and fails only with an epoch error. */
  lemma {:induction false} EpochFacts(m: Metric, data: seq<seq<real>>, rate: real, j: nat, acc: Sweep)
    requires j <= |data| && acc.outcome.Pass?
    ensures SameShape(acc.weights, EpochFrom(m, data, rate, j, acc).weights)
    ensures EpochFrom(m, data, rate, j, acc).sumError >= acc.sumError
    ensures EpochFrom(m, data, rate, j, acc).outcome.Fail? ==> EpochError(EpochFrom(m, data, rate, j, acc).outcome.error)
    decreases |data| - j
  {
    if j < |data| {
      var next := Step(m, acc, data[j], rate);
      StepFacts(m, acc, data[j], rate);
      if next.outcome.Pass? {
        EpochFacts(m, data, rate, j + 1, next);
      }
    }
  }

  /** A whole epoch starts from a zero error sum, so it ends with a non-negative one. */
  lemma EpochErrorNonNegative(m: Metric, w: seq<seq<real>>, data: seq<seq<real>>, rate: real, winnerDist: real)
    ensures Epoch(m, w, data, rate, winnerDist).sumError >= 0.0
    ensures SameShape(w, Epoch(m, w, data, rate, winnerDist).weights)
  {
    EpochFacts(m, data, rate, 0, Sweep(w, 0.0, winnerDist, Pass));
  }

  // ---------------------------------------------------------------------------
  // Properties of the epoch loop.

  /** `momentum` raised to the power k. */
  function Power(x: real, k: nat): real {
    if k == 0 then 1.0 else x * Power(x, k - 1)
  }

  /** Every snapshot event t has beyond s is taken at a multiple of the save
      period, after s's epoch and no later than t's. */
  predicate SavesWithin(cfg: Settings, s: Internals, t: Internals) {
    forall k :: |s.events| <= k < |t.events| && t.events[k].Saved? ==>
      cfg.savePeriod > 0 && t.events[k].epoch % cfg.savePeriod == 0
      && s.currentEpoch < t.events[k].epoch <= t.currentEpoch
  }

  /** What holds between a state s of the loop and any later state t: the
      epoch only grows and never past maxEpochs, each completed epoch leaves a
      non-negative error sum, the table keeps its shape and labels, events are
      only appended and every periodic snapshot is taken at an epoch that is a
      multiple of the period, and the learn rate follows the decay rule. */
  predicate Stretch(cfg: Settings, s: Internals, t: Internals)
    requires s.weights.Some?
  {
    && t.weights.Some?
    && s.currentEpoch <= t.currentEpoch
    && (t.currentEpoch == s.currentEpoch || t.currentEpoch <= cfg.maxEpochs)
    && (t.currentEpoch > s.currentEpoch ==> t.lastTrainErrorSquare >= 0.0)
    && SameShape(s.weights.value, t.weights.value)
    && s.events <= t.events
    && SavesWithin(cfg, s, t)
    && (t.currentEpoch == s.currentEpoch ==>
          t.currentLearnRate == s.currentLearnRate && t.lastTrainErrorSquare == s.lastTrainErrorSquare)
    && (!cfg.linearDecay ==> t.currentLearnRate == s.currentLearnRate * Power(cfg.momentum, t.currentEpoch - s.currentEpoch))
    && (cfg.linearDecay && t.currentEpoch > s.currentEpoch ==>
          t.currentLearnRate == cfg.learnRate * (1.0 - DivDouble((t.currentEpoch - 1) as real, cfg.maxEpochs as real)))
  }

  /** What the loop guarantees from state s to its final state t with outcome
      r: a Stretch; a loop that ends normally ends with the conditions broken
      or the halt flag set; and an exception is one an epoch or the serializer
      raises. */
  predicate LoopOutcome(cfg: Settings, s: Internals, t: Internals, r: Outcome)
    requires s.weights.Some?
  {
    && Stretch(cfg, s, t)
    && (r.Pass? ==> !Running(cfg, t) || t.halt)
    && (r.Fail? ==> EpochError(r.error))
  }

  /** Power(x, a + 1) == Power(x, a) * x. */
  lemma {:induction false} PowerStep(x: real, a: nat)
    ensures Power(x, a + 1) == Power(x, a) * x
  {
    if a > 0 {
      PowerStep(x, a - 1);
    }
  }

  /** One completed epoch followed by the listener, as far as LoopOutcome is
      concerned. */
  lemma AdvanceFacts(cfg: Settings, s: Internals, e: Sweep, sumError: real, last: bool)
    requires s.weights.Some? && Running(cfg, s) && SameShape(s.weights.value, e.weights) && e.sumError >= 0.0
    ensures var (s1, saved) := Advance(cfg, s, e);
      && Stretch(cfg, s, s1) && (saved.Fail? ==> EpochError(saved.error))
      && Stretch(cfg, s, Notify(cfg, s1, sumError, last))
  {
    var s1 := Advanced(cfg, s, e);
    AdvancedStretch(cfg, s, e);
    var (s2, saved) := Advance(cfg, s, e);
    if cfg.savePeriod > 0 && s1.currentEpoch % cfg.savePeriod == 0 {
      SaveStretch(cfg, s, s1);
      assert s2 == Save(cfg, s1).0;
    } else {
      assert s2 == s1;
    }
    NotifyStretch(cfg, s, s2, sumError, last);
  }

  /** A completed epoch is a stretch of one epoch. */
  lemma AdvancedStretch(cfg: Settings, s: Internals, e: Sweep)
    requires s.weights.Some? && Running(cfg, s) && SameShape(s.weights.value, e.weights) && e.sumError >= 0.0
    ensures Stretch(cfg, s, Advanced(cfg, s, e))
  {
    assert Power(cfg.momentum, 1) == cfg.momentum * 1.0;
  }

  /** A snapshot taken at a multiple of the save period keeps a stretch. */
  lemma SaveStretch(cfg: Settings, s: Internals, t: Internals)
    requires s.weights.Some? && Stretch(cfg, s, t) && s.currentEpoch < t.currentEpoch
    requires cfg.savePeriod > 0 && t.currentEpoch % cfg.savePeriod == 0
    ensures Stretch(cfg, s, Save(cfg, t).0)
  {
    var n := Save(cfg, t).0;
    assert forall k :: |t.events| <= k < |n.events| ==> n.events[k] == Saved(t.currentEpoch);
  }

  /** The listener adds no snapshot event, so a stretch stays one. */
  lemma NotifyStretch(cfg: Settings, s: Internals, t: Internals, sumError: real, last: bool)
    requires s.weights.Some? && Stretch(cfg, s, t)
    ensures Stretch(cfg, s, Notify(cfg, t, sumError, last))
  {
    var n := Notify(cfg, t, sumError, last);
    assert forall k :: |t.events| <= k < |n.events| ==> n.events[k].Notified?;
  }

  /** Two stretches of the loop make one. */
  lemma Chain(cfg: Settings, s: Internals, s1: Internals, t: Internals, r: Outcome)
    requires s.weights.Some? && s1.weights.Some?
    requires Stretch(cfg, s, s1) && LoopOutcome(cfg, s1, t, r)
    requires s1.currentEpoch == s.currentEpoch + 1
    ensures LoopOutcome(cfg, s, t, r)
  {
    SameShapeChain(s.weights.value, s1.weights.value, t.weights.value);
    SavesChain(cfg, s, s1, t);
    if !cfg.linearDecay {
      RateChain(cfg.momentum, s.currentLearnRate, s1.currentLearnRate, t.currentLearnRate, t.currentEpoch - s1.currentEpoch);
    }
  }

  lemma SameShapeChain(w0: seq<seq<real>>, w1: seq<seq<real>>, w2: seq<seq<real>>)
    requires SameShape(w0, w1) && SameShape(w1, w2)
    ensures SameShape(w0, w2)
  {
  }

  /** Snapshot events after s1 and those between s and s1 together lie
      between s and t. */
  lemma SavesChain(cfg: Settings, s: Internals, s1: Internals, t: Internals)
    requires s.events <= s1.events <= t.events && s.currentEpoch <= s1.currentEpoch <= t.currentEpoch
    requires SavesWithin(cfg, s, s1) && SavesWithin(cfg, s1, t)
    ensures s.events <= t.events && SavesWithin(cfg, s, t)
  {
    forall k | |s.events| <= k < |t.events| && t.events[k].Saved?
      ensures cfg.savePeriod > 0 && t.events[k].epoch % cfg.savePeriod == 0
              && s.currentEpoch < t.events[k].epoch <= t.currentEpoch
    {
      if k < |s1.events| {
        assert t.events[k] == s1.events[k];
      }
    }
  }

  /** One step of momentum decay followed by k more is k + 1 steps. */
  lemma RateChain(m: real, r0: real, r1: real, r2: real, k: nat)
    requires r1 == r0 * Power(m, 1) && r2 == r1 * Power(m, k)
    ensures r2 == r0 * Power(m, k + 1)
  {
    PowerStep(m, k);
    assert Power(m, 1) == m;
    calc {
      r2;
      (r0 * m) * Power(m, k);
      r0 * (Power(m, k) * m);
      r0 * Power(m, k + 1);
    }
  }


  /** The loop, from any state with a table, keeps LoopOutcome. */
  lemma {:induction false} TrainLoopFacts(cfg: Settings, data: seq<seq<real>>, s: Internals, requests: nat -> bool, j: nat)
    requires s.weights.Some?
    ensures LoopOutcome(cfg, s, TrainLoop(cfg, data, s, requests, j).0, TrainLoop(cfg, data, s, requests, j).1)
    decreases cfg.maxEpochs - s.currentEpoch
  {
    if Running(cfg, s) && !(s.halt || requests(j)) {
      var e := Epoch(cfg.metric, s.weights.value, data, s.currentLearnRate, s.lastWinnerDistance);
      EpochErrorNonNegative(cfg.metric, s.weights.value, data, s.currentLearnRate, s.lastWinnerDistance);
      EpochFacts(cfg.metric, data, s.currentLearnRate, 0, Sweep(s.weights.value, 0.0, s.lastWinnerDistance, Pass));
      if e.outcome.Pass? {
        var (s1, saved) := Advance(cfg, s, e);
        AdvanceFacts(cfg, s, e, e.sumError, !Running(cfg, s1));
        if saved.Pass? {
          var s2 := Notify(cfg, s1, e.sumError, !Running(cfg, s1));
          TrainLoopFacts(cfg, data, s2, requests, j + 1);
          Chain(cfg, s, s2, TrainLoop(cfg, data, s2, requests, j + 1).0, TrainLoop(cfg, data, s2, requests, j + 1).1);
        }
      }
    }
  }

  // ---------------------------------------------------------------------------
  // Properties of train.

  /** The state train starts its loop from, when it gets that far. */
  predicate Starts(cfg: Settings, s: Internals) {
    && s.weights.Some?
    && (s.currentEpoch == 0 ==> s.lastTrainErrorSquare == 0.0)
    && (s.currentEpoch != 0 ==> s.lastTrainErrorSquare != 0.0 && s.currentEpoch < cfg.maxEpochs && cfg.learnRate > cfg.quitLearnRate)
  }

  /** train throws IllegalStateException exactly when the table is missing or
      the epoch counter and the error sum disagree about whether training has
      begun; a finished snapshot is left as it is; any other exception is one
      of an epoch or the serializer's NullPointerException. */
  lemma TrainOutcomes(cfg: Settings, data: seq<seq<real>>, s: Internals, requests: nat -> bool)
    ensures TrainSpec(cfg, data, s, requests).1 == Fail(IllegalState) <==>
              s.weights.None? || (s.currentEpoch == 0 && s.lastTrainErrorSquare != 0.0)
                              || (s.currentEpoch != 0 && s.lastTrainErrorSquare == 0.0)
    ensures s.weights.Some? && s.currentEpoch != 0 && s.lastTrainErrorSquare != 0.0
            && (s.currentEpoch >= cfg.maxEpochs || cfg.learnRate <= cfg.quitLearnRate) ==>
              TrainSpec(cfg, data, s, requests) == (s, Pass)
    ensures Starts(cfg, s) && TrainSpec(cfg, data, s, requests).1.Fail? ==> EpochError(TrainSpec(cfg, data, s, requests).1.error)
  {
    if Starts(cfg, s) {
      var s0 := if s.currentEpoch == 0 then s.(currentLearnRate := cfg.learnRate) else s;
      TrainLoopFacts(cfg, data, s0, requests, 0);
    }
  }

  /** A run of train from a valid start keeps the shape and labels of the
      table, takes periodic snapshots only at multiples of a positive period,
      none at all with a negative period, and one of its final state as its
      last event when it ends normally with a non-negative period. From
      scratch without linear decay, the learn rate after k epochs is
      learnRate * momentum^k. */
  lemma TrainFacts(cfg: Settings, data: seq<seq<real>>, s: Internals, requests: nat -> bool)
    requires Starts(cfg, s)
    ensures var (t, r) := TrainSpec(cfg, data, s, requests);
      && t.weights.Some? && SameShape(s.weights.value, t.weights.value)
      && s.currentEpoch <= t.currentEpoch
      && s.events <= t.events
      && (cfg.savePeriod < 0 ==> forall k :: |s.events| <= k < |t.events| ==> !t.events[k].Saved?)
      && (cfg.savePeriod >= 0 && r.Pass? ==> |t.events| > |s.events| && t.events[|t.events| - 1] == Saved(t.currentEpoch))
      && (r.Pass? ==> !Running(cfg, t) || t.halt)
      && (s.currentEpoch == 0 && !cfg.linearDecay ==> t.currentLearnRate == cfg.learnRate * Power(cfg.momentum, t.currentEpoch))
  {
    var s0 := if s.currentEpoch == 0 then s.(currentLearnRate := cfg.learnRate) else s;
    TrainLoopFacts(cfg, data, s0, requests, 0);
  }

  /** A halt requested before train starts its loop stops it before any epoch:
      the table, the epoch, the learn rate and the error sum are those it
      started from, the flag is set when the loop was entered, and the
      listener then hears of it once, as the last iteration. */
  lemma HaltStops(cfg: Settings, data: seq<seq<real>>, s: Internals, requests: nat -> bool)
    requires Starts(cfg, s) && (s.halt || requests(0))
    ensures var (t, r) := TrainSpec(cfg, data, s, requests);
      && t.weights == s.weights && t.currentEpoch == s.currentEpoch
      && t.lastTrainErrorSquare == s.lastTrainErrorSquare && (t.halt <==> s.halt || Running(cfg, t))
      && t.currentLearnRate == (if s.currentEpoch == 0 then cfg.learnRate else s.currentLearnRate)
      && (cfg.hasListener && Running(cfg, t) ==>
            t.events[|s.events|] == Notified(s.currentEpoch, t.currentLearnRate, s.lastTrainErrorSquare, true))
  {
  }
}
