/** The prototype initializers of the library (WeightsInitializer.java). Each
    strategy fills the freshly allocated table `weights[trainSamples][nFeatures]`
    from the training vectors: by copying the elements of chosen rows
    (N_FIRST, N_RANDOM, N_RANDOM_UNIQUE), by making weight rows refer to chosen
    training rows (the two rational strategies), or not at all (ZEROES). */
module WeightsInitializer {
  import opened Doubles

  // ---------------------------------------------------------------------------
  // The random number generator.

  /** java.util.Random, seen through nextInt: the values it draws are a fixed
      sequence `draw`, and `pos` counts the values drawn so far. */
  class Rng {
    const draw: nat -> nat
    var pos: nat

    constructor (draw: nat -> nat)
      ensures this.draw == draw && pos == 0
    {
      this.draw := draw;
      pos := 0;
    }

    /** `nextInt(bound)`: a value in [0, bound). */
    method NextInt(bound: nat) returns (r: nat)
      requires bound > 0
      modifies this
      ensures r == draw(old(pos)) % bound && r < bound
      ensures pos == old(pos) + 1
    {
      r := draw(pos) % bound;
      pos := pos + 1;
    }
  }

  /** The built-in strategies. */
  datatype Strategy =
    | Zeroes
    | NFirst
    | NRandom
    | NRandomUnique
    | NRandomRational
    | NFirstRational

  // ---------------------------------------------------------------------------
  // Which training rows each strategy picks.

  predicate Distinct(s: seq<nat>) {
    forall i, j :: 0 <= i < j < |s| ==> s[i] != s[j]
  }

  predicate Below(s: seq<nat>, n: nat) {
    forall i :: 0 <= i < |s| ==> s[i] < n
  }

  function Elems(s: seq<nat>): set<nat> {
    set e | e in s
  }

  /** N_FIRST: rows 0 .. k - 1. */
  function FirstPicks(k: nat): seq<nat> {
    seq(k, i requires 0 <= i < k => i)
  }

  /** N_RANDOM: sample s copies row `nextInt(n)`, the (pos + s)-th draw. */
  function RandomPicks(draw: nat -> nat, pos: nat, k: nat, n: nat): (r: seq<nat>)
    requires n > 0
    ensures |r| == k && Below(r, n)
  {
    if k == 0 then [] else RandomPicks(draw, pos, k - 1, n) + [draw(pos + k - 1) % n]
  }

  /** N_RANDOM_UNIQUE: each sample removes entry `nextInt(size)` from the list
      of rows still available. */
  function UniquePicks(draw: nat -> nat, pos: nat, k: nat, pool: seq<nat>): (r: seq<nat>)
    requires k <= |pool|
    ensures |r| == k && forall s :: 0 <= s < k ==> r[s] in pool
    decreases k
  {
    if k == 0 then []
    else
      var j := draw(pos) % |pool|;
      [pool[j]] + UniquePicks(draw, pos + 1, k - 1, pool[..j] + pool[j + 1..])
  }

  /** The rows 0 .. n - 1, the list trainDataCopy starts from. */
  function Indices(n: nat): seq<nat> {
    seq(n, i requires 0 <= i < n => i)
  }

  /** One pass of the rational sweep from row i on: a row not added before whose
      label was not yet taken in this pass joins the results. */
  function Sweep(labels: seq<int>, added: set<nat>, taken: set<int>, i: nat): seq<nat>
    requires i <= |labels|
    decreases |labels| - i
  {
    if i == |labels| then []
    else if i !in added && labels[i] !in taken then
      [i] + Sweep(labels, added, taken + {labels[i]}, i + 1)
    else Sweep(labels, added, taken, i + 1)
  }

  /** The rational strategies: passes over all rows until at least k are picked. */
  function RationalPicks(labels: seq<int>, k: nat, picked: seq<nat>): (r: seq<nat>)
    requires k <= |labels| && Distinct(picked) && Below(picked, |labels|)
    ensures |r| >= k && Below(r, |labels|)
    decreases |labels| - |picked|
  {
    if |picked| >= k then picked
    else
      var next := picked + Sweep(labels, Elems(picked), {}, 0);
      SweepGrows(labels, picked);
      RationalPicks(labels, k, next)
  }

  /** The label of a training row, `(int) vec[nFeatures - 1]`. */
  function LabelOf(row: seq<real>, nFeatures: nat): int
    requires 1 <= nFeatures <= |row|
  {
    Trunc(row[nFeatures - 1])
  }

  function LabelsOf(rows: seq<seq<real>>, nFeatures: nat): seq<int>
    requires 1 <= nFeatures && forall i :: 0 <= i < |rows| ==> nFeatures <= |rows[i]|
  {
    seq(|rows|, i requires 0 <= i < |rows| => LabelOf(rows[i], nFeatures))
  }

  /** The training rows a strategy copies or refers to, for one configuration. */
  function Picks(strategy: Strategy, draw: nat -> nat, pos: nat, labels: seq<int>, k: nat): seq<nat>
    requires k <= |labels| && |labels| > 0
  {
    match strategy
    case Zeroes => []
    case NFirst => FirstPicks(k)
    case NRandom => RandomPicks(draw, pos, k, |labels|)
    case NRandomUnique => UniquePicks(draw, pos, k, Indices(|labels|))
    case NRandomRational => RationalPicks(labels, k, [])
    case NFirstRational => RationalPicks(labels, k, [])
  }

  /** How many values of the generator a strategy draws. */
  function DrawsUsed(strategy: Strategy, k: nat, n: nat): nat {
    match strategy
    case NRandom => k
    case NRandomUnique => k
    case NRandomRational => if n >= 2 then n - 1 else 0
    case _ => 0
  }

  function Zeros(n: nat): seq<real> {
    seq(n, _ => 0.0)
  }

  /** The table a strategy leaves, by value: zero rows for ZEROES, otherwise the
      first nFeatures elements of each picked row. */
  function InitialRows(strategy: Strategy, draw: nat -> nat, pos: nat, rows: seq<seq<real>>, k: nat, nFeatures: nat): (w: seq<seq<real>>)
    requires k <= |rows| && |rows| > 0
    requires 1 <= nFeatures && forall i :: 0 <= i < |rows| ==> nFeatures <= |rows[i]|
    ensures |w| == k
  {
    if strategy.Zeroes? then seq(k, _ => Zeros(nFeatures))
    else
      var p := Picks(strategy, draw, pos, LabelsOf(rows, nFeatures), k);
      PicksBelow(strategy, draw, pos, LabelsOf(rows, nFeatures), k);
      Gather(rows, p, k, nFeatures)
  }

  /** The first nFeatures elements of rows p[0], ..., p[k - 1]. */
  function Gather(rows: seq<seq<real>>, p: seq<nat>, k: nat, nFeatures: nat): (w: seq<seq<real>>)
    requires k <= |p| && Below(p, |rows|) && forall i :: 0 <= i < |rows| ==> nFeatures <= |rows[i]|
    ensures |w| == k && forall s :: 0 <= s < k ==> w[s] == rows[p[s]][..nFeatures]
  {
    seq(k, s requires 0 <= s < k => rows[p[s]][..nFeatures])
  }

  // ---------------------------------------------------------------------------
  // Properties of the picks.

  lemma FirstPicksAreFirst(k: nat)
    ensures |FirstPicks(k)| == k && Distinct(FirstPicks(k))
    ensures forall s :: 0 <= s < k ==> FirstPicks(k)[s] == s
  {
  }

  /** N_RANDOM picks k rows, each in range; repeats are possible. */
  lemma {:induction false} RandomPicksInRange(draw: nat -> nat, pos: nat, k: nat, n: nat)
    requires n > 0
    ensures |RandomPicks(draw, pos, k, n)| == k && Below(RandomPicks(draw, pos, k, n), n)
    ensures forall s :: 0 <= s < k ==> RandomPicks(draw, pos, k, n)[s] == draw(pos + s) % n
  {
    if k > 0 {
      RandomPicksInRange(draw, pos, k - 1, n);
    }
  }

  /** N_RANDOM may pick one row for every sample: two equal draws give a repeat. */
  lemma RandomPicksMayRepeat(n: nat)
    requires n > 0
    ensures RandomPicks(_ => 0, 0, 2, n) == [0, 0]
  {
    assert RandomPicks(_ => 0, 0, 1, n) == [0];
  }

  /** N_RANDOM_UNIQUE picks k distinct entries of the pool. */
  lemma {:induction false} UniquePicksDistinct(draw: nat -> nat, pos: nat, k: nat, pool: seq<nat>)
    requires k <= |pool| && Distinct(pool)
    ensures Distinct(UniquePicks(draw, pos, k, pool))
    decreases k
  {
    if k > 0 {
      var j := draw(pos) % |pool|;
      var rest := pool[..j] + pool[j + 1..];
      Removed(pool, j);
      UniquePicksDistinct(draw, pos + 1, k - 1, rest);
      var tail := UniquePicks(draw, pos + 1, k - 1, rest);
      assert UniquePicks(draw, pos, k, pool) == [pool[j]] + tail;
      assert forall s :: 0 <= s < |tail| ==> tail[s] in rest;
    }
  }

  /** Removing entry j of a list without repeats leaves a list without repeats
      that lacks exactly that entry. */
  lemma Removed(pool: seq<nat>, j: nat)
    requires j < |pool| && Distinct(pool)
    ensures var rest := pool[..j] + pool[j + 1..];
      Distinct(rest) && forall x :: x in rest ==> x in pool && x != pool[j]
  {
    var rest := pool[..j] + pool[j + 1..];
    assert forall t :: 0 <= t < |rest| ==> rest[t] == if t < j then pool[t] else pool[t + 1];
  }

  lemma IndicesDistinct(n: nat)
    ensures |Indices(n)| == n && Distinct(Indices(n)) && Below(Indices(n), n)
    ensures forall x: nat :: x in Indices(n) <==> x < n
  {
    forall x: nat | x < n
      ensures x in Indices(n)
    {
      assert Indices(n)[x] == x;
    }
  }

  /** What a pass of the sweep picks: rows from i on, in increasing order, none
      added before, with labels pairwise distinct and not taken before. */
  lemma {:induction false} SweepFacts(labels: seq<int>, added: set<nat>, taken: set<int>, i: nat)
    requires i <= |labels|
    ensures forall t :: 0 <= t < |Sweep(labels, added, taken, i)| ==>
              var x := Sweep(labels, added, taken, i)[t];
              i <= x < |labels| && x !in added && labels[x] !in taken
    ensures forall t, u :: 0 <= t < u < |Sweep(labels, added, taken, i)| ==>
              Sweep(labels, added, taken, i)[t] < Sweep(labels, added, taken, i)[u]
    ensures forall t, u :: 0 <= t < u < |Sweep(labels, added, taken, i)| ==>
              labels[Sweep(labels, added, taken, i)[t]] != labels[Sweep(labels, added, taken, i)[u]]
    decreases |labels| - i
  {
    if i < |labels| {
      var r := Sweep(labels, added, taken, i);
      if i !in added && labels[i] !in taken {
        var taken' := taken + {labels[i]};
        var rest := Sweep(labels, added, taken', i + 1);
        SweepFacts(labels, added, taken', i + 1);
        assert r == [i] + rest;
        assert forall t :: 1 <= t < |r| ==> r[t] == rest[t - 1];
        assert forall t :: 1 <= t < |r| ==> labels[r[t]] !in taken';
      } else {
        SweepFacts(labels, added, taken, i + 1);
      }
    }
  }

  /** A pass that starts with no label taken picks the first row not added
      before, if there is one. */
  lemma {:induction false} SweepPicksFirstUnused(labels: seq<int>, added: set<nat>, i: nat, j: nat)
    requires i <= j < |labels| && j !in added
    requires forall h :: i <= h < j ==> h in added
    ensures |Sweep(labels, added, {}, i)| > 0 && Sweep(labels, added, {}, i)[0] == j
    decreases j - i
  {
    if i < j {
      SweepPicksFirstUnused(labels, added, i + 1, j);
    }
  }

  /** Among distinct indices below n, fewer than n leave one out. */
  lemma UnusedIndex(s: seq<nat>, n: nat) returns (j: nat)
    requires Distinct(s) && Below(s, n) && |s| < n
    ensures j < n && j !in Elems(s)
  {
    var e := Elems(s);
    DistinctCard(s);
    IndicesDistinct(n);
    DistinctCard(Indices(n));
    var all := Elems(Indices(n));
    if forall x: nat :: x < n ==> x in e {
      assert all <= e;
      CardMono(all, e);
      assert false;
    }
    j :| j < n && j !in e;
  }

  lemma {:induction false} DistinctCard(s: seq<nat>)
    requires Distinct(s)
    ensures |Elems(s)| == |s|
    decreases |s|
  {
    if |s| > 0 {
      var t := s[..|s| - 1];
      assert Distinct(t);
      DistinctCard(t);
      assert Elems(s) == Elems(t) + {s[|s| - 1]};
      assert s[|s| - 1] !in Elems(t);
    }
  }

  lemma CardMono(a: set<nat>, b: set<nat>)
    requires a <= b
    ensures |a| <= |b|
  {
    assert b == a + (b - a);
  }

  /** Each pass before the target is reached adds at least one new row (the
      first one not yet added), so the sweep terminates. */
  lemma SweepGrows(labels: seq<int>, picked: seq<nat>)
    requires Distinct(picked) && Below(picked, |labels|) && |picked| < |labels|
    ensures var next := picked + Sweep(labels, Elems(picked), {}, 0);
      |next| > |picked| && Distinct(next) && Below(next, |labels|)
  {
    var added := Elems(picked);
    var j0 := UnusedIndex(picked, |labels|);
    var h: nat := 0;
    while h < j0 && h in added
      invariant h <= j0
      invariant forall g :: 0 <= g < h ==> g in added
    {
      h := h + 1;
    }
    SweepPicksFirstUnused(labels, added, 0, h);
    SweepFacts(labels, added, {}, 0);
  }

  /** The rational strategies pick at least k distinct rows, each in range; and
      every row the label-balanced sweep adds in a pass has a label of its own. */
  lemma {:induction false} RationalPicksDistinct(labels: seq<int>, k: nat, picked: seq<nat>)
    requires k <= |labels| && Distinct(picked) && Below(picked, |labels|)
    ensures var r := RationalPicks(labels, k, picked);
      |r| >= k && Distinct(r) && Below(r, |labels|) && r[..|picked|] == picked
    decreases |labels| - |picked|
  {
    if |picked| < k {
      var next := picked + Sweep(labels, Elems(picked), {}, 0);
      SweepGrows(labels, picked);
      RationalPicksDistinct(labels, k, next);
      assert next[..|picked|] == picked;
    }
  }

  /** Every strategy's picks are valid row indices, k of them at least. */
  lemma PicksBelow(strategy: Strategy, draw: nat -> nat, pos: nat, labels: seq<int>, k: nat)
    requires k <= |labels| && |labels| > 0
    ensures !strategy.Zeroes? ==> |Picks(strategy, draw, pos, labels, k)| >= k
    ensures Below(Picks(strategy, draw, pos, labels, k), |labels|)
  {
    match strategy
    case Zeroes =>
    case NFirst =>
    case NRandom => RandomPicksInRange(draw, pos, k, |labels|);
    case NRandomUnique =>
      IndicesDistinct(|labels|);
      UniquePicksDistinct(draw, pos, k, Indices(|labels|));
    case NRandomRational => RationalPicksDistinct(labels, k, []);
    case NFirstRational => RationalPicksDistinct(labels, k, []);
  }

  /** N_RANDOM_UNIQUE and the rational strategies never pick a row twice. */
  lemma PicksDistinct(strategy: Strategy, draw: nat -> nat, pos: nat, labels: seq<int>, k: nat)
    requires k <= |labels| && |labels| > 0
    requires strategy.NFirst? || strategy.NRandomUnique? || strategy.NRandomRational? || strategy.NFirstRational?
    ensures Distinct(Picks(strategy, draw, pos, labels, k))
  {
    match strategy
    case NFirst =>
    case NRandomUnique =>
      IndicesDistinct(|labels|);
      UniquePicksDistinct(draw, pos, k, Indices(|labels|));
    case NRandomRational => RationalPicksDistinct(labels, k, []);
    case NFirstRational => RationalPicksDistinct(labels, k, []);
  }

  /** The shuffle of trainDataCopy is never read: N_RANDOM_RATIONAL builds the
      same table as N_FIRST_RATIONAL, whatever the generator draws. Here this
      follows from `Picks` sending both kinds to `RationalPicks`; that the
      method itself reads only the unshuffled rows is what the ensures of
      `RationalInit` states. */
  lemma RationalIgnoresGenerator(draw: nat -> nat, pos: nat, draw': nat -> nat, pos': nat, rows: seq<seq<real>>, k: nat, nFeatures: nat)
    requires k <= |rows| && |rows| > 0
    requires 1 <= nFeatures && forall i :: 0 <= i < |rows| ==> nFeatures <= |rows[i]|
    ensures InitialRows(NRandomRational, draw, pos, rows, k, nFeatures)
         == InitialRows(NFirstRational, draw', pos', rows, k, nFeatures)
  {
  }

  // ---------------------------------------------------------------------------
  // The strategies over the table, as the library runs them.

  /** The contents of a table of rows. */
  function RowsOf(a: array<array<real>>): (r: seq<seq<real>>)
    reads a, set i | 0 <= i < a.Length :: a[i]
    ensures |r| == a.Length && forall i :: 0 <= i < a.Length ==> r[i] == a[i][..]
  {
    seq(a.Length, i requires 0 <= i < a.Length reads a, set j | 0 <= j < a.Length :: a[j] => a[i][..])
  }

  /** The training table: at least k rows, each holding a label at nFeatures - 1. */
  predicate TrainTable(trainData: array<array<real>>, k: nat, nFeatures: nat)
    reads trainData
  {
    && 0 < trainData.Length && k <= trainData.Length && 1 <= nFeatures
    && forall t :: 0 <= t < trainData.Length ==> trainData[t].Length >= nFeatures
  }

  /** k distinct rows of length nFeatures, none of them a training row. */
  predicate Separate(weights: array<array<real>>, trainData: array<array<real>>, k: nat, nFeatures: nat)
    reads weights, trainData
  {
    && weights.Length == k
    && (forall s :: 0 <= s < k ==> weights[s].Length == nFeatures)
    && (forall s, t :: 0 <= s < t < k ==> weights[s] != weights[t])
    && (forall s, t :: 0 <= s < k && 0 <= t < trainData.Length ==> weights[s] != trainData[t])
  }

  /** `new double[k][nFeatures]`: k separate rows of nFeatures zeros. */
  predicate FreshTable(weights: array<array<real>>, trainData: array<array<real>>, k: nat, nFeatures: nat)
    reads weights, set s | 0 <= s < weights.Length :: weights[s], trainData
  {
    && Separate(weights, trainData, k, nFeatures)
    && (forall s :: 0 <= s < k ==> weights[s][..] == Zeros(nFeatures))
  }

  /** The arraycopy of one strategy step: training row r into table row `sample`;
      no other row of either table changes. */
  method CopyRow(weights: array<array<real>>, trainData: array<array<real>>, k: nat, nFeatures: nat, sample: nat, src: array<real>, ghost r: nat)
    requires TrainTable(trainData, k, nFeatures) && Separate(weights, trainData, k, nFeatures)
    requires sample < k && r < trainData.Length && src == trainData[r]
    modifies weights[sample]
    ensures weights[sample][..] == trainData[r][..nFeatures]
    ensures forall s :: 0 <= s < k && s != sample ==> weights[s][..] == old(weights[s][..])
    ensures forall t :: 0 <= t < trainData.Length ==> trainData[t][..] == old(trainData[t][..])
  {
    ArrayCopy(src, weights[sample], nFeatures);
  }

  /** `System.arraycopy(src, 0, dst, 0, n)`. */
  method ArrayCopy(src: array<real>, dst: array<real>, n: nat)
    requires n <= src.Length && n <= dst.Length && src != dst
    modifies dst
    ensures dst[..] == src[..n] + old(dst[n..])
  {
    forall i | 0 <= i < n {
      dst[i] := src[i];
    }
  }

  /** ZEROES: nothing happens. */
  method ZeroesInit(weights: array<array<real>>, trainData: array<array<real>>, k: nat, nFeatures: nat)
    ensures RowsOf(weights) == old(RowsOf(weights))
  {
  }

  /** `strategy.initialize(weights, trainData, trainSamples, nFeatures, rng)` on
      the freshly allocated table: by value, the table holds InitialRows; the
      rational strategies make each weight row the very training row it picks. */
  method Initialize(strategy: Strategy, weights: array<array<real>>, trainData: array<array<real>>, k: nat, nFeatures: nat, rng: Rng)
    requires TrainTable(trainData, k, nFeatures) && FreshTable(weights, trainData, k, nFeatures) && weights != trainData
    requires forall t :: 0 <= t < trainData.Length ==> trainData[t].Length == nFeatures
    modifies weights, set s | 0 <= s < weights.Length :: weights[s], rng
    ensures rng.pos == old(rng.pos) + DrawsUsed(strategy, k, trainData.Length)
    ensures RowsOf(trainData) == old(RowsOf(trainData))
    ensures RowsOf(weights) == InitialRows(strategy, rng.draw, old(rng.pos), RowsOf(trainData), k, nFeatures)
    ensures strategy.NRandomRational? || strategy.NFirstRational? ==>
              forall s :: 0 <= s < k ==> weights[s] in trainData[..]
  {
    ghost var labels := LabelsOf(RowsOf(trainData), nFeatures);
    ghost var pos0 := rng.pos;
    PicksBelow(strategy, rng.draw, pos0, labels, k);
    match strategy
    case Zeroes =>
      ZeroesInit(weights, trainData, k, nFeatures);
      assert RowsOf(weights) == seq(k, _ => Zeros(nFeatures));
    case NFirst =>
      NFirstInit(weights, trainData, k, nFeatures);
      CopiedTable(weights, trainData, FirstPicks(k), k, nFeatures);
    case NRandom =>
      NRandomInit(weights, trainData, k, nFeatures, rng);
      CopiedTable(weights, trainData, RandomPicks(rng.draw, pos0, k, trainData.Length), k, nFeatures);
    case NRandomUnique =>
      NRandomUniqueInit(weights, trainData, k, nFeatures, rng);
      CopiedTable(weights, trainData, UniquePicks(rng.draw, pos0, k, Indices(trainData.Length)), k, nFeatures);
    case NRandomRational =>
      RationalInit(weights, trainData, k, nFeatures, rng);
      SharedTable(weights, trainData, RationalPicks(labels, k, []), k, nFeatures);
    case NFirstRational =>
      RationalInit(weights, trainData, k, nFeatures, null);
      SharedTable(weights, trainData, RationalPicks(labels, k, []), k, nFeatures);
  }

  /** A table whose rows hold copies of the picked training rows, by value. */
  lemma CopiedTable(weights: array<array<real>>, trainData: array<array<real>>, p: seq<nat>, k: nat, nFeatures: nat)
    requires weights.Length == k <= |p| && Below(p, trainData.Length)
    requires forall t :: 0 <= t < trainData.Length ==> nFeatures <= trainData[t].Length
    requires forall s :: 0 <= s < k ==> weights[s][..] == trainData[p[s]][..nFeatures]
    ensures RowsOf(weights) == Gather(RowsOf(trainData), p, k, nFeatures)
  {
  }

  /** A table whose rows are the picked training rows themselves, by value. */
  lemma SharedTable(weights: array<array<real>>, trainData: array<array<real>>, p: seq<nat>, k: nat, nFeatures: nat)
    requires weights.Length == k <= |p| && Below(p, trainData.Length)
    requires forall t :: 0 <= t < trainData.Length ==> trainData[t].Length == nFeatures
    requires forall s :: 0 <= s < k ==> weights[s] == trainData[p[s]]
    ensures RowsOf(weights) == Gather(RowsOf(trainData), p, k, nFeatures)
  {
    assert forall s :: 0 <= s < k ==> weights[s][..] == trainData[p[s]][..nFeatures];
  }

  /** N_FIRST: row s of the table gets the elements of training row s. */
  method NFirstInit(weights: array<array<real>>, trainData: array<array<real>>, k: nat, nFeatures: nat)
    requires TrainTable(trainData, k, nFeatures) && FreshTable(weights, trainData, k, nFeatures)
    modifies set s | 0 <= s < weights.Length :: weights[s]
    ensures forall s :: 0 <= s < k ==> weights[s][..] == trainData[s][..nFeatures]
    ensures RowsOf(trainData) == old(RowsOf(trainData))
  {
    for sample := 0 to k
      invariant forall s :: 0 <= s < sample ==> weights[s][..] == trainData[s][..nFeatures]
      invariant forall t :: 0 <= t < trainData.Length ==> trainData[t][..] == old(trainData[t][..])
    {
      CopyRow(weights, trainData, k, nFeatures, sample, trainData[sample], sample);
    }
  }

  /** N_RANDOM: row s of the table gets the elements of training row
      `nextInt(trainData.length)`. */
  method NRandomInit(weights: array<array<real>>, trainData: array<array<real>>, k: nat, nFeatures: nat, rng: Rng)
    requires TrainTable(trainData, k, nFeatures) && FreshTable(weights, trainData, k, nFeatures)
    modifies set s | 0 <= s < weights.Length :: weights[s], rng
    ensures rng.pos == old(rng.pos) + k
    ensures forall s :: 0 <= s < k ==>
              weights[s][..] == trainData[RandomPicks(rng.draw, old(rng.pos), k, trainData.Length)[s]][..nFeatures]
    ensures RowsOf(trainData) == old(RowsOf(trainData))
  {
    ghost var pos0 := rng.pos;
    RandomPicksInRange(rng.draw, pos0, k, trainData.Length);
    for sample := 0 to k
      invariant rng.pos == pos0 + sample
      invariant forall s :: 0 <= s < sample ==>
                  weights[s][..] == trainData[RandomPicks(rng.draw, pos0, k, trainData.Length)[s]][..nFeatures]
      invariant forall t :: 0 <= t < trainData.Length ==> trainData[t][..] == old(trainData[t][..])
    {
      var r := rng.NextInt(trainData.Length);
      CopyRow(weights, trainData, k, nFeatures, sample, trainData[r], r);
    }
  }

  /** N_RANDOM_UNIQUE: row s of the table gets the elements of the row removed
      from trainDataCopy at `nextInt(trainDataCopy.size())`. The copy of the
      list of training rows is kept as the list of the indices of the rows it holds. */
  method NRandomUniqueInit(weights: array<array<real>>, trainData: array<array<real>>, k: nat, nFeatures: nat, rng: Rng)
    requires TrainTable(trainData, k, nFeatures) && FreshTable(weights, trainData, k, nFeatures)
    modifies set s | 0 <= s < weights.Length :: weights[s], rng
    ensures rng.pos == old(rng.pos) + k
    ensures forall s :: 0 <= s < k ==>
              weights[s][..] == trainData[UniquePicks(rng.draw, old(rng.pos), k, Indices(trainData.Length))[s]][..nFeatures]
    ensures RowsOf(trainData) == old(RowsOf(trainData))
  {
    ghost var pos0 := rng.pos;
    ghost var orig := RowsOf(trainData);
    ghost var all := UniquePicks(rng.draw, pos0, k, Indices(trainData.Length));
    var trainDataCopy := Indices(trainData.Length);
    for sample := 0 to k
      invariant rng.pos == pos0 + sample
      invariant UniqueProgress(weights, trainData, k, nFeatures, all, sample, trainDataCopy, rng.draw, rng.pos, orig)
    {
      trainDataCopy := UniqueSample(weights, trainData, k, nFeatures, sample, trainDataCopy, rng, all, orig);
    }
  }

  /** Where N_RANDOM_UNIQUE stands after `sample` samples: the rows still in
      trainDataCopy make the rest of the picks `all`, the rows before sample
      hold the picked training rows, and the training rows are still `orig`. */
  ghost predicate UniqueProgress(weights: array<array<real>>, trainData: array<array<real>>, k: nat, nFeatures: nat,
                                 all: seq<nat>, sample: nat, trainDataCopy: seq<nat>, draw: nat -> nat, pos: nat, orig: seq<seq<real>>)
    reads weights, set s | 0 <= s < weights.Length :: weights[s], trainData, set t | 0 <= t < trainData.Length :: trainData[t]
  {
    && TrainTable(trainData, k, nFeatures) && Separate(weights, trainData, k, nFeatures)
    && sample <= k && |trainDataCopy| == trainData.Length - sample && Below(trainDataCopy, trainData.Length)
    && |all| == k && Below(all, trainData.Length)
    && all[sample..] == UniquePicks(draw, pos, k - sample, trainDataCopy)
    && (forall s :: 0 <= s < sample ==> weights[s][..] == trainData[all[s]][..nFeatures])
    && RowsOf(trainData) == orig
  }

  /** One step of N_RANDOM_UNIQUE: remove a random entry of trainDataCopy and
      copy the elements of the row it names into table row `sample`. */
  method UniqueSample(weights: array<array<real>>, trainData: array<array<real>>, k: nat, nFeatures: nat, sample: nat,
                      trainDataCopy: seq<nat>, rng: Rng, ghost all: seq<nat>, ghost orig: seq<seq<real>>)
    returns (rest: seq<nat>)
    requires sample < k && UniqueProgress(weights, trainData, k, nFeatures, all, sample, trainDataCopy, rng.draw, rng.pos, orig)
    modifies weights[sample], rng
    ensures rng.pos == old(rng.pos) + 1
    ensures UniqueProgress(weights, trainData, k, nFeatures, all, sample + 1, rest, rng.draw, rng.pos, orig)
  {
    ghost var p := rng.pos;
    var src;
    rest, src := Remove(trainDataCopy, rng);
    UniqueAdvance(rng.draw, p, rng.pos, k - sample, trainDataCopy, rest, all, sample);
    CopyRow(weights, trainData, k, nFeatures, sample, trainData[src], src);
    assert forall t :: 0 <= t < trainData.Length ==> trainData[t][..] == orig[t];
  }

  /** `trainDataCopy.remove(rng.nextInt(trainDataCopy.size()))`. */
  method Remove(trainDataCopy: seq<nat>, rng: Rng) returns (rest: seq<nat>, removed: nat)
    requires |trainDataCopy| > 0
    modifies rng
    ensures rng.pos == old(rng.pos) + 1
    ensures var j := rng.draw(old(rng.pos)) % |trainDataCopy|;
      removed == trainDataCopy[j] && rest == trainDataCopy[..j] + trainDataCopy[j + 1..]
    ensures multiset(rest) + multiset{removed} == multiset(trainDataCopy)
  {
    var j := rng.NextInt(|trainDataCopy|);
    removed := trainDataCopy[j];
    rest := trainDataCopy[..j] + trainDataCopy[j + 1..];
    assert trainDataCopy == trainDataCopy[..j] + [removed] + trainDataCopy[j + 1..];
  }

  /** One step of N_RANDOM_UNIQUE takes the next pick and leaves the rest to
      the shortened list. */
  lemma UniqueAdvance(draw: nat -> nat, pos: nat, next: nat, m: nat, pool: seq<nat>, rest: seq<nat>, all: seq<nat>, sample: nat)
    requires 0 < m <= |pool| && sample < |all| && all[sample..] == UniquePicks(draw, pos, m, pool)
    requires next == pos + 1 && rest == pool[..draw(pos) % |pool|] + pool[draw(pos) % |pool| + 1..]
    ensures all[sample] == pool[draw(pos) % |pool|]
    ensures all[sample + 1..] == UniquePicks(draw, next, m - 1, rest)
  {
    assert all[sample + 1..] == all[sample..][1..];
  }

  /** `Collections.shuffle(list, rng)`: for i from the size down to 2, swap
      entry i - 1 with entry `nextInt(i)`. The result is a permutation. */
  method Shuffle(list: seq<array<real>>, rng: Rng) returns (r: seq<array<real>>)
    modifies rng
    ensures multiset(r) == multiset(list)
    ensures rng.pos == old(rng.pos) + (if |list| >= 2 then |list| - 1 else 0)
  {
    r := list;
    var i := |list|;
    while i > 1
      invariant 0 <= i <= |list| && (|list| >= 1 ==> i >= 1)
      invariant |r| == |list| && multiset(r) == multiset(list)
      invariant rng.pos == old(rng.pos) + (|list| - i)
    {
      var j := rng.NextInt(i);
      r := r[i - 1 := r[j]][j := r[i - 1]];
      i := i - 1;
    }
  }

  /** The rational strategies: with a generator, trainDataCopy is shuffled
      first, but nothing reads it afterwards; the sweep runs over trainData in
      its own order, and row s of the table becomes (refers to) the s-th
      collected training row. */
  method RationalInit(weights: array<array<real>>, trainData: array<array<real>>, k: nat, nFeatures: nat, rng: Rng?)
    requires TrainTable(trainData, k, nFeatures) && weights.Length == k && weights != trainData
    modifies weights, rng
    ensures rng != null ==> rng.pos == old(rng.pos) + (if trainData.Length >= 2 then trainData.Length - 1 else 0)
    ensures forall s :: 0 <= s < k ==>
              weights[s] == trainData[RationalPicks(LabelsOf(RowsOf(trainData), nFeatures), k, [])[s]]
    ensures RowsOf(trainData) == old(RowsOf(trainData))
  {
    var trainDataCopy := trainData[..];
    if rng != null {
      trainDataCopy := Shuffle(trainDataCopy, rng);
    }
    var results := RationalResults(trainData, k, nFeatures);
    forall sample | 0 <= sample < k {
      weights[sample] := results[sample];
    }
  }

  /** The `while (results.size() < trainSamples)` loop of the rational
      strategies: the rows it collects, in order. */
  method RationalResults(trainData: array<array<real>>, k: nat, nFeatures: nat) returns (results: seq<array<real>>)
    requires TrainTable(trainData, k, nFeatures)
    ensures |results| >= k
    ensures forall s :: 0 <= s < k ==>
              results[s] == trainData[RationalPicks(LabelsOf(RowsOf(trainData), nFeatures), k, [])[s]]
  {
    var n := trainData.Length;
    ghost var labels := LabelsOf(RowsOf(trainData), nFeatures);
    results := [];
    var addedIndexes: set<nat> := {};
    ghost var picked: seq<nat> := [];
    while |results| < k
      invariant |results| == |picked| && Distinct(picked) && Below(picked, n)
      invariant addedIndexes == Elems(picked)
      invariant forall s :: 0 <= s < |results| ==> results[s] == trainData[picked[s]]
      invariant RationalPicks(labels, k, picked) == RationalPicks(labels, k, [])
      decreases n - |picked|
    {
      SweepGrows(labels, picked);
      assert RationalPicks(labels, k, picked)
          == RationalPicks(labels, k, picked + Sweep(labels, Elems(picked), {}, 0));
      results, addedIndexes, picked := OnePass(trainData, nFeatures, labels, results, addedIndexes, picked);
    }
  }

  /** One `for` pass of the rational sweep, with a fresh `addedLabelIDs`. */
  method OnePass(trainData: array<array<real>>, nFeatures: nat, ghost labels: seq<int>,
                 results0: seq<array<real>>, addedIndexes0: set<nat>, ghost picked0: seq<nat>)
    returns (results: seq<array<real>>, addedIndexes: set<nat>, ghost picked: seq<nat>)
    requires TrainTable(trainData, 0, nFeatures) && labels == LabelsOf(RowsOf(trainData), nFeatures)
    requires |results0| == |picked0| && Below(picked0, trainData.Length) && addedIndexes0 == Elems(picked0)
    requires forall s :: 0 <= s < |results0| ==> results0[s] == trainData[picked0[s]]
    ensures picked == picked0 + Sweep(labels, Elems(picked0), {}, 0)
    ensures |results| == |picked| && Below(picked, trainData.Length) && addedIndexes == Elems(picked)
    ensures forall s :: 0 <= s < |results| ==> results[s] == trainData[picked[s]]
  {
    var n := trainData.Length;
    results, addedIndexes, picked := results0, addedIndexes0, picked0;
    var addedLabelIDs: set<int> := {};
    for i := 0 to n
      invariant picked + Sweep(labels, Elems(picked0), addedLabelIDs, i) == picked0 + Sweep(labels, Elems(picked0), {}, 0)
      invariant addedIndexes == Elems(picked)
      invariant Elems(picked0) <= Elems(picked)
      invariant forall x :: x in Elems(picked) && x !in Elems(picked0) ==> x < i
      invariant |results| == |picked| && Below(picked, n)
      invariant forall s :: 0 <= s < |results| ==> results[s] == trainData[picked[s]]
    {
      ghost var rest := Sweep(labels, Elems(picked0), addedLabelIDs, i);
      if i !in addedIndexes {
        var vec := trainData[i];
        var labelId := Trunc(vec[nFeatures - 1]);
        assert labelId == labels[i];
        if labelId !in addedLabelIDs {
          assert rest == [i] + Sweep(labels, Elems(picked0), addedLabelIDs + {labelId}, i + 1);
          addedLabelIDs := addedLabelIDs + {labelId};
          results := results + [vec];
          addedIndexes := addedIndexes + {i};
          picked := picked + [i];
        }
      }
    }
  }
}
